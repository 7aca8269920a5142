# create-react-typescript: the step orchestrator, modelled in Dafny

create-react-typescript is a one-file Node command (`index.js`) that scaffolds a
React + TypeScript app. It runs a start-up check of the Node version and of the
target path, then builds an ordered plan of labelled steps. Each step is a label
followed by shell commands and in-process callbacks. The command then runs the
plan, printing a numbered `current/total label` header before every step.

This project models that core:

- `text.dfy` (module `Text`):
  - `escapeQuotes` (index.js:21);
  - the ANSI colour wrappers;
  - the decimal rendering of the step counter;
  - the part of JavaScript's `parseInt` that the version checks rely on.
- `plan.dfy` (module `PlanBuilder`):
  - the plan builder of index.js:109-176, as a specification function `Plan` and as `BuildSteps`, which builds the array the way the source does;
  - the properties of the plan.
- `console.dfy` (module `Console`): every line the command prints, and its exact text.
- `executor.dfy` (module `Executor`):
  - `logStep`, `executeStep`, `executeCmd`, the global `currentStep` counter and the loop over the plan, as a `Runner` class whose methods update its fields;
  - specification functions for what a run prints and dispatches, and lemmas about them.
- `cli.dfy` (module `Cli`):
  - the body of the commander action (index.js:63-184): the three start-up checks in source order, the `--npm` notice, building and running the plan, and the closing banner;
  - lemmas about what the command prints.

## Model

Outside effects of the model:
- The outside world is reduced to two kinds of effect: `Exec(cmd)`, a command line given to `execSync`, and `Chdir(dir)`, the `process.chdir` callback.
- Whether a dispatched effect fails is an oracle `fails: nat -> bool`, indexed by the effect's position in the run.
- The file system probes are a set `fs` of existing paths.

Helpers that the rows below rely on, and that need no row of their own:
- `Cli.StripV` (index.js:71) removes the first `v` that a digit or dot follows, as the regular-expression replace does.
- `Cli.FirstField` and `Cli.MajorVersion` (index.js:72-74) take the text before the first dot and parse it.
- `Text.ParseInt` (index.js:74, index.js:99) is the prefix of JavaScript's `parseInt` that the checks use.
- `Console.Render` (index.js:25-38, index.js:80-107, index.js:183) gives the exact text of each printed line, colour codes included.
- `Executor.WorkingDir` gives the directory each effect runs in.
- `Cli.ConfigFor` (index.js:167) fixes the plan's inputs; its package-lock probe asks whether `appName/package-lock.json` is in `fs`.
- `Executor.Runner.Log` (index.js:25-38, index.js:80-107, index.js:183) appends one line to the console, whether `console.log` or `console.error` prints it.
- `Executor.Runner.Perform` (index.js:13-18) dispatches one effect and records a failure as a rejection at that effect's position.

Four behaviours of index.js that the model follows as written:
- **No fail-fast.** `executeCmd` turns an `execSync` failure into a rejected promise. Neither `forEach` (index.js:44, index.js:178) awaits it, so every later action and step is still dispatched. The runner records each failure's position in `rejected`. `FailFast` defines a fail-fast executor, which index.js is not, and two lemmas relate it to the real run.
- **Nine or ten steps.** The literal array has seven steps (index.js:109-152). "Cleaning up" and "Creating initial commits" are always pushed after it, and "Add commitizen" is pushed when the flag is set.
- **Step order.** "Add commitizen" comes after "Add Jest & Enzyme" and before "Cleaning up".
- **Commitizen uses yarn.** The commitizen step installs with `yarn add` even under `--npm` (index.js:157).

| member | source | states |
|---|---|---|
| Text.EscapeQuotesLength | index.js:21 | escaping adds exactly one character per single or double quote |
| Text.EscapedQuotesFollowBackslash | index.js:21 | in the escaped text every quote stands right after a backslash |
| Text.UnescapeEscapeQuotes | index.js:21 | escaping is lossless: undoing the escapes gives the input back, backslashes included |
| Text.DigitsValueOfNatToString | index.js:36 | the decimal rendering of the step counter reads back as the counter |
| Text.ParseIntOfNatToString | index.js:74 | parseInt of a decimal rendering followed by non-digit text is that number |
| PlanBuilder.BuildSteps | index.js:109-176 | the array built by literal, pushes and the in-place push onto the last step equals the plan `Plan(c)` |
| PlanBuilder.PlanLabels | index.js:109-176 | the plan has 9 steps, or 10 with --commitizen, with exactly these labels in this order |
| PlanBuilder.CommitizenInsertsOneStep | index.js:154-160 | --commitizen inserts the one commitizen step between "Add Jest & Enzyme" and "Cleaning up"; removing it gives the plan without the flag |
| PlanBuilder.LastStepCommits | index.js:172-176 | the last step is always the initial commit, `git add .` then `git commit` |
| PlanBuilder.CleanupStepActions | index.js:162-170 | the second-to-last step is the clean-up, with the npm actions, or under yarn an optional `rm package-lock.json` then `yarn install` |
| PlanBuilder.ManagerChangesOnlyActions | index.js:64-170 | the package manager changes no label and no step other than the two installs, the settings callback and the clean-up |
| PlanBuilder.LockProbeOnlyAffectsYarnCleanup | index.js:166-169 | the package-lock probe changes only the clean-up step, and nothing under npm |
| PlanBuilder.StepShape | index.js:109-114 | every step has an action, and only the first is logged without a blank line before it |
| PlanBuilder.OnlyLintersStepChangesDir | index.js:117-121 | the second step is the only one holding a change of directory |
| Executor.HeadersNumbered | index.js:29-40 | a run of N steps prints N headers numbered from the counter's start, in plan order, all carrying the same total and each its step's label |
| Executor.FailuresExact | index.js:11-20 | the recorded failures are exactly the failing positions, each once, in increasing order |
| Executor.PlanStartsInNewApp | index.js:115-120 | create-react-app runs first, then the change into the new app; every later effect is a command, so no other action changes directory |
| Executor.PlanWorkingDirectory | index.js:115-121 | create-react-app runs in the starting directory; if the change into the app succeeds, every later command runs inside the app, and if it fails, every later command runs in the starting directory |
| Executor.EnterThenStay | index.js:115-121 | for any plan whose first two steps have that shape and whose later steps stay put, the run starts with that command and that directory change |
| Executor.FailFastStopsAtFailure | index.js:44-47 | a fail-fast runner, which index.js is not, dispatches nothing after a failing effect |
| Executor.FailFastAgreesIffNoEarlyFailure | index.js:44-47 | index.js and a fail-fast runner dispatch the same effects exactly when no effect but the last fails |
| Executor.Runner.constructor | index.js:29 | the counter starts at 1 with nothing printed or dispatched |
| Executor.Runner.LogStep | index.js:30-40 | prints the optional blank line, the header `current/total text` and the rule, then advances the counter by one |
| Executor.Runner.ExecuteCmd | index.js:11-20 | dispatches one command; a failure is recorded as a rejection and nothing else changes |
| Executor.Runner.Invoke | index.js:46 | calling a callback changes directory, or under npm runs the eslint package-manager command, or does nothing |
| Executor.Runner.ExecuteStep | index.js:41-48 | logs the step, then dispatches all its actions in array order, whatever fails |
| Executor.Runner.Run | index.js:178-180 | runs every step in order with the plan's length as total; the console gains the transcript and the effects the plan's effects, and the failures stay exactly recorded |
| Cli.Preflight | index.js:79-100 | every start-up rejection is written to standard error |
| Cli.PreflightOnRelease | index.js:70-100 | on a released version string `vM.m.p` the command rejects exactly a major below 10, then an existing target; otherwise it proceeds |
| Cli.NodeVersionRejectedUnreachable | index.js:99-100 | the check of line 99 never fires for a version that starts with `v` |
| Cli.FirstFieldOfDigits | index.js:70-72 | the text before the first dot of `digits.rest` is the digits |
| Cli.Scaffold | index.js:63-184 | prints exactly `Output`; a rejected start dispatches nothing; otherwise the counter advances by the plan's length and the effects are the plan's effects |
| Cli.OutputWhenRejected | index.js:79-100 | a rejected start prints exactly its one error line |
| Cli.RejectedStartPrintsNoStep | index.js:79-100 | a rejected start prints no step header |
| Cli.ProceedingRunNumbersSteps | index.js:178-183 | a run that passes the checks prints 9 or 10 headers numbered from the counter's start with that total, then a blank line and "Finished!" |
| Cli.LockProbeIsDead | index.js:167-168 | for a non-empty app name the package-lock probe runs before the app directory exists, so under yarn the clean-up is only `yarn install` |

## Left out

- The commander command line (index.js:58-62, index.js:186): the parsed options are an input, `Options`.
- Reading the boilerplate files (index.js:49-56, index.js:66-69): their contents are an input, `Boilerplate`. The Jest and Enzyme files are escaped by `EscapeQuotes`, as `readFile` does.
- `stringify` (index.js:22): JSON.stringify is not modelled. Its results for `.eslintrc.json` and `settings.json` are inputs.
- Execution of commands: `execSync` and the child processes it starts are the oracle `fails`; their output is not modelled.
- Promises and the event loop: the model runs everything in the order the synchronous parts of index.js run it.
  - A failure is only recorded. The crash that a recent Node version makes of an unhandled rejection, after "Finished!" is printed, is not modelled.
- `nodeVersion.minor` and `nodeVersion.patch` (index.js:75-76): they are never read, so they are not computed. The patch reads `nodeVersionArr[3]`, which is always absent.
- `parseInt`: hexadecimal `0x` prefixes are not modelled, nor a radix argument; the version strings involved never carry either.
- The ANSI colour wrappers: `Render` gives the exact text of every line, but no property of that text is proved.
- `fs.existsSync`: path normalisation is not modelled; a path exists when it is in `fs`.
- Executor.Runner.Run: its rejected promises are stated through the runner invariant `Tracks(fails)`, which says `rejected == Failures(0, |effects|, fails)`. It does not give the new rejections relative to the old ones. The constructor establishes the invariant for every oracle.
- Cli.Scaffold: on a run that proceeds, the new rejections are stated only through `Tracks(fails)`, as for Run.

## Dead checks

Two checks in index.js can never fire. They are stated as lemmas rather than as bugs, because what the authors intended is uncertain:
- `Cli.NodeVersionRejectedUnreachable`: `parseInt(process.version)` is NaN, because the version starts with `v`, so the check at index.js:99 can never reject.
- `Cli.LockProbeIsDead`: for a non-empty app name, package-lock.json is probed inside a directory that the second check has just found missing. So the yarn clean-up never removes it. With an empty app name the probe is the absolute path `/package-lock.json`.

## Observations

- `Executor.PlanWorkingDirectory`: the change into the new app is a callback whose failure is not awaited (index.js:44-47). So if create-react-app fails and the directory is never created, the installs, the file writes and the final `git add .` and `git commit` still run, in the directory the command was started from.
