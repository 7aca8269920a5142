/** The plan builder of index.js:109-176: the ordered list of labelled steps that a
    run of create-react-typescript executes, built from the command-line flags and
    one file-system probe. */
module PlanBuilder {
  import opened Text

  /** The two closures that the plan embeds as in-process actions. */
  datatype Callback =
    | ChangeDir(dir: string)                // () => process.chdir(appName), index.js:119
    | SetEslintPackageManager(npm: bool)    // the async closure of index.js:135-140

  /** A step action: a command line for execSync, or a zero-argument callback. */
  datatype Action = Shell(cmd: string) | Inline(callback: Callback)

  /** `{ text, addSpace }`; a label written without addSpace gets true (index.js:42). */
  datatype Label = Label(text: string, addSpace: bool)

  datatype Step = Step(heading: Label, actions: seq<Action>)

  /** Text taken from the boilerplate directory. The two printf arguments built by
      stringify (JSON.stringify) are given as they come out of it; the Jest and
      Enzyme files are given raw and escaped here, as readFile does. */
  datatype Boilerplate = Boilerplate(
    eslintrcArg: string,
    settingsArg: string,
    jestConfig: string,
    enzymeSetup: string)

  /** What the plan depends on: the app name, --npm, --commitizen, and whether
      `<appName>/package-lock.json` existed when the plan was built. */
  datatype Config = Config(
    appName: string,
    npm: bool,
    commitizen: bool,
    lockExists: bool,
    files: Boilerplate)

  /** What reaches the outside world: a command given to execSync, or a change of
      the working directory. */
  datatype Effect = Exec(cmd: string) | Chdir(dir: string)

  /** index.js:64-65 */
  function InstallCmd(npm: bool): string {
    if npm then "npm i" else "yarn add"
  }

  /** The arguments after installCmd at index.js:120 and index.js:148 (the second
      ends with a space in the source). */
  const LinterPackages := " -D prettier eslint-config-prettier eslint-plugin-prettier eslint-plugin-react @typescript-eslint/eslint-plugin @typescript-eslint/parser"
  const JestPackages := " -D @types/jest ts-jest @types/enzyme enzyme-to-json enzyme-adapter-react-16 @types/enzyme-adapter-react-16 "

  // Fixed parts of the commands that embed a value
  const CreateAppCmd := "npx create-react-app "
  const TypescriptFlag := " --typescript"
  const Printf := "printf "
  const PrintfQuoted := "printf \""
  const AppendEslintrc := " >> ./.eslintrc.json"
  const AppendSettings := " >> ./.vscode/settings.json"
  const AppendJestConfig := "\" >> jest.config.js"
  const AppendEnzymeSetup := "\" >> src/ezymeSetup.ts"

  const EslintNpmCmd := "npx json -I -f ./.vscode/settings.json -e \"this.eslint.packageManager=\\\"npm\\\"\""

  /** What invoking a callback does: the first changes directory, the second runs
      one more command, and only under npm. */
  function CallbackEffects(cb: Callback): seq<Effect> {
    match cb
    case ChangeDir(dir) => [Chdir(dir)]
    case SetEslintPackageManager(npm) => if npm then [Exec(EslintNpmCmd)] else []
  }

  // ---------------------------------------------------------------------------
  // The steps, in the order index.js lists them
  // ---------------------------------------------------------------------------

  // Label texts, index.js:112-173
  const CreateAppText := "Creating your React app with create-react-app"
  const LintersText := "Installing linters"
  const HooksText := "Setting up linter pre-commit hooks"
  const EslintText := "Adding Eslint config"
  const VsCodeText := "Adding VSCode workspace settings"
  const LintScriptText := "Adding lint script to package.json"
  const JestText := "Add Jest & Enzyme"
  const CommitizenText := "Add commitizen"
  const CleanupText := "Cleaning up"
  const CommitText := "Creating initial commits"

  function CreateAppStep(c: Config): Step {
    Step(Label(CreateAppText, false),
         [Shell(CreateAppCmd + c.appName + TypescriptFlag)])
  }

  function LintersStep(c: Config): Step {
    Step(Label(LintersText, true),
         [Inline(ChangeDir(c.appName)),
          Shell(InstallCmd(c.npm) + LinterPackages)])
  }

  const HooksStep := Step(Label(HooksText, true),
    [Shell("npx mrm lint-staged"),
     Shell("npx json -I -f package.json -e \"this[\\\"lint-staged\\\"]={'*.{ts,tsx}': ['eslint --fix','git add'], '*.{scss,js,md,json}': ['prettier --write','git add']}\"")])

  function EslintStep(c: Config): Step {
    Step(Label(EslintText, true),
         [Shell(Printf + c.files.eslintrcArg + AppendEslintrc)])
  }

  function VsCodeStep(c: Config): Step {
    Step(Label(VsCodeText, true),
         [Shell("mkdir .vscode"),
          Shell(Printf + c.files.settingsArg + AppendSettings),
          Inline(SetEslintPackageManager(c.npm))])
  }

  const LintScriptStep := Step(Label(LintScriptText, true),
    [Shell("npx json -I -f ./package.json -e \"this.scripts.lint=\\\"tsc --noEmit && eslint '*/**/*.{js,ts,tsx}' --quiet --fix\\\"\"")])

  function JestStep(c: Config): Step {
    Step(Label(JestText, true),
         [Shell(InstallCmd(c.npm) + JestPackages),
          Shell(PrintfQuoted + EscapeQuotes(c.files.jestConfig) + AppendJestConfig),
          Shell(PrintfQuoted + EscapeQuotes(c.files.enzymeSetup) + AppendEnzymeSetup)])
  }

  /** Installs commitizen with yarn whatever the package manager (index.js:157). */
  const CommitizenStep := Step(Label(CommitizenText, true),
    [Shell("yarn add -D commitizen"),
     Shell("npx commitizen init cz-conventional-changelog --save-dev --save-exact"),
     Shell("npx json -I -f ./package.json -e \"this.scripts.commit=\\\"git-cz\\\"\"")])

  const CleanupLabel := Label(CleanupText, true)

  /** index.js:162-170 */
  function CleanupActions(c: Config): seq<Action> {
    if c.npm then [Shell("rm yarn.lock"), Shell("npm install")]
    else (if c.lockExists then [Shell("rm package-lock.json")] else []) + [Shell("yarn install")]
  }

  const CommitStep := Step(Label(CommitText, true),
    [Shell("git add ."), Shell("git commit -m \"initial setup\"")])

  /** The plan as a value: the seven literal steps of index.js:109-152, the
      optional commitizen step, the clean-up step and the initial commit. */
  function Plan(c: Config): seq<Step> {
    var cleanup := Step(CleanupLabel, CleanupActions(c));
    if c.commitizen then
      [CreateAppStep(c), LintersStep(c), HooksStep, EslintStep(c), VsCodeStep(c), LintScriptStep, JestStep(c),
       CommitizenStep, cleanup, CommitStep]
    else
      [CreateAppStep(c), LintersStep(c), HooksStep, EslintStep(c), VsCodeStep(c), LintScriptStep, JestStep(c),
       cleanup, CommitStep]
  }

  /** The action is the `process.chdir` callback. */
  predicate ChangesDir(a: Action) {
    a.Inline? && a.callback.ChangeDir?
  }

  /** No action of the step changes the working directory. */
  predicate StaysInDir(s: Step) {
    forall a :: a in s.actions ==> !ChangesDir(a)
  }

  /** Only the second step, "Installing linters", changes directory, and into the
      new app (index.js:119). */
  lemma {:induction false} OnlyLintersStepChangesDir(c: Config)
    ensures |Plan(c)| >= 2 && Plan(c)[0] == CreateAppStep(c) && Plan(c)[1] == LintersStep(c)
    ensures forall i :: 0 <= i < |Plan(c)| && i != 1 ==> StaysInDir(Plan(c)[i])
  {
    var cleanup := Step(CleanupLabel, CleanupActions(c));
    assert StaysInDir(CreateAppStep(c)) && StaysInDir(HooksStep) && StaysInDir(EslintStep(c));
    assert StaysInDir(VsCodeStep(c)) && StaysInDir(LintScriptStep) && StaysInDir(JestStep(c));
    assert StaysInDir(CommitizenStep) && StaysInDir(CommitStep);
    assert StaysInDir(cleanup) by {
      forall a | a in cleanup.actions ensures !ChangesDir(a) {
        assert a in CleanupActions(c);
      }
    }
  }

  /** index.js:109-176 as written: start from the array literal, push the optional
      steps, and fill the yarn clean-up step by pushing onto the last element. */
  method BuildSteps(c: Config) returns (steps: seq<Step>)
    ensures steps == Plan(c)
  {
    steps := [CreateAppStep(c), LintersStep(c), HooksStep, EslintStep(c), VsCodeStep(c), LintScriptStep, JestStep(c)];
    if c.commitizen {
      steps := steps + [CommitizenStep];
    }
    ghost var before := steps;
    if c.npm {
      steps := steps + [Step(CleanupLabel, [Shell("rm yarn.lock"), Shell("npm install")])];
    } else {
      steps := steps + [Step(CleanupLabel, [])];
      var last := |steps| - 1;
      if c.lockExists {
        steps := steps[last := steps[last].(actions := steps[last].actions + [Shell("rm package-lock.json")])];
      }
      steps := steps[last := steps[last].(actions := steps[last].actions + [Shell("yarn install")])];
      assert steps[..last] == before;
      assert steps[last] == Step(CleanupLabel, CleanupActions(c));
      assert steps == steps[..last] + [steps[last]];
    }
    steps := steps + [CommitStep];
  }

  // ---------------------------------------------------------------------------
  // Properties of the plan
  // ---------------------------------------------------------------------------

  function Labels(p: seq<Step>): (r: seq<Label>)
    ensures |r| == |p| && forall i :: 0 <= i < |p| ==> r[i] == p[i].heading
  {
    if p == [] then [] else [p[0].heading] + Labels(p[1..])
  }

  function LabelTexts(p: seq<Step>): (r: seq<string>)
    ensures |r| == |p| && forall i :: 0 <= i < |p| ==> r[i] == p[i].heading.text
  {
    if p == [] then [] else [p[0].heading.text] + LabelTexts(p[1..])
  }

  /** Nine steps without --commitizen, ten with it, in this order. */
  lemma {:induction false} PlanLabels(c: Config)
    ensures |Plan(c)| == if c.commitizen then 10 else 9
    ensures LabelTexts(Plan(c)) ==
      [CreateAppText, LintersText, HooksText, EslintText, VsCodeText, LintScriptText, JestText]
      + (if c.commitizen then [CommitizenText] else [])
      + [CleanupText, CommitText]
  {
    var p, t := Plan(c), LabelTexts(Plan(c));
    var front := [CreateAppText, LintersText, HooksText, EslintText, VsCodeText, LintScriptText, JestText];
    if c.commitizen {
      assert t == front + [CommitizenText] + [CleanupText, CommitText] by {
        assert |t| == 10;
        assert t[7] == CommitizenText && t[8] == CleanupText && t[9] == CommitText;
      }
    } else {
      assert t == front + [] + [CleanupText, CommitText] by {
        assert |t| == 9;
        assert t[7] == CleanupText && t[8] == CommitText;
      }
    }
  }

  /** --commitizen inserts exactly one step, "Add commitizen", right after
      "Add Jest & Enzyme" and right before "Cleaning up"; removing it gives back
      the plan without the flag. */
  lemma {:induction false} CommitizenInsertsOneStep(c: Config)
    ensures var on, off := Plan(c.(commitizen := true)), Plan(c.(commitizen := false));
      && |on| == |off| + 1
      && on[7] == CommitizenStep && on[7].heading.text == CommitizenText
      && on[6].heading.text == JestText
      && on[8].heading.text == CleanupText
      && on[..7] + on[8..] == off
  {
  }

  /** The last step is always the initial commit: `git add .` then
      `git commit -m "initial setup"`. */
  lemma {:induction false} LastStepCommits(c: Config)
    ensures var p := Plan(c);
      && p[|p| - 1].heading.text == CommitText
      && p[|p| - 1].actions == [Shell("git add ."), Shell("git commit -m \"initial setup\"")]
  {
  }

  /** The clean-up step, second to last: under npm it removes yarn.lock and runs
      npm install; under yarn it removes package-lock.json only when that file was
      found, then runs yarn install. */
  lemma {:induction false} CleanupStepActions(c: Config)
    ensures var p := Plan(c);
      && p[|p| - 2].heading.text == CleanupText
      && p[|p| - 2].actions ==
        if c.npm then [Shell("rm yarn.lock"), Shell("npm install")]
        else if c.lockExists then [Shell("rm package-lock.json"), Shell("yarn install")]
        else [Shell("yarn install")]
  {
  }

  /** The package manager never changes a label or the order of the steps. It
      changes the actions of four steps only: the two installs that use installCmd
      (index.js:120, index.js:148), the settings callback (index.js:135-140) and
      the clean-up (index.js:162-170). */
  lemma {:induction false} ManagerChangesOnlyActions(c: Config)
    ensures var n, y := Plan(c.(npm := true)), Plan(c.(npm := false));
      && Labels(n) == Labels(y)
      && forall i :: 0 <= i < |n| && i != 1 && i != 4 && i != 6 && i != |n| - 2 ==> n[i] == y[i]
  {
    var n, y := Plan(c.(npm := true)), Plan(c.(npm := false));
    assert |n| == |y|;
    forall i | 0 <= i < |n|
      ensures n[i].heading == y[i].heading
      ensures i != 1 && i != 4 && i != 6 && i != |n| - 2 ==> n[i] == y[i]
    {
    }
  }

  /** Whether package-lock.json exists matters only under yarn, and only to the
      clean-up step. */
  lemma {:induction false} LockProbeOnlyAffectsYarnCleanup(c: Config)
    ensures var a, b := Plan(c.(lockExists := true)), Plan(c.(lockExists := false));
      && |a| == |b|
      && (c.npm ==> a == b)
      && forall i :: 0 <= i < |a| && i != |a| - 2 ==> a[i] == b[i]
  {
  }

  /** Every step has an action, and only the first step is logged without a blank
      line in front. */
  lemma {:induction false} StepShape(c: Config)
    ensures forall i :: 0 <= i < |Plan(c)| ==>
      |Plan(c)[i].actions| > 0 && (Plan(c)[i].heading.addSpace <==> i > 0)
  {
  }
}
