/** The action of the command (index.js:63-184): the start-up checks, the --npm
    notice, building the plan, running it and the closing banner. */
module Cli {
  import opened Text
  import opened PlanBuilder
  import opened Console
  import opened Executor

  /** The parsed command line: `<appName>`, `--npm`, `--commitizen`. */
  datatype Options = Options(appName: string, npm: bool, commitizen: bool)

  // ---------------------------------------------------------------------------
  // The Node version (index.js:70-77)
  // ---------------------------------------------------------------------------

  predicate IsDigitOrDot(c: char) {
    IsDigit(c) || c == '.'
  }

  /** `.replace(/v([\d\.]+)/, "$1")`: the first `v` followed by a digit or a dot is
      dropped (the greedy group is put back unchanged); nothing else changes. */
  function StripV(s: string): string {
    if |s| >= 2 && s[0] == 'v' && IsDigitOrDot(s[1]) then s[1..]
    else if s == [] then []
    else [s[0]] + StripV(s[1..])
  }

  /** `.split(".")[0]`: the text before the first dot. */
  function FirstField(s: string): string {
    if s == [] || s[0] == '.' then [] else [s[0]] + FirstField(s[1..])
  }

  /** nodeVersion.major. */
  function MajorVersion(version: string): ParsedInt {
    ParseInt(FirstField(StripV(version)))
  }

  /** A released Node version, as process.version spells it: `v<major>.<minor>.<patch>`. */
  datatype NodeVersion = NodeVersion(major: nat, minor: nat, patch: nat)

  function VersionString(v: NodeVersion): string {
    ['v'] + NatToString(v.major) + ['.'] + NatToString(v.minor) + ['.'] + NatToString(v.patch)
  }

  // ---------------------------------------------------------------------------
  // Start-up checks (index.js:79-100)
  // ---------------------------------------------------------------------------

  datatype Verdict = Proceed | Reject(error: Line)

  /** The three checks, in source order: major version below 10, an existing
      target path, and `parseInt(process.version) >= 10`. */
  function Preflight(version: string, appExists: bool): (v: Verdict)
    ensures v.Reject? ==> ToStderr(v.error)
  {
    if LessThan(MajorVersion(version), 10) then Reject(NodeTooOld(version))
    else if appExists then Reject(AlreadyExists)
    else if AtLeast(ParseInt(version), 10) then Reject(NodeVersionRejected)
    else Proceed
  }

  const LockFile := "/package-lock.json"

  /** The configuration the plan is built from; `fs` holds the paths that exist
      when the command starts, and package-lock.json is probed at that moment
      (index.js:167). */
  function ConfigFor(opts: Options, files: Boilerplate, fs: set<string>): Config {
    Config(opts.appName, opts.npm, opts.commitizen, opts.appName + LockFile in fs, files)
  }

  /** Everything the command prints when the step counter starts at `start`. */
  function Output(opts: Options, files: Boilerplate, version: string, fs: set<string>, start: nat): seq<Line> {
    match Preflight(version, opts.appName in fs)
    case Reject(error) => [error]
    case Proceed => RunOutput(opts.npm, Plan(ConfigFor(opts, files, fs)), start)
  }

  /** What a run that passes the checks prints: the --npm notice, the steps, and
      the closing banner. */
  function RunOutput(npm: bool, p: seq<Step>, start: nat): seq<Line> {
    (if npm then [NpmNotice] else []) + Transcript(p, start, |p|) + [Blank, Finished]
  }

  /** The action callback of index.js:63-184. The boilerplate has already been
      read; `fs` stands for the file system probes, `fails` for the outcome of
      each dispatched effect. */
  method Scaffold(runner: Runner, opts: Options, files: Boilerplate, version: string, fs: set<string>, fails: nat -> bool)
    requires runner.Tracks(fails)
    modifies runner
    ensures runner.console == old(runner.console) + Output(opts, files, version, fs, old(runner.currentStep))
    ensures runner.Tracks(fails)
    ensures Preflight(version, opts.appName in fs).Reject? ==>
      && runner.currentStep == old(runner.currentStep)
      && runner.effects == old(runner.effects)
      && runner.rejected == old(runner.rejected)
    ensures Preflight(version, opts.appName in fs).Proceed? ==>
      var p := Plan(ConfigFor(opts, files, fs));
      && runner.currentStep == old(runner.currentStep) + |p|
      && runner.effects == old(runner.effects) + PlanEffects(p)
  {
    ghost var start := runner.currentStep;
    if LessThan(MajorVersion(version), 10) {
      runner.Log(NodeTooOld(version));
      OutputWhenRejected(opts, files, version, fs, start);
      return;
    }
    if opts.appName in fs {
      runner.Log(AlreadyExists);
      OutputWhenRejected(opts, files, version, fs, start);
      return;
    }
    if AtLeast(ParseInt(version), 10) {
      runner.Log(NodeVersionRejected);
      OutputWhenRejected(opts, files, version, fs, start);
      return;
    }
    if opts.npm {
      runner.Log(NpmNotice);
    }
    ghost var noticed := runner.console;
    var lockExists := opts.appName + LockFile in fs;
    var config := Config(opts.appName, opts.npm, opts.commitizen, lockExists, files);
    assert config == ConfigFor(opts, files, fs);
    var steps := BuildSteps(config);
    runner.Run(steps, fails);
    ghost var ran := runner.console;
    runner.Log(Blank);
    runner.Log(Finished);
    OutputWhenProceeding(opts.npm, steps, start, old(runner.console), noticed, ran, runner.console);
  }

  lemma {:induction false} OutputWhenRejected(opts: Options, files: Boilerplate, version: string, fs: set<string>, start: nat)
    requires Preflight(version, opts.appName in fs).Reject?
    ensures Output(opts, files, version, fs, start) == [Preflight(version, opts.appName in fs).error]
  {
  }

  /** The console of a run that passes the checks, line group by line group. */
  lemma {:induction false} OutputWhenProceeding(npm: bool, steps: seq<Step>, start: nat,
                             con0: seq<Line>, noticed: seq<Line>, ran: seq<Line>, con: seq<Line>)
    requires noticed == con0 + (if npm then [NpmNotice] else [])
    requires ran == noticed + Transcript(steps, start, |steps|)
    requires con == ran + [Blank] + [Finished]
    ensures con == con0 + RunOutput(npm, steps, start)
  {
  }

  // ---------------------------------------------------------------------------
  // Properties
  // ---------------------------------------------------------------------------

  lemma {:induction false} FirstFieldOfDigits(ds: string, rest: string)
    requires AllDigits(ds)
    requires rest != [] && rest[0] == '.'
    ensures FirstField(ds + rest) == ds
  {
    if ds == [] {
      assert ds + rest == rest;
    } else {
      assert (ds + rest)[0] == ds[0] && (ds + rest)[1..] == ds[1..] + rest;
      FirstFieldOfDigits(ds[1..], rest);
    }
  }

  /** On a released version the checks reject exactly a major version below 10 and
      an existing target; the third check (index.js:99) never fires, because
      parseInt of a string that starts with `v` is NaN. */
  lemma {:induction false} PreflightOnRelease(v: NodeVersion, appExists: bool)
    ensures Preflight(VersionString(v), appExists) ==
      if v.major < 10 then Reject(NodeTooOld(VersionString(v)))
      else if appExists then Reject(AlreadyExists)
      else Proceed
  {
    var s := VersionString(v);
    var digits := NatToString(v.major);
    var rest := ['.'] + NatToString(v.minor) + ['.'] + NatToString(v.patch);
    assert s == ['v'] + (digits + rest);
    assert StripV(s) == digits + rest;
    FirstFieldOfDigits(digits, rest);
    ParseIntOfNatToString(v.major, []);
    assert digits + [] == digits;
    assert ParseInt(s) == NaN by {
      assert TrimStart(s) == s && SignStripped(s) == s;
    }
  }

  /** The check of index.js:99 is unreachable for any version string that starts
      with `v`, which every process.version does. */
  lemma {:induction false} NodeVersionRejectedUnreachable(version: string, appExists: bool)
    requires version != [] && version[0] == 'v'
    ensures Preflight(version, appExists) != Reject(NodeVersionRejected)
  {
    assert TrimStart(version) == version && SignStripped(version) == version;
  }

  /** A rejected start prints its one error and no step header: nothing of the
      plan runs. */
  lemma {:induction false} RejectedStartPrintsNoStep(opts: Options, files: Boilerplate, version: string, fs: set<string>, start: nat)
    requires Preflight(version, opts.appName in fs).Reject?
    ensures HeadersOf(Output(opts, files, version, fs, start)) == []
  {
    OutputWhenRejected(opts, files, version, fs, start);
  }

  /** When the checks pass, the headers are numbered start .. start + N - 1 with
      N = 9, or 10 with --commitizen, every header carries that same N, and the run
      ends with a blank line and "Finished!". */
  lemma {:induction false} ProceedingRunNumbersSteps(opts: Options, files: Boilerplate, version: string, fs: set<string>, start: nat)
    requires Preflight(version, opts.appName in fs).Proceed?
    ensures var out, p := Output(opts, files, version, fs, start), Plan(ConfigFor(opts, files, fs));
      var hs, n := HeadersOf(out), if opts.commitizen then 10 else 9;
      && |p| == n
      && |hs| == n
      && (forall k :: 0 <= k < n ==> hs[k] == Header(start + k, n, p[k].heading.text))
      && out[|out| - 2..] == [Blank, Finished]
  {
    var p := Plan(ConfigFor(opts, files, fs));
    var notice: seq<Line> := if opts.npm then [NpmNotice] else [];
    var t := Transcript(p, start, |p|);
    HeadersOfAppend(notice, t);
    HeadersOfAppend(notice + t, [Blank, Finished]);
    HeadersNumbered(p, start, |p|);
  }

  /** The paths of `fs` form a tree: the directories above an existing path exist. */
  ghost predicate PrefixClosed(fs: set<string>) {
    forall p, k :: p in fs && 0 < k < |p| && p[k] == '/' ==> p[..k] in fs
  }

  /** For a non-empty app name, package-lock.json is probed before create-react-app
      has run, inside a target directory the checks have just found missing; so the
      probe always fails and the yarn clean-up step is only `yarn install`. With an
      empty app name the probe is the absolute path `/package-lock.json` instead. */
  lemma {:induction false} LockProbeIsDead(opts: Options, files: Boilerplate, version: string, fs: set<string>)
    requires PrefixClosed(fs) && opts.appName != []
    requires Preflight(version, opts.appName in fs).Proceed?
    ensures !ConfigFor(opts, files, fs).lockExists
    ensures !opts.npm ==> CleanupActions(ConfigFor(opts, files, fs)) == [Shell("yarn install")]
  {
    var q := opts.appName + LockFile;
    var k := |opts.appName|;
    assert q[k] == '/' && q[..k] == opts.appName;
    assert opts.appName !in fs;
  }
}
