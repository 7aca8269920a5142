/** The step executor of index.js: logStep and the global currentStep counter
    (index.js:29-40), executeStep (index.js:41-48), executeCmd (index.js:11-20) and
    the loop over the plan (index.js:178-180).

    Every action of the plan is dispatched, in order, whatever happens to the ones
    before it: executeCmd turns an execSync failure into a rejected promise, and
    neither forEach awaits it. Whether a dispatched effect fails is an oracle
    `fails`, indexed by the effect's position in the whole run; a failure only
    leaves a rejected promise behind, which the Runner records in `rejected`. */
module Executor {
  import opened PlanBuilder
  import opened Console

  // ---------------------------------------------------------------------------
  // Specification functions
  // ---------------------------------------------------------------------------

  /** A string action goes to the shell; anything else is called. */
  function ActionEffects(a: Action): seq<Effect> {
    match a
    case Shell(cmd) => [Exec(cmd)]
    case Inline(cb) => CallbackEffects(cb)
  }

  /** The effects of a step's actions, in array order. */
  function StepEffects(actions: seq<Action>): seq<Effect> {
    if actions == [] then [] else ActionEffects(actions[0]) + StepEffects(actions[1..])
  }

  /** The effects of a whole plan, step after step. */
  function PlanEffects(steps: seq<Step>): seq<Effect> {
    if steps == [] then [] else StepEffects(steps[0].actions) + PlanEffects(steps[1..])
  }

  /** What logStep prints for one step. */
  function StepLines(heading: Label, current: nat, total: nat): seq<Line> {
    (if heading.addSpace then [Blank] else []) + [Header(current, total, heading.text), Rule]
  }

  /** What running `steps` prints when the counter starts at `start`. */
  function Transcript(steps: seq<Step>, start: nat, total: nat): seq<Line> {
    if steps == [] then [] else StepLines(steps[0].heading, start, total) + Transcript(steps[1..], start + 1, total)
  }

  /** The positions in [lo, hi) whose effect fails, in increasing order. */
  function Failures(lo: nat, hi: nat, fails: nat -> bool): seq<nat>
    decreases hi - lo
  {
    if lo >= hi then [] else (if fails(lo) then [lo] else []) + Failures(lo + 1, hi, fails)
  }

  // ---------------------------------------------------------------------------
  // Composition lemmas the loops rely on
  // ---------------------------------------------------------------------------

  lemma {:induction false} StepEffectsSnoc(actions: seq<Action>, a: Action)
    ensures StepEffects(actions + [a]) == StepEffects(actions) + ActionEffects(a)
  {
    if actions == [] {
      assert actions + [a] == [a];
    } else {
      assert (actions + [a])[0] == actions[0] && (actions + [a])[1..] == actions[1..] + [a];
      StepEffectsSnoc(actions[1..], a);
    }
  }

  lemma {:induction false} PlanEffectsSnoc(steps: seq<Step>, s: Step)
    ensures PlanEffects(steps + [s]) == PlanEffects(steps) + StepEffects(s.actions)
  {
    if steps == [] {
      assert steps + [s] == [s];
    } else {
      assert (steps + [s])[0] == steps[0] && (steps + [s])[1..] == steps[1..] + [s];
      PlanEffectsSnoc(steps[1..], s);
    }
  }

  lemma {:induction false} TranscriptSnoc(steps: seq<Step>, s: Step, start: nat, total: nat)
    ensures Transcript(steps + [s], start, total)
         == Transcript(steps, start, total) + StepLines(s.heading, start + |steps|, total)
  {
    if steps == [] {
      assert steps + [s] == [s];
    } else {
      assert (steps + [s])[0] == steps[0] && (steps + [s])[1..] == steps[1..] + [s];
      TranscriptSnoc(steps[1..], s, start + 1, total);
    }
  }

  lemma {:induction false} FailuresSplit(lo: nat, mid: nat, hi: nat, fails: nat -> bool)
    requires lo <= mid <= hi
    ensures Failures(lo, hi, fails) == Failures(lo, mid, fails) + Failures(mid, hi, fails)
    decreases mid - lo
  {
    if lo < mid {
      FailuresSplit(lo + 1, mid, hi, fails);
    }
  }

  /** One pass of the plan loop, for the console: step i's lines after the first
      i steps' transcript are the first i + 1 steps' transcript. */
  lemma {:induction false} TranscriptStep(steps: seq<Step>, i: nat, start: nat, con0: seq<Line>, con: seq<Line>, con': seq<Line>)
    requires i < |steps|
    requires con == con0 + Transcript(steps[..i], start, |steps|)
    requires con' == con + StepLines(steps[i].heading, start + i, |steps|)
    ensures con' == con0 + Transcript(steps[..i + 1], start, |steps|)
  {
    assert steps[..i + 1] == steps[..i] + [steps[i]];
    TranscriptSnoc(steps[..i], steps[i], start, |steps|);
    AppendAssociates(con0, Transcript(steps[..i], start, |steps|), StepLines(steps[i].heading, start + i, |steps|));
  }

  /** One pass of the plan loop, for the effects. */
  lemma {:induction false} PlanEffectsStep(steps: seq<Step>, i: nat, eff0: seq<Effect>, eff: seq<Effect>, eff': seq<Effect>)
    requires i < |steps|
    requires eff == eff0 + PlanEffects(steps[..i])
    requires eff' == eff + StepEffects(steps[i].actions)
    ensures eff' == eff0 + PlanEffects(steps[..i + 1])
  {
    assert steps[..i + 1] == steps[..i] + [steps[i]];
    PlanEffectsSnoc(steps[..i], steps[i]);
    AppendAssociates(eff0, PlanEffects(steps[..i]), StepEffects(steps[i].actions));
  }

  /** The plan loop after its last pass. */
  lemma {:induction false} RunFinished(steps: seq<Step>, start: nat, con0: seq<Line>, con: seq<Line>, eff0: seq<Effect>, eff: seq<Effect>)
    requires con == con0 + Transcript(steps[..|steps|], start, |steps|)
    requires eff == eff0 + PlanEffects(steps[..|steps|])
    ensures con == con0 + Transcript(steps, start, |steps|)
    ensures eff == eff0 + PlanEffects(steps)
  {
    assert steps[..|steps|] == steps;
  }

  /** One iteration of the action loop, for the effects. */
  lemma {:induction false} StepEffectsAdvance(actions: seq<Action>, i: nat, eff0: seq<Effect>, eff: seq<Effect>)
    requires i < |actions|
    requires eff == eff0 + StepEffects(actions[..i])
    ensures eff + ActionEffects(actions[i]) == eff0 + StepEffects(actions[..i + 1])
  {
    assert actions[..i + 1] == actions[..i] + [actions[i]];
    StepEffectsSnoc(actions[..i], actions[i]);
    AppendAssociates(eff0, StepEffects(actions[..i]), ActionEffects(actions[i]));
  }

  /** One dispatch, for the rejected promises: the failures recorded so far plus
      those among the new effects are the failures of the whole range. */
  lemma {:induction false} FailuresAdvance(lo: nat, mid: nat, hi: nat, fails: nat -> bool, rej0: seq<nat>, rej: seq<nat>)
    requires lo <= mid <= hi
    requires rej == rej0 + Failures(lo, mid, fails)
    ensures rej + Failures(mid, hi, fails) == rej0 + Failures(lo, hi, fails)
  {
    FailuresSplit(lo, mid, hi, fails);
    AppendAssociates(rej0, Failures(lo, mid, fails), Failures(mid, hi, fails));
  }

  lemma {:induction false} AppendAssociates<T>(a: seq<T>, b: seq<T>, c: seq<T>)
    ensures a + b + c == a + (b + c)
  {
  }

  // ---------------------------------------------------------------------------
  // Properties of an execution
  // ---------------------------------------------------------------------------

  /** The headers of a run of N steps are numbered start, start + 1, ... in plan
      order, each carries the same total, and each carries its step's text. */
  lemma {:induction false} HeadersNumbered(steps: seq<Step>, start: nat, total: nat)
    ensures var hs := HeadersOf(Transcript(steps, start, total));
      && |hs| == |steps|
      && forall k :: 0 <= k < |steps| ==> hs[k] == Header(start + k, total, steps[k].heading.text)
  {
    if steps != [] {
      var first := StepLines(steps[0].heading, start, total);
      HeadersOfAppend(first, Transcript(steps[1..], start + 1, total));
      if steps[0].heading.addSpace {
        HeadersOfAppend([Blank], [Header(start, total, steps[0].heading.text), Rule]);
      }
      assert HeadersOf(first) == [Header(start, total, steps[0].heading.text)];
      HeadersNumbered(steps[1..], start + 1, total);
    }
  }

  /** `rejected` names exactly the failing positions, each once, in increasing order. */
  lemma {:induction false} FailuresExact(lo: nat, hi: nat, fails: nat -> bool)
    ensures forall i :: i in Failures(lo, hi, fails) <==> lo <= i < hi && fails(i)
    ensures forall j, k :: 0 <= j < k < |Failures(lo, hi, fails)| ==>
      Failures(lo, hi, fails)[j] < Failures(lo, hi, fails)[k]
    decreases hi - lo
  {
    if lo < hi {
      FailuresExact(lo + 1, hi, fails);
      var r, t := Failures(lo, hi, fails), Failures(lo + 1, hi, fails);
      if fails(lo) {
        assert r == [lo] + t;
        forall j, k | 0 <= j < k < |r| ensures r[j] < r[k] {
          assert r[k] == t[k - 1] && t[k - 1] in t;
          if j > 0 {
            assert r[j] == t[j - 1];
          }
        }
      }
    }
  }

  /** The create-react-app command is dispatched first and the change into the new
      directory second; every later effect is a command, so no other action changes
      directory. Where those commands run is `PlanWorkingDirectory`. */
  lemma {:induction false} PlanStartsInNewApp(c: Config)
    ensures var es := PlanEffects(Plan(c));
      && |es| >= 2
      && es[0] == Exec(CreateAppCmd + c.appName + TypescriptFlag)
      && es[1] == Chdir(c.appName)
      && forall i :: 2 <= i < |es| ==> es[i].Exec?
  {
    OnlyLintersStepChangesDir(c);
    EnterThenStay(Plan(c), CreateAppCmd + c.appName + TypescriptFlag, c.appName, InstallCmd(c.npm) + LinterPackages);
  }

  /** The working directory in which effect i of `es` runs, as a path relative to
      the directory the command was started in; the first effect is at position
      `base` of the run. A `process.chdir` that fails (the directory does not
      exist) leaves the directory as it was. */
  function WorkingDir(es: seq<Effect>, i: nat, base: nat, fails: nat -> bool): seq<string>
    requires i <= |es|
  {
    if i == 0 then []
    else
      var before := WorkingDir(es, i - 1, base, fails);
      match es[i - 1]
      case Chdir(dir) => if fails(base + i - 1) then before else before + [dir]
      case Exec(_) => before
  }

  /** create-react-app runs where the command was started. When the change into the
      new app succeeds, every later command runs inside the app. When it fails,
      for instance because create-react-app failed, its rejection is not awaited
      (index.js:44-47) and every later command, `git commit` included, runs where
      the command was started. */
  lemma {:induction false} PlanWorkingDirectory(c: Config, base: nat, fails: nat -> bool)
    ensures var es := PlanEffects(Plan(c));
      && |es| >= 2
      && WorkingDir(es, 0, base, fails) == []
      && WorkingDir(es, 1, base, fails) == []
      && (!fails(base + 1) ==> forall i :: 2 <= i < |es| ==> WorkingDir(es, i, base, fails) == [c.appName])
      && (fails(base + 1) ==> forall i :: 2 <= i < |es| ==> WorkingDir(es, i, base, fails) == [])
  {
    PlanStartsInNewApp(c);
    var es := PlanEffects(Plan(c));
    assert WorkingDir(es, 1, base, fails) == [];
    forall i | 2 <= i < |es|
      ensures WorkingDir(es, i, base, fails) == if fails(base + 1) then [] else [c.appName]
    {
      WorkingDirAfterEntry(es, c.appName, base, fails, i);
    }
  }

  /** After a command and a change into `dir`, followed by commands only, the
      directory is `dir` exactly when that change did not fail. */
  lemma {:induction false} WorkingDirAfterEntry(es: seq<Effect>, dir: string, base: nat, fails: nat -> bool, i: nat)
    requires |es| >= 2 && es[0].Exec? && es[1] == Chdir(dir)
    requires forall j :: 2 <= j < |es| ==> es[j].Exec?
    requires 2 <= i <= |es|
    ensures WorkingDir(es, i, base, fails) == if fails(base + 1) then [] else [dir]
  {
    if i == 2 {
      assert WorkingDir(es, 1, base, fails) == [];
    } else {
      WorkingDirAfterEntry(es, dir, base, fails, i - 1);
    }
  }

  /** A plan whose first step runs one command, whose second changes into `dir` and
      runs one command, and whose later steps stay put, dispatches exactly one
      directory change, second. */
  lemma {:induction false} EnterThenStay(p: seq<Step>, first: string, dir: string, second: string)
    requires |p| >= 2 && p[0].actions == [Shell(first)] && p[1].actions == [Inline(ChangeDir(dir)), Shell(second)]
    requires forall i :: 2 <= i < |p| ==> StaysInDir(p[i])
    ensures var es := PlanEffects(p);
      && |es| >= 2
      && es[0] == Exec(first)
      && es[1] == Chdir(dir)
      && forall i :: 2 <= i < |es| ==> es[i].Exec?
  {
    var rest := PlanEffects(p[2..]);
    assert PlanEffects(p) == StepEffects(p[0].actions) + StepEffects(p[1].actions) + rest by {
      assert p[1..][0] == p[1] && p[1..][1..] == p[2..];
      AppendAssociates(StepEffects(p[0].actions), StepEffects(p[1].actions), rest);
    }
    assert StepEffects(p[0].actions) == [Exec(first)];
    assert StepEffects(p[1].actions) == [Chdir(dir), Exec(second)] by {
      var acts := p[1].actions;
      assert acts[1..] == [acts[1]] && acts[1..][1..] == [];
    }
    forall i | 0 <= i < |p[2..]| ensures StaysInDir(p[2..][i]) {
      assert p[2..][i] == p[i + 2];
    }
    NoChdirAfter(p[2..]);
  }

  /** Steps that stay in the current directory dispatch commands only. */
  lemma {:induction false} NoChdirAfter(steps: seq<Step>)
    requires forall i :: 0 <= i < |steps| ==> StaysInDir(steps[i])
    ensures forall i :: 0 <= i < |PlanEffects(steps)| ==> PlanEffects(steps)[i].Exec?
  {
    if steps != [] {
      assert StaysInDir(steps[0]);
      NoChdirInStep(steps[0].actions);
      NoChdirAfter(steps[1..]);
    }
  }

  lemma {:induction false} NoChdirInStep(actions: seq<Action>)
    requires forall a :: a in actions ==> !ChangesDir(a)
    ensures forall i :: 0 <= i < |StepEffects(actions)| ==> StepEffects(actions)[i].Exec?
  {
    if actions != [] {
      assert actions[0] in actions;
      NoChdirInStep(actions[1..]);
    }
  }

  // ---------------------------------------------------------------------------
  // A fail-fast executor: NOT the behaviour of index.js
  // ---------------------------------------------------------------------------

  /** The effects a fail-fast executor would dispatch from `trace`, the first at
      position `base`: everything up to and including the first failure. index.js
      does not behave so; it dispatches the whole trace. */
  function FailFast(trace: seq<Effect>, base: nat, fails: nat -> bool): (r: seq<Effect>)
    ensures |r| <= |trace| && r == trace[..|r|]
    ensures forall q :: base <= q < base + |r| - 1 ==> !fails(q)
    ensures |r| < |trace| ==> |r| > 0 && fails(base + |r| - 1)
  {
    if trace == [] then []
    else if fails(base) then [trace[0]]
    else
      var rest := FailFast(trace[1..], base + 1, fails);
      assert trace[..|rest| + 1] == [trace[0]] + trace[1..][..|rest|];
      [trace[0]] + rest
  }

  /** If the effect at position q fails, a fail-fast executor dispatches nothing after it. */
  lemma {:induction false} FailFastStopsAtFailure(trace: seq<Effect>, base: nat, fails: nat -> bool, q: nat)
    requires base <= q < base + |trace| && fails(q)
    ensures |FailFast(trace, base, fails)| <= q - base + 1
  {
  }

  /** The run of index.js and a fail-fast run dispatch the same effects exactly when
      nothing but possibly the very last effect fails. */
  lemma {:induction false} FailFastAgreesIffNoEarlyFailure(trace: seq<Effect>, base: nat, fails: nat -> bool)
    ensures FailFast(trace, base, fails) == trace
        <==> forall q :: base <= q < base + |trace| - 1 ==> !fails(q)
  {
  }

  // ---------------------------------------------------------------------------
  // The executor
  // ---------------------------------------------------------------------------

  class Runner {
    /** `let currentStep = 1` (index.js:29), the number of the next header. */
    var currentStep: nat
    /** Lines written to the terminal. */
    var console: seq<Line>
    /** Commands given to execSync and directory changes, in dispatch order. */
    var effects: seq<Effect>
    /** Positions in `effects` whose effect failed and left an unawaited rejected promise. */
    var rejected: seq<nat>

    /** `rejected` lists exactly the failing positions of everything dispatched so
        far; the constructor establishes it whatever the outcomes. */
    ghost predicate Tracks(fails: nat -> bool)
      reads this
    {
      rejected == Failures(0, |effects|, fails)
    }

    constructor ()
      ensures currentStep == 1 && console == [] && effects == [] && rejected == []
      ensures forall fails :: Tracks(fails)
    {
      currentStep := 1;
      console := [];
      effects := [];
      rejected := [];
    }

    /** console.log / console.error of one line. */
    method Log(l: Line)
      modifies this
      ensures console == old(console) + [l]
      ensures currentStep == old(currentStep) && effects == old(effects) && rejected == old(rejected)
    {
      console := console + [l];
    }

    /** Dispatches one effect. A failure is caught and turned into a rejection
        (index.js:13-18); it does not stop anything. */
    method Perform(e: Effect, fails: nat -> bool)
      modifies this
      ensures currentStep == old(currentStep) && console == old(console)
      ensures effects == old(effects) + [e]
      ensures rejected == old(rejected) + Failures(|old(effects)|, |effects|, fails)
    {
      if fails(|effects|) {
        rejected := rejected + [|effects|];
      }
      effects := effects + [e];
    }

    /** executeCmd (index.js:11-20): execSync with inherited stdio. */
    method ExecuteCmd(cmd: string, fails: nat -> bool)
      modifies this
      ensures currentStep == old(currentStep) && console == old(console)
      ensures effects == old(effects) + [Exec(cmd)]
      ensures rejected == old(rejected) + Failures(|old(effects)|, |effects|, fails)
    {
      Perform(Exec(cmd), fails);
    }

    /** Calls one of the plan's closures (index.js:119, index.js:135-140). */
    method Invoke(cb: Callback, fails: nat -> bool)
      modifies this
      ensures currentStep == old(currentStep) && console == old(console)
      ensures effects == old(effects) + CallbackEffects(cb)
      ensures rejected == old(rejected) + Failures(|old(effects)|, |effects|, fails)
    {
      match cb
      case ChangeDir(dir) =>
        Perform(Chdir(dir), fails);
      case SetEslintPackageManager(npm) =>
        if npm {
          ExecuteCmd(EslintNpmCmd, fails);
        }
    }

    /** logStep (index.js:30-40): an optional blank line, the header
        `currentStep/totalSteps text`, the dashed rule; then the counter moves on. */
    method LogStep(text: string, addSpace: bool, totalSteps: nat)
      modifies this
      ensures console == old(console) + StepLines(Label(text, addSpace), old(currentStep), totalSteps)
      ensures currentStep == old(currentStep) + 1
      ensures effects == old(effects) && rejected == old(rejected)
    {
      if addSpace {
        console := console + [Blank];
      }
      console := console + [Header(currentStep, totalSteps, text)];
      console := console + [Rule];
      currentStep := currentStep + 1;
    }

    /** executeStep (index.js:41-48): log the heading, then dispatch the actions in
        array order, strings to the shell and callbacks by calling them. */
    method ExecuteStep(totalSteps: nat, step: Step, fails: nat -> bool)
      modifies this
      ensures currentStep == old(currentStep) + 1
      ensures console == old(console) + StepLines(step.heading, old(currentStep), totalSteps)
      ensures effects == old(effects) + StepEffects(step.actions)
      ensures rejected == old(rejected) + Failures(|old(effects)|, |effects|, fails)
      ensures old(Tracks(fails)) ==> Tracks(fails)
    {
      LogStep(step.heading.text, step.heading.addSpace, totalSteps);
      ghost var step1, con1, eff0, rej0 := currentStep, console, effects, rejected;
      var i := 0;
      while i < |step.actions|
        invariant 0 <= i <= |step.actions|
        invariant currentStep == step1 && console == con1
        invariant effects == eff0 + StepEffects(step.actions[..i])
        invariant rejected == rej0 + Failures(|eff0|, |effects|, fails)
      {
        var a := step.actions[i];
        StepEffectsAdvance(step.actions, i, eff0, effects);
        FailuresAdvance(|eff0|, |effects|, |effects| + |ActionEffects(a)|, fails, rej0, rejected);
        match a {
          case Shell(cmd) => ExecuteCmd(cmd, fails);
          case Inline(cb) => Invoke(cb, fails);
        }
        i := i + 1;
      }
      assert step.actions[..i] == step.actions;
      FailuresSplit(0, |eff0|, |effects|, fails);
    }

    /** The loop of index.js:178-180: every step of the plan, in order, with the
        plan's length as the total. */
    method Run(steps: seq<Step>, fails: nat -> bool)
      requires Tracks(fails)
      modifies this
      ensures currentStep == old(currentStep) + |steps|
      ensures console == old(console) + Transcript(steps, old(currentStep), |steps|)
      ensures effects == old(effects) + PlanEffects(steps)
      ensures Tracks(fails)
    {
      ghost var step0, con0, eff0 := currentStep, console, effects;
      var i := 0;
      while i < |steps|
        invariant 0 <= i <= |steps|
        invariant currentStep == step0 + i
        invariant console == con0 + Transcript(steps[..i], step0, |steps|)
        invariant effects == eff0 + PlanEffects(steps[..i])
        invariant Tracks(fails)
      {
        ghost var con, eff := console, effects;
        ExecuteStep(|steps|, steps[i], fails);
        TranscriptStep(steps, i, step0, con0, con, console);
        PlanEffectsStep(steps, i, eff0, eff, effects);
        i := i + 1;
      }
      RunFinished(steps, step0, con0, console, eff0, effects);
    }
  }
}
