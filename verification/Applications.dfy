/** Starting and stopping a `SIPApplication` from several threads (sipsimple/application.py).
  *
  * The shared `state` and `_stop_pending` are read and written under a lock.  A step is one such block, or one of the
  * unlocked actions between two of them; a run is any interleaving of steps.  A step that cannot happen in a state
  * leaves it as it is. */
module Applications {

  datatype Life = Unborn | Starting | Started | Stopping | Stopped

  /** How far the boot is: loading the configuration, about to run the reactor, leaving without running it, waiting
    * for the engine, leaving once the engine runs, initializing, about to announce the start, done, or over. */
  datatype Stage =
    | Idle | Loading | Booting | Aborting | WaitingForEngine | Cancelling | Initializing | Announcing(stopPending: bool)
    | Running | Over

  /** The engine: not started, starting, up, failed after it reported that it started, or failed to start. */
  datatype Engine = Off | Launching | Up | Lost | Dead

  datatype Step =
    | Start | LoadDone | CheckBeforeReactor | EngineReports | EngineStarted | Initialized | Announce
    | Stop | PostWillEnd | Shutdown | ReactorReturns | EngineFails

  /** `owed` counts the threads that moved the application to stopping and have yet to post the will-end
    * notification, `posted` those that did; `quitting` says that the reactor was told to stop.  `wanted` records
    * that a stop was requested while starting or started. */
  datatype State = State(
    life: Life, stopPending: bool, stage: Stage, engine: Engine, owed: nat, posted: nat, quitting: bool, wanted: bool)

  const INITIAL := State(Unborn, false, Idle, Off, 0, 0, false, false)

  /** The block that moves the application to stopping. */
  function Ending(s: State): State {
    s.(life := Stopping, owed := s.owed + 1)
  }

  /** A call of stop: remembered while starting, carried out when started, and else ignored. */
  function StopRequested(s: State): State {
    match s.life
    case Starting => s.(stopPending := true, wanted := true)
    case Started => Ending(s).(wanted := true)
    case _ => s
  }

  function Do(s: State, step: Step): State {
    match step
    case Start => if s.life == Unborn && s.stage == Idle then s.(life := Starting, stage := Loading) else s
    case LoadDone => if s.stage == Loading then s.(stage := Booting) else s
    case CheckBeforeReactor =>
      if s.stage != Booting then s
      else if s.stopPending then Ending(s).(stage := Aborting)
      else s.(stage := WaitingForEngine, engine := Launching)
    case EngineReports => if s.engine == Launching then s.(engine := Up) else s
    case EngineStarted =>
      if s.stage != WaitingForEngine || !Reported(s) then s
      else if s.stopPending then Ending(s).(stage := Cancelling)
      else s.(stage := Initializing)
    case Initialized =>
      if s.stage == Initializing then s.(life := Started, stage := Announcing(s.stopPending)) else s
    case Announce =>
      if !s.stage.Announcing? then s
      else if s.stage.stopPending then StopRequested(s).(stage := Running)
      else s.(stage := Running)
    case Stop => StopRequested(s)
    case PostWillEnd => if s.owed > 0 then s.(owed := s.owed - 1, posted := s.posted + 1) else s
    case Shutdown => if s.posted > 0 && s.stage != Aborting then s.(quitting := true) else s
    case ReactorReturns =>
      if (s.stage == Aborting && s.owed == 0) || (s.quitting && s.stage != Over) then s.(life := Stopped, stage := Over)
      else s
    case EngineFails =>
      if s.engine != Launching && s.engine != Up then s
      else
        var failed := s.(engine := if s.engine == Launching then Dead else Lost);
        if InReactor(s) && s.life != Stopping then Ending(failed) else failed
  }

  /** The engine reported that it started, whatever became of it. */
  predicate Reported(s: State) {
    s.engine == Up || s.engine == Lost
  }

  /** The stages in which the reactor runs, and with it the handler of engine failures. */
  predicate InReactor(s: State) {
    s.stage.WaitingForEngine? || s.stage.Cancelling? || s.stage.Initializing? || s.stage.Announcing? || s.stage.Running?
  }

  /** The stages whose next locked block still writes the state or reads the pending stop. */
  predicate BootUnderWay(s: State) {
    s.stage.WaitingForEngine? || s.stage.Initializing?
  }

  ghost function Run(s: State, steps: seq<Step>): State
    decreases |steps|
  {
    if steps == [] then s else Run(Do(s, steps[0]), steps[1..])
  }

  // ------------------------------------------------------------------ what every run keeps

  function Rank(life: Life): nat {
    match life
    case Unborn => 0
    case Starting => 1
    case Started => 2
    case Stopping => 3
    case Stopped => 4
  }

  ghost predicate Inv(s: State) {
    // the boot and the state agree
    && (s.stage == Idle <==> s.life == Unborn)
    && (s.stage == Over <==> s.life == Stopped)
    && (s.stage.Loading? || s.stage.Booting? || s.stage.Initializing? ==> s.life == Starting)
    && (s.stage.WaitingForEngine? ==> s.life == if s.engine == Dead then Stopping else Starting)
    && (s.stage.Aborting? || s.stage.Cancelling? ==> s.life == Stopping)
    && (s.stage.Announcing? || s.stage.Running? ==> s.life == Started || s.life == Stopping)
    // the engine is started by the boot, and nothing goes on before it has reported
    && (s.stage.Idle? || s.stage.Loading? || s.stage.Booting? || s.stage.Aborting? ==> s.engine == Off)
    && (s.stage.WaitingForEngine? ==> s.engine == Launching || s.engine == Up || s.engine == Dead)
    && (s.stage.Initializing? ==> s.engine == Up)
    && (s.stage.Cancelling? || s.stage.Announcing? || s.stage.Running? ==> Reported(s))
    // the end is announced once, by the thread that began it, before the application is stopped
    && s.owed + s.posted == (if Rank(s.life) >= 3 then 1 else 0)
    && (s.quitting || s.life == Stopped ==> s.posted == 1)
    // a stop request is carried out or still waits for a block that reads it
    && (s.stopPending ==> s.wanted)
    && (s.wanted ==>
         || Rank(s.life) >= 3
         || (s.life == Starting && s.stopPending)
         || s.stage == Announcing(true))
  }

  lemma StepKeeps(s: State, step: Step)
    requires Inv(s)
    requires step == EngineFails ==> !FailsInBoot(s)
    ensures Inv(Do(s, step))
    ensures Rank(s.life) <= Rank(Do(s, step).life)
    ensures s.wanted ==> Do(s, step).wanted
    ensures step == Stop && (s.life == Starting || s.life == Started) ==> Do(s, step).wanted
  {
  }

  /** An engine failure would come between the report that the engine started and the end of the boot. */
  predicate FailsInBoot(s: State) {
    BootUnderWay(s) && s.engine == Up
  }

  /** The engine may fail to start, or fail later on, but not in between. */
  ghost predicate Healthy(s: State, steps: seq<Step>)
    decreases |steps|
  {
    steps == [] || ((steps[0] == EngineFails ==> !FailsInBoot(s)) && Healthy(Do(s, steps[0]), steps[1..]))
  }

  lemma {:induction false} RunKeeps(s: State, steps: seq<Step>)
    requires Inv(s) && Healthy(s, steps)
    ensures Inv(Run(s, steps))
    ensures Rank(s.life) <= Rank(Run(s, steps).life)
    ensures s.wanted ==> Run(s, steps).wanted
    decreases |steps|
  {
    hide Inv, Do;
    if steps != [] {
      StepKeeps(s, steps[0]);
      RunKeeps(Do(s, steps[0]), steps[1..]);
    }
  }

  lemma {:induction false} RunAppends(s: State, a: seq<Step>, b: seq<Step>)
    ensures Run(s, a + b) == Run(Run(s, a), b)
    ensures Healthy(s, a + b) <==> Healthy(s, a) && Healthy(Run(s, a), b)
    decreases |a|
  {
    hide Do;
    if a == [] {
      assert a + b == b;
    } else {
      RunAppends(Do(s, a[0]), a[1..], b);
      assert (a + b)[1..] == a[1..] + b;
    }
  }

  /** The steps left to the boot, when the engine reports that it started and when it fails to. */
  ghost function BootSteps(s: State, up: bool): seq<Step> {
    match s.stage
    case Loading => [LoadDone, CheckBeforeReactor] + EngineSteps(up)
    case Booting => [CheckBeforeReactor] + EngineSteps(up)
    case WaitingForEngine =>
      if s.engine == Launching then EngineSteps(up)
      else if s.engine == Up then [EngineStarted, Initialized, Announce]
      else []
    case Initializing => [Initialized, Announce]
    case Announcing(_) => [Announce]
    case _ => []
  }

  ghost function EngineSteps(up: bool): seq<Step> {
    if up then [EngineReports, EngineStarted, Initialized, Announce] else [EngineFails]
  }

  /** The steps left once the application is stopping. */
  const END_STEPS := [PostWillEnd, Shutdown, ReactorReturns]

  lemma RunThree(s: State, a: Step, b: Step, c: Step)
    ensures Run(s, [a, b, c]) == Do(Do(Do(s, a), b), c)
  {
    hide Do;
    RunAppends(s, [a], [b, c]);
    RunAppends(Do(s, a), [b], [c]);
    assert [a] + [b, c] == [a, b, c] && [b] + [c] == [b, c];
    assert [a][1..] == [] && [b][1..] == [] && [c][1..] == [];
  }

  /** An application that is stopping comes to its end: it is stopped, and its end was announced once. */
  lemma StoppingEnds(s: State)
    requires Inv(s) && Rank(s.life) >= 3
    ensures var done := Run(s, END_STEPS);
            Inv(done) && done.life == Stopped && done.posted == 1 && done.owed == 0
  {
    RunThree(s, PostWillEnd, Shutdown, ReactorReturns);
    hide Run;
    StepKeeps(s, PostWillEnd);
    StepKeeps(Do(s, PostWillEnd), Shutdown);
    StepKeeps(Do(Do(s, PostWillEnd), Shutdown), ReactorReturns);
  }

  /** Stop requests are never lost: after any run that requested one while starting or started, whatever came before,
    * between or after, finishing the boot finds the application stopping or stopped, and it comes to its end with
    * that announced once. */
  lemma NoStopIsLost(before: seq<Step>, after: seq<Step>, up: bool)
    requires Healthy(INITIAL, before + [Stop] + after)
    requires Run(INITIAL, before).life == Starting || Run(INITIAL, before).life == Started
    ensures var s := Run(INITIAL, before + [Stop] + after);
            var done := Run(s, BootSteps(s, up));
            && Rank(done.life) >= 3 && done.owed + done.posted == 1
            && Run(done, END_STEPS).life == Stopped && Run(done, END_STEPS).posted == 1
  {
    var requested := before + [Stop];
    RunAppends(INITIAL, requested, after);
    RunAppends(INITIAL, before, [Stop]);
    RunKeeps(INITIAL, before);
    var r := Run(INITIAL, before);
    assert Run(r, [Stop]) == Do(r, Stop) && Healthy(r, [Stop]) by {
      assert [Stop][1..] == [];
    }
    StepKeeps(r, Stop);
    RunKeeps(Do(r, Stop), after);
    var s := Run(Do(r, Stop), after);
    BootEnds(s, up);
    StoppingEnds(Run(s, BootSteps(s, up)));
  }

  lemma BootEnds(s: State, up: bool)
    requires Inv(s) && s.wanted
    ensures var done := Run(s, BootSteps(s, up));
            Inv(done) && Rank(done.life) >= 3 && done.owed + done.posted == 1
    decreases |BootSteps(s, up)|
  {
    var steps := BootSteps(s, up);
    if steps != [] {
      var next := Do(s, steps[0]);
      BootGoesOn(s, up);
      if next.stage == Aborting || next.stage == Cancelling {
        NothingMore(next, steps[1..]);
      } else {
        BootEnds(next, up);
      }
    }
  }

  /** The first step left to the boot leaves the others, unless the boot gives up or is done. */
  lemma BootGoesOn(s: State, up: bool)
    requires Inv(s) && s.wanted && BootSteps(s, up) != []
    ensures var next := Do(s, BootSteps(s, up)[0]);
            && Inv(next) && next.wanted
            && (next.stage == Cancelling ==> BootSteps(s, up)[1..] == [Initialized, Announce])
            && (next.stage == Aborting || next.stage == Cancelling || BootSteps(next, up) == BootSteps(s, up)[1..])
    ensures forall i :: 0 <= i < |BootSteps(s, up)| ==> BootSteps(s, up)[i] in BOOT_STEPS
  {
    StepKeeps(s, BootSteps(s, up)[0]);
  }

  const BOOT_STEPS := {LoadDone, CheckBeforeReactor, EngineReports, EngineStarted, Initialized, Announce, EngineFails}

  /** Once the boot has given up, its later steps do nothing. */
  lemma {:induction false} NothingMore(s: State, steps: seq<Step>)
    requires (s.stage == Aborting && s.engine == Off) || s.stage == Cancelling
    requires forall i :: 0 <= i < |steps| ==> steps[i] in BOOT_STEPS
    requires s.stage == Cancelling ==> forall i :: 0 <= i < |steps| ==> steps[i] == Initialized || steps[i] == Announce
    ensures Run(s, steps) == s
    decreases |steps|
  {
    if steps != [] {
      assert Do(s, steps[0]) == s;
      NothingMore(s, steps[1..]);
    }
  }

  /** Nobody asked for a stop. */
  ghost predicate Unasked(s: State) {
    !s.wanted && !s.stopPending && s.stage != Announcing(true)
  }

  lemma {:induction false} RunUnasked(s: State, steps: seq<Step>)
    requires Unasked(s) && Stop !in steps
    ensures Unasked(Run(s, steps))
    decreases |steps|
  {
    if steps != [] {
      assert steps[0] in steps && Unasked(Do(s, steps[0]));
      hide Do, Unasked;
      RunUnasked(Do(s, steps[0]), steps[1..]);
    }
  }

  /** An application that was never started begins to start, and one that was started before stays as it is. */
  lemma StartBegins(s: State)
    requires Inv(s)
    ensures s.life == Unborn ==> Do(s, Start).life == Starting && Do(s, Start).stage == Loading
    ensures s.life != Unborn ==> Do(s, Start) == s
  {
  }

  /** After any run without a stop that finds the application starting, finishing the boot finds it started, with the
    * engine up and no end announced. */
  lemma BootStarts(before: seq<Step>)
    requires Healthy(INITIAL, before) && Stop !in before && Run(INITIAL, before).life == Starting
    ensures var s := Run(INITIAL, before);
            var done := Run(s, BootSteps(s, true));
            && done.life == Started && done.stage == Running && done.engine == Up
            && done.owed == 0 && done.posted == 0 && !done.quitting
  {
    RunKeeps(INITIAL, before);
    RunUnasked(INITIAL, before);
    BootCompletes(Run(INITIAL, before));
  }

  /** Starting, or started and about to announce it. */
  ghost predicate IsBooting(s: State) {
    s.life == Starting || (s.stage.Announcing? && s.life == Started && s.engine == Up)
  }

  lemma BootCompletes(s: State)
    requires Inv(s) && Unasked(s) && IsBooting(s)
    ensures var done := Run(s, BootSteps(s, true));
            && done.life == Started && done.stage == Running && done.engine == Up
            && done.owed == 0 && done.posted == 0 && !done.quitting
    decreases |BootSteps(s, true)|
  {
    BootAdvances(s);
    var steps := BootSteps(s, true);
    var next := Do(s, steps[0]);
    assert Run(s, steps) == Run(next, steps[1..]);
    if next.stage == Running {
      assert steps[1..] == [];
    } else {
      BootCompletes(next);
    }
  }

  /** The first step left to a boot that nobody stops goes on with it. */
  lemma BootAdvances(s: State)
    requires Inv(s) && Unasked(s) && IsBooting(s)
    ensures BootSteps(s, true) != []
    ensures var next := Do(s, BootSteps(s, true)[0]);
            && Inv(next) && Unasked(next)
            && BootSteps(next, true) == BootSteps(s, true)[1..]
            && (next.stage == Running ==> BootSteps(s, true)[1..] == [] && next.life == Started && next.engine == Up)
            && (next.stage != Running ==> IsBooting(next))
  {
    StepKeeps(s, BootSteps(s, true)[0]);
  }

  /** A started application that is asked to stop comes to its end, and its end is announced once. */
  lemma StopEnds(s: State)
    requires Inv(s) && s.life == Started
    ensures var asked := Do(s, Stop);
            && asked.life == Stopping && asked.owed == 1
            && var done := Run(asked, END_STEPS);
            done.life == Stopped && done.posted == 1 && done.owed == 0
  {
    StepKeeps(s, Stop);
    StoppingEnds(Do(s, Stop));
    hide Run;
  }

  /** So does one whose engine fails while it runs. */
  lemma FailureEnds(s: State)
    requires Inv(s) && s.stage == Running && s.life == Started && s.engine == Up
    ensures var failed := Do(s, EngineFails);
            && failed.life == Stopping && failed.engine == Lost
            && var done := Run(failed, END_STEPS);
            done.life == Stopped && done.posted == 1 && done.owed == 0
  {
    StepKeeps(s, EngineFails);
    StoppingEnds(Do(s, EngineFails));
    hide Run;
  }

  /** On every run the state only moves forward, the end is announced at most once, and it has been once the
    * application is stopped. */
  lemma EveryRun(steps: seq<Step>, more: seq<Step>)
    requires Healthy(INITIAL, steps + more)
    ensures Rank(Run(INITIAL, steps).life) <= Rank(Run(INITIAL, steps + more).life)
    ensures Run(INITIAL, steps + more).posted <= 1
    ensures Run(INITIAL, steps + more).life == Stopped ==> Run(INITIAL, steps + more).posted == 1
  {
    RunAppends(INITIAL, steps, more);
    RunKeeps(INITIAL, steps);
    RunKeeps(Run(INITIAL, steps), more);
  }

  /** An engine that fails to start ends the application: the end is announced once and the reactor returns. */
  lemma EngineNeverStarts(s: State)
    requires Inv(s) && s.stage == WaitingForEngine && s.engine == Launching
    ensures var failed := Do(s, EngineFails);
            && Inv(failed) && Do(failed, EngineStarted) == failed && Do(failed, EngineReports) == failed
            && var done := Do(Do(Do(failed, PostWillEnd), Shutdown), ReactorReturns);
            done.life == Stopped && done.posted == 1 && done.owed == 0
  {
  }

  /** The condition on engine failures is needed, in every state it rules out: the boot then moves the application
    * from stopping back to started, or announces the end a second time. */
  lemma FailureDuringBoot(s: State)
    requires Inv(s) && FailsInBoot(s)
    ensures var failed := Do(s, EngineFails);
            && failed.life == Stopping
            && (s.stage == Initializing ==> Do(failed, Initialized).life == Started)
            && (s.stage == WaitingForEngine && !s.stopPending ==>
                Do(Do(failed, EngineStarted), Initialized).life == Started)
            && (s.stage == WaitingForEngine && s.stopPending ==>
                 Do(failed, EngineStarted).owed + Do(failed, EngineStarted).posted == 2)
  {
  }

  // ------------------------------------------------------------------ the application

  class Application {
    var life: Life
    var stopPending: bool
    var stage: Stage
    var engine: Engine
    var quitting: bool
    var owed: nat
    ghost var posted: nat
    ghost var wanted: bool

    ghost function View(): State
      reads this
    {
      State(life, stopPending, stage, engine, owed, posted, quitting, wanted)
    }

    constructor ()
      ensures View() == INITIAL
    {
      life, stopPending, stage, engine, quitting := Unborn, false, Idle, Off, false;
      owed, posted, wanted := 0, 0, false;
    }

    /** `done` is false when this is an error, because the application was started before. */
    method Start() returns (done: bool)
      modifies this
      ensures done == (old(life) == Unborn && old(stage) == Idle)
      ensures View() == Do(old(View()), Step.Start)
    {
      if life != Unborn || stage != Idle {
        return false;
      }
      life := Starting;
      stage := Loading;
      return true;
    }

    /** The locked block of `stop`; the caller owes the notification when it returns true. */
    method Stop() returns (ending: bool)
      modifies this
      ensures ending == (old(life) == Started)
      ensures View() == Do(old(View()), Step.Stop)
    {
      if life == Unborn || life == Stopping || life == Stopped {
        return false;
      }
      wanted := true;
      if life == Starting {
        stopPending := true;
        return false;
      }
      life := Stopping;
      owed := owed + 1;
      return true;
    }

    method FinishLoading()
      modifies this
      ensures View() == Do(old(View()), LoadDone)
    {
      if stage == Loading {
        stage := Booting;
      }
    }

    /** The first locked block of `_run_reactor`, and the choice that follows. */
    method EnterReactor()
      modifies this
      ensures View() == Do(old(View()), CheckBeforeReactor)
    {
      if stage == Booting {
        if stopPending {
          life := Stopping;
          owed := owed + 1;
          stage := Aborting;
        } else {
          stage := WaitingForEngine;
          engine := Launching;
        }
      }
    }

    /** The engine reports that it started, which will lead to the next block. */
    method EngineIsUp()
      modifies this
      ensures View() == Do(old(View()), EngineReports)
    {
      if engine == Launching {
        engine := Up;
      }
    }

    /** The first locked block of `_initialize_subsystems`. */
    method EngineDidStart()
      modifies this
      ensures View() == Do(old(View()), EngineStarted)
    {
      if stage == WaitingForEngine && (engine == Up || engine == Lost) {
        if stopPending {
          life := Stopping;
          owed := owed + 1;
          stage := Cancelling;
        } else {
          stage := Initializing;
        }
      }
    }

    /** Its last locked block. */
    method FinishInitializing()
      modifies this
      ensures View() == Do(old(View()), Initialized)
    {
      if stage == Initializing {
        life := Started;
        stage := Announcing(stopPending);
      }
    }

    /** The start is announced, and a stop that came during it is carried out. */
    method AnnounceStart()
      modifies this
      ensures View() == Do(old(View()), Announce)
    {
      if stage.Announcing? {
        var pending := stage.stopPending;
        stage := Running;
        if pending {
          var ending := Stop();
        }
      }
    }

    /** The reactor has returned, or was never run. */
    method LeaveReactor()
      modifies this
      ensures View() == Do(old(View()), ReactorReturns)
    {
      if (stage == Aborting && owed == 0) || (quitting && stage != Over) {
        life := Stopped;
        stage := Over;
      }
    }

    method EngineDidFail()
      modifies this
      ensures View() == Do(old(View()), EngineFails)
    {
      if engine != Launching && engine != Up {
        return;
      }
      engine := if engine == Launching then Dead else Lost;
      if stage.WaitingForEngine? || stage.Cancelling? || stage.Initializing? || stage.Announcing? || stage.Running? {
        if life == Stopping {
          return;
        }
        life := Stopping;
        owed := owed + 1;
      }
    }
  }
}
