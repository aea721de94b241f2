/** The command queue, worker and retry timer of a `Subscriber` (sipsimple/account/subscription.py).
  *
  * Green threads interleave only where they wait, so each stretch of code between two waits is one step.  Routes, SIP
  * answers and the clock decide which step comes next; a run is any sequence of steps.  A step that cannot happen in
  * a state leaves the state as it is.  */
module Subscribers {
  import opened Wrappers

  datatype Command = Subscribe | Unsubscribe | Terminate

  /** What the subscription thread is doing: trying routes, subscribed, or waiting for the end it asked for. */
  datatype Phase = Trying | Subscribed | Ending

  datatype Step =
    | Start | Stop | Activate | Deactivate | Resubscribe
    | Take | Resume
    | WorkerSubscribes | WorkerFails | WorkerEnds | WorkerEnding | WorkerKilled
    | TimerFires(timer: nat)

  /** `busy` is the command whose handler waits for the subscription thread it killed to end; `timers` are the calls
    * the reactor still holds and `current` the one the subscriber knows.  `late` records that,
    * since there was last no timer, a thread failed of itself after it was killed and before the kill reached it. */
  datatype State = State(
    started: bool, active: bool, looping: bool, queue: seq<Command>, busy: Option<Command>, worker: Option<Phase>,
    timers: set<nat>, current: Option<nat>, made: nat, late: bool)

  const INITIAL := State(false, false, false, [], None, None, {}, None, 0, false)

  // ------------------------------------------------------------------ the steps, on values

  function WithTimers(s: State, timers: set<nat>): State {
    s.(timers := timers, current := None, late := s.late && timers != {})
  }

  function Cancelled(s: State): State {
    WithTimers(s, if s.current.Some? then s.timers - {s.current.value} else s.timers)
  }

  /** The handler of a command, once no subscription thread is left. */
  function Finished(s: State, command: Command): State {
    match command
    case Subscribe => s.(busy := None, worker := Some(Trying))
    case Unsubscribe => s.(busy := None)
    case Terminate => s.(busy := None, looping := false)
  }

  function Sent(s: State, command: Command): State {
    s.(queue := s.queue + [command])
  }

  function Do(s: State, step: Step): State {
    match step
    case Start => if s.started || s.looping then s else s.(started := true, looping := true)
    case Stop => if !s.started then s else Sent(s.(started := false, active := false), Terminate)
    case Activate => if !s.started then s else Sent(s.(active := true), Subscribe)
    case Deactivate => if !s.started then s else Sent(s.(active := false), Unsubscribe)
    case Resubscribe => if s.active then Sent(s, Subscribe) else s
    case Take =>
      if !s.looping || s.busy.Some? || s.queue == [] then s
      else
        var taken := Cancelled(s.(queue := s.queue[1..]));
        if s.worker.Some? then taken.(busy := Some(s.queue[0])) else Finished(taken, s.queue[0])
    case Resume => if s.busy.Some? && s.worker.None? then Finished(s, s.busy.value) else s
    case WorkerSubscribes => if s.worker == Some(Trying) then s.(worker := Some(Subscribed)) else s
    case WorkerFails =>
      if s.worker == Some(Trying) then
        s.(worker := None, timers := s.timers + {s.made}, current := Some(s.made), made := s.made + 1,
           late := s.late || s.busy.Some?)
      else s
    case WorkerEnds =>
      if s.worker != Some(Subscribed) then s
      else if s.active then Sent(s.(worker := None), Subscribe)
      else s.(worker := None)
    case WorkerEnding =>
      if s.worker.Some? && s.busy.Some? && s.busy.value != Subscribe then s.(worker := Some(Ending)) else s
    case WorkerKilled => if s.busy.Some? then s.(worker := None) else s
    case TimerFires(timer) =>
      if timer !in s.timers then s
      else
        var fired := WithTimers(s, s.timers - {timer});
        if s.active then Sent(fired, Subscribe) else fired
  }

  ghost function Run(s: State, steps: seq<Step>): State
    decreases |steps|
  {
    if steps == [] then s else Run(Do(s, steps[0]), steps[1..])
  }

  // ------------------------------------------------------------------ what every run keeps

  /** The command being handled and those queued behind it. */
  function Commands(s: State): seq<Command> {
    (if s.busy.Some? then [s.busy.value] else []) + s.queue
  }

  function LastCommand(s: State): Option<Command> {
    var commands := Commands(s);
    if commands == [] then None else Some(commands[|commands| - 1])
  }

  /** While active: the last command is a subscribe, so every cancel before it is followed by a restart; and with no
    * command left there is a subscription thread or a retry timer. */
  ghost predicate Remembers(s: State) {
    match LastCommand(s)
    case None => s.worker.Some? || s.timers != {}
    case Some(last) => last == Subscribe
  }

  /** While not active: the last command is a cancel, and with no command left there is no subscription thread and,
    * unless one failed late, no timer. */
  ghost predicate Rests(s: State) {
    match LastCommand(s)
    case None => s.worker.None? && (!s.late ==> s.timers == {})
    case Some(last) => last != Subscribe
  }

  /** Unless a thread failed late, the only timer is the one the subscriber knows, and only when no thread is left. */
  ghost predicate TimersKnown(s: State) {
    && (forall t :: t in s.timers ==> t < s.made)
    && (s.current.Some? ==> s.current.value in s.timers)
    && (s.late ==> s.timers != {})
    && (!s.late ==>
         && (forall t :: t in s.timers ==> s.current == Some(t))
         && (s.worker.Some? || s.busy.Some? ==> s.timers == {}))
  }

  /** Stopping is the last command of a started subscriber, and the loop ends with it. */
  ghost predicate LoopKnown(s: State) {
    && (s.started ==> s.looping)
    && (forall i :: 0 <= i < |Commands(s)| - 1 ==> Commands(s)[i] != Terminate)
    && (s.looping && !s.started <==> LastCommand(s) == Some(Terminate))
    && (!s.looping ==> Commands(s) == [] && s.worker.None?)
  }

  ghost predicate Inv(s: State) {
    && (if s.active then Remembers(s) else Rests(s))
    && (s.active ==> s.started)
    && LoopKnown(s)
    && TimersKnown(s)
  }

  lemma SendKeeps(s: State, command: Command)
    requires LoopKnown(s) && TimersKnown(s) && s.started
    requires command == Subscribe <==> s.active
    requires command != Terminate
    ensures Inv(Sent(s, command))
  {
    var after := Sent(s, command);
    assert Commands(after) == Commands(s) + [command];
  }

  lemma SwitchKeeps(s: State, active: bool)
    requires LoopKnown(s) && TimersKnown(s)
    ensures LoopKnown(s.(active := active)) && TimersKnown(s.(active := active))
  {
    assert Commands(s.(active := active)) == Commands(s);
  }

  lemma StopKeeps(s: State)
    requires Inv(s)
    ensures Inv(Do(s, Stop))
  {
    if s.started {
      var after := Do(s, Stop);
      assert Commands(after) == Commands(s) + [Terminate];
    }
  }

  /** Handling the command at the head of the list leaves the rest of it. */
  lemma FinishKeeps(s: State)
    requires Inv(s) && s.busy.Some? && s.worker.None?
    ensures Inv(Finished(s, s.busy.value))
  {
    var after := Finished(s, s.busy.value);
    assert Commands(s) == [s.busy.value] + s.queue;
    assert Commands(after) == s.queue;
    FinishKeepsLoop(s);
    if s.queue != [] {
      assert LastCommand(after) == LastCommand(s);
    } else {
      assert LastCommand(s) == Some(s.busy.value);
    }
  }

  lemma FinishKeepsLoop(s: State)
    requires LoopKnown(s) && s.busy.Some? && s.worker.None?
    ensures LoopKnown(Finished(s, s.busy.value))
  {
    var before, after := Commands(s), Finished(s, s.busy.value);
    CommandsAre(s);
    CommandsAre(after);
    hide Commands;
    assert forall i :: 0 <= i < |s.queue| ==> s.queue[i] == before[i + 1];
    assert before[0] == s.busy.value;
  }

  lemma TakeKeeps(s: State)
    requires Inv(s)
    ensures Inv(Do(s, Take))
  {
    if s.looping && s.busy.None? && s.queue != [] {
      var taken := Cancelled(s.(queue := s.queue[1..]));
      var held := taken.(busy := Some(s.queue[0]));
      assert Commands(held) == Commands(s);
      assert Inv(held);
      if s.worker.None? {
        FinishKeeps(held);
        assert Finished(held, s.queue[0]) == Finished(taken, s.queue[0]);
      }
    }
  }

  lemma WorkerKeeps(s: State, step: Step)
    requires Inv(s) && (step.WorkerSubscribes? || step.WorkerFails? || step.WorkerEnding? || step.WorkerKilled?)
    ensures Inv(Do(s, step))
  {
    var after := Do(s, step);
    assert Commands(after) == Commands(s);
  }

  lemma TimerKeeps(s: State, timer: nat)
    requires Inv(s)
    ensures Inv(Do(s, TimerFires(timer)))
  {
    if timer in s.timers {
      var fired := WithTimers(s, s.timers - {timer});
      assert Commands(fired) == Commands(s);
      if s.active {
        SendKeeps(fired, Subscribe);
      }
    }
  }

  lemma StartKeeps(s: State)
    requires Inv(s)
    ensures Inv(Do(s, Start))
  {
  }

  lemma EndKeeps(s: State)
    requires Inv(s)
    ensures Inv(Do(s, WorkerEnds))
  {
    if s.worker == Some(Subscribed) {
      var ended := s.(worker := None);
      assert Commands(ended) == Commands(s);
      if s.active {
        SendKeeps(ended, Subscribe);
      }
    }
  }

  lemma StepKeeps(s: State, step: Step)
    requires Inv(s)
    ensures Inv(Do(s, step))
  {
    hide Remembers, Rests, Sent, Commands, LastCommand;
    match step
    case Start => StartKeeps(s);
    case Stop => StopKeeps(s);
    case Activate => if s.started { SwitchKeeps(s, true); SendKeeps(s.(active := true), Subscribe); }
    case Deactivate => if s.started { SwitchKeeps(s, false); SendKeeps(s.(active := false), Unsubscribe); }
    case Resubscribe => if s.active { SendKeeps(s, Subscribe); }
    case Take => TakeKeeps(s);
    case Resume => if s.busy.Some? && s.worker.None? { FinishKeeps(s); }
    case WorkerEnds => EndKeeps(s);
    case TimerFires(timer) => TimerKeeps(s, timer);
    case _ => WorkerKeeps(s, step);
  }

  lemma {:induction false} RunKeeps(s: State, steps: seq<Step>)
    requires Inv(s)
    ensures Inv(Run(s, steps))
    decreases |steps|
  {
    hide Inv, Do;
    if steps != [] {
      StepKeeps(s, steps[0]);
      RunKeeps(Do(s, steps[0]), steps[1..]);
    }
  }

  // ------------------------------------------------------------------ what follows for every run

  lemma {:induction false} RunLast(s: State, steps: seq<Step>, last: Step)
    ensures Run(s, steps + [last]) == Do(Run(s, steps), last)
    decreases |steps|
  {
    hide Do;
    if steps == [] {
      RunFirst(s, last, []);
      assert [] + [last] == [last] + [];
    } else {
      RunLast(Do(s, steps[0]), steps[1..], last);
      assert (steps + [last])[1..] == steps[1..] + [last];
    }
  }

  /** A thread failed of itself after it was killed and before the kill reached it, and there was always a timer
    * since. */
  ghost predicate LateFailure(steps: seq<Step>) {
    exists i :: 0 <= i < |steps| && FailsLate(Run(INITIAL, steps[..i]), steps[i]) && TimersSince(steps, i + 1)
  }

  ghost predicate FailsLate(s: State, step: Step) {
    step == WorkerFails && s.busy.Some? && s.worker == Some(Trying)
  }

  ghost predicate TimersSince(steps: seq<Step>, from: nat) {
    forall j :: from <= j <= |steps| ==> Run(INITIAL, steps[..j]).timers != {}
  }

  lemma {:induction false} LateIsFailure(steps: seq<Step>)
    requires Run(INITIAL, steps).late
    ensures LateFailure(steps)
    decreases |steps|
  {
    hide Do;
    assert steps != [];
    var most, last := steps[..|steps| - 1], steps[|steps| - 1];
    assert steps == most + [last];
    RunLast(INITIAL, most, last);
    RunKeeps(INITIAL, steps);
    assert Run(INITIAL, steps).timers != {};
    assert forall i :: 0 <= i <= |most| ==> steps[..i] == most[..i];
    assert steps[..|steps|] == steps;
    LateStep(Run(INITIAL, most), last);
    if FailsLate(Run(INITIAL, most), last) {
      assert most == steps[..|most|];
      assert TimersSince(steps, |most| + 1);
      assert FailsLate(Run(INITIAL, steps[..|most|]), steps[|most|]);
    } else {
      LateIsFailure(most);
      var i :| 0 <= i < |most| && FailsLate(Run(INITIAL, most[..i]), most[i]) && TimersSince(most, i + 1);
      forall j | i + 1 <= j <= |steps| ensures Run(INITIAL, steps[..j]).timers != {} {
        if j <= |most| {
          assert Run(INITIAL, most[..j]).timers != {};
        }
      }
      assert FailsLate(Run(INITIAL, steps[..i]), steps[i]);
    }
  }

  lemma LateStep(s: State, step: Step)
    requires Do(s, step).late
    ensures s.late || FailsLate(s, step)
  {
  }

  /** A subscriber never forgets and never resurrects: while active, a subscribe is under way or queued behind every
    * cancel, or a thread or timer is there; once inactive with all commands handled, no thread is left, and no timer
    * either unless a thread failed after it was killed. */
  lemma EveryRun(steps: seq<Step>)
    ensures var s := Run(INITIAL, steps);
            && (s.active && Commands(s) == [] ==> s.worker.Some? || s.timers != {})
            && (s.active && Commands(s) != [] ==> LastCommand(s) == Some(Subscribe))
            && (!s.active && Commands(s) == [] ==> s.worker.None? && (s.timers != {} ==> LateFailure(steps)))
            && (!s.active && Commands(s) != [] ==> LastCommand(s) != Some(Subscribe))
  {
    RunKeeps(INITIAL, steps);
    if Run(INITIAL, steps).late {
      LateIsFailure(steps);
    }
    hide LateFailure;
  }

  /** A thread that fails while it is being killed does leave a timer behind. */
  lemma LateFailureLeavesTimer()
    ensures var s := Run(INITIAL, [Start, Activate, Take, Deactivate, Take, WorkerFails, Resume]);
            !s.active && Commands(s) == [] && s.worker.None? && s.timers == {0}
  {
    var subscribing := State(true, true, true, [], None, Some(Trying), {}, None, 0, false);
    assert Run(INITIAL, [Start, Activate, Take]) == subscribing by {
      RunLast(INITIAL, [], Start);
      RunLast(INITIAL, [Start], Activate);
      RunLast(INITIAL, [Start, Activate], Take);
    }
    var killed := State(true, false, true, [], Some(Unsubscribe), Some(Trying), {}, None, 0, false);
    assert Run(INITIAL, [Start, Activate, Take, Deactivate, Take]) == killed by {
      RunLast(INITIAL, [Start, Activate, Take], Deactivate);
      RunLast(INITIAL, [Start, Activate, Take, Deactivate], Take);
    }
    RunLast(INITIAL, [Start, Activate, Take, Deactivate, Take], WorkerFails);
    RunLast(INITIAL, [Start, Activate, Take, Deactivate, Take, WorkerFails], Resume);
  }

  lemma RunFirst(s: State, first: Step, rest: seq<Step>)
    ensures Run(s, [first] + rest) == Run(Do(s, first), rest)
  {
    hide Do;
    assert ([first] + rest)[1..] == rest;
  }

  /** No subscription thread, and nothing that would start one. */
  ghost predicate Quiet(s: State) {
    !s.active && s.worker.None? && forall i :: 0 <= i < |Commands(s)| ==> Commands(s)[i] != Subscribe
  }

  /** Taking a command leaves it at the head of the list when there is a thread to wait for, and else handles it. */
  lemma TakeHandles(s: State)
    requires s.looping && s.busy.None? && s.queue != []
    ensures s.worker.Some? ==> Commands(Do(s, Take)) == Commands(s)
    ensures s.worker.None? ==> Commands(Do(s, Take)) == Commands(s)[1..]
    ensures s.worker.None? ==> Do(s, Take).worker == if Commands(s)[0] == Subscribe then Some(Trying) else None
  {
    var after := Do(s, Take);
    assert after.queue == s.queue[1..];
    assert after.busy == if s.worker.Some? then Some(s.queue[0]) else None;
    assert s.worker.None? ==> after.worker == if s.queue[0] == Subscribe then Some(Trying) else None;
    hide Do;
    CommandsAre(s);
    CommandsAre(after);
    hide Commands;
  }

  lemma CommandsAre(s: State)
    ensures s.busy.None? ==> Commands(s) == s.queue
    ensures s.busy.Some? ==> Commands(s) == [s.busy.value] + s.queue
  {
  }

  lemma ResumeHandles(s: State)
    requires s.busy.Some? && s.worker.None?
    ensures Commands(Do(s, Resume)) == Commands(s)[1..]
    ensures Do(s, Resume).worker == if Commands(s)[0] == Subscribe then Some(Trying) else None
  {
    assert Commands(s) == [s.busy.value] + s.queue;
  }

  lemma QuietStep(s: State, step: Step)
    requires Quiet(s) && step != Activate
    ensures Quiet(Do(s, step))
  {
    var before, after := Commands(s), Commands(Do(s, step));
    if step == Take && s.looping && s.busy.None? && s.queue != [] {
      TakeHandles(s);
    } else if step == Resume && s.busy.Some? {
      ResumeHandles(s);
    } else {
      assert after == before || after == before + [Terminate] || after == before + [Unsubscribe];
    }
  }

  /** A leftover timer is harmless: without an activation no run ever starts a subscription thread again. */
  lemma {:induction false} QuietStaysQuiet(s: State, steps: seq<Step>)
    requires Quiet(s) && Activate !in steps
    ensures Quiet(Run(s, steps))
    decreases |steps|
  {
    hide Quiet, Do;
    if steps != [] {
      assert steps[0] in steps;
      QuietStep(s, steps[0]);
      QuietStaysQuiet(Do(s, steps[0]), steps[1..]);
    }
  }

  /** The loop handling all commands there are, each thread it kills ending at once. */
  ghost function Drain(s: State): seq<Step>
    decreases |s.queue|, if s.busy.Some? then 1 else 0, if s.worker.Some? then 1 else 0
  {
    if !s.looping then []
    else if s.busy.Some? then
      if s.worker.Some? then [WorkerKilled] + Drain(Do(s, WorkerKilled)) else [Resume] + Drain(Do(s, Resume))
    else if s.queue == [] then []
    else [Take] + Drain(Do(s, Take))
  }

  /** What the loop does next when nothing else happens. */
  function NextStep(s: State): Step {
    if s.busy.None? then Take else if s.worker.Some? then WorkerKilled else Resume
  }

  lemma NextCommands(s: State)
    requires s.looping && Commands(s) != []
    ensures var next := Do(s, NextStep(s));
            if s.worker.Some? then Commands(next) == Commands(s)
            else Commands(next) == Commands(s)[1..] && next.worker == if Commands(s)[0] == Subscribe then Some(Trying)
                else None
  {
    if s.busy.None? {
      TakeHandles(s);
    } else if s.worker.None? {
      ResumeHandles(s);
    }
  }

  lemma NextLast(s: State)
    requires s.looping && Commands(s) != []
    ensures var next := Do(s, NextStep(s));
            if Commands(next) == [] then
              next.worker == (if LastCommand(s) == Some(Subscribe) then Some(Trying) else None)
            else LastCommand(next) == LastCommand(s)
  {
    NextCommands(s);
    hide Do, NextStep;
  }

  lemma NextKeeps(s: State)
    requires Inv(s) && Commands(s) != []
    ensures var next := Do(s, NextStep(s));
            && next.active == s.active && next.started == s.started
            && (Commands(next) == [] ==> next.looping == (LastCommand(s) != Some(Terminate)))
  {
    if s.worker.None? {
      var next := Do(s, NextStep(s));
      StepKeeps(s, NextStep(s));
      NextCommands(s);
      if Commands(next) == [] {
        assert LastCommand(s) == Some(Commands(s)[0]);
      }
    }
  }

  /** Left to themselves, the queued commands have the effect of the last of them: a thread trying to subscribe after
    * a subscribe, none after a cancel, and no loop after a terminate. */
  lemma {:induction false} LastCommandWins(s: State)
    requires Inv(s) && Commands(s) != []
    ensures Commands(Run(s, Drain(s))) == []
    ensures Run(s, Drain(s)).worker == if LastCommand(s) == Some(Subscribe) then Some(Trying) else None
    ensures Run(s, Drain(s)).active == s.active && Run(s, Drain(s)).started == s.started
    ensures Run(s, Drain(s)).looping == (LastCommand(s) != Some(Terminate))
    decreases |s.queue|, if s.busy.Some? then 1 else 0, if s.worker.Some? then 1 else 0
  {
    var next := Do(s, NextStep(s));
    DrainUnfolds(s);
    RunFirst(s, NextStep(s), Drain(next));
    StepKeeps(s, NextStep(s));
    NextLast(s);
    NextKeeps(s);
    Decreases(s);
    hide *;
    if Commands(next) != [] {
      LastCommandWins(next);
    }
  }

  lemma DrainUnfolds(s: State)
    requires Inv(s) && Commands(s) != []
    ensures s.looping
    ensures Drain(s) == [NextStep(s)] + Drain(Do(s, NextStep(s)))
    ensures Commands(Do(s, NextStep(s))) == [] ==> Drain(Do(s, NextStep(s))) == []
    ensures Run(Do(s, NextStep(s)), []) == Do(s, NextStep(s))
  {
  }

  lemma Decreases(s: State)
    requires Inv(s) && Commands(s) != []
    ensures var next := Do(s, NextStep(s));
            || |next.queue| < |s.queue|
            || (|next.queue| == |s.queue| && next.busy.None? && s.busy.Some?)
            || (|next.queue| == |s.queue| && next.busy.Some? && s.busy.Some? && next.worker.None? && s.worker.Some?)
  {
  }

  // ------------------------------------------------------------------ what each call leads to

  /** What the state has come to once all commands are handled. */
  ghost function Settled(s: State): State {
    Run(s, Drain(s))
  }

  /** Sending a command puts it behind all others, so it is the one that wins. */
  lemma SentWins(s: State, command: Command)
    requires Inv(Sent(s, command))
    ensures Commands(Sent(s, command)) == Commands(s) + [command]
    ensures var done := Settled(Sent(s, command));
            && done.worker == (if command == Subscribe then Some(Trying) else None)
            && done.active == s.active && done.started == s.started && done.looping == (command != Terminate)
  {
    var sent := Sent(s, command);
    assert Commands(sent) == Commands(s) + [command];
    LastCommandWins(sent);
    hide Run, Drain, Inv, Sent;
  }

  /** A subscriber that was never started, or was stopped and has ended, starts to take commands.  While the loop runs
    * a second start does nothing. */
  lemma StartLeadsTo(s: State)
    requires Inv(s)
    ensures var after := Do(s, Start);
            && after.looping
            && (!s.looping ==> after.started && after == s.(started := true, looping := true))
            && (s.looping ==> after == s)
  {
  }

  /** Activating leads to a thread that tries to subscribe, whatever commands were queued before; without a start it
    * does nothing. */
  lemma ActivateLeadsTo(s: State)
    requires Inv(s)
    ensures var after := Do(s, Activate);
            && (!s.started ==> after == s)
            && (s.started ==>
                && after.active && Commands(after) == Commands(s) + [Subscribe]
                && Settled(after).worker == Some(Trying) && Settled(after).active)
  {
    if s.started {
      StepKeeps(s, Activate);
      SentWins(s.(active := true), Subscribe);
    }
  }

  /** Deactivating leads to no thread and no activity, and the loop stays. */
  lemma DeactivateLeadsTo(s: State)
    requires Inv(s)
    ensures var after := Do(s, Deactivate);
            && (!s.started ==> after == s)
            && (s.started ==>
                && !after.active && Commands(after) == Commands(s) + [Unsubscribe]
                && Settled(after).worker == None && !Settled(after).active && Settled(after).looping)
  {
    if s.started {
      StepKeeps(s, Deactivate);
      SentWins(s.(active := false), Unsubscribe);
    }
  }

  /** Stopping leads to no thread, no activity and no loop, so that the subscriber can be started again. */
  lemma StopLeadsTo(s: State)
    requires Inv(s)
    ensures var after := Do(s, Stop);
            && !after.started && !after.active
            && (!s.started ==> after == s)
            && (s.started ==>
                && Commands(after) == Commands(s) + [Terminate]
                && Settled(after).worker == None && !Settled(after).looping && !Settled(after).active)
  {
    if s.started {
      StepKeeps(s, Stop);
      SentWins(s.(started := false, active := false), Terminate);
    }
  }

  /** While active, and only then, asking again leads to a new thread that tries to subscribe. */
  lemma ResubscribeLeadsTo(s: State)
    requires Inv(s)
    ensures var after := Do(s, Resubscribe);
            && (!s.active ==> after == s)
            && (s.active ==>
                Commands(after) == Commands(s) + [Subscribe] && Settled(after).worker == Some(Trying))
  {
    if s.active {
      StepKeeps(s, Resubscribe);
      SentWins(s, Subscribe);
    }
  }

  /** A thread that fails leaves a timer that the subscriber knows, new among those pending; when it fires, an active
    * subscriber comes to try again and an inactive one does nothing more. */
  lemma FailureIsRetried(s: State)
    requires Inv(s) && s.worker == Some(Trying)
    ensures var failed := Do(s, WorkerFails);
            && failed.worker == None && failed.active == s.active && Commands(failed) == Commands(s)
            && failed.current.Some? && failed.current.value !in s.timers
            && failed.timers == s.timers + {failed.current.value}
            && var fired := Do(failed, TimerFires(failed.current.value));
            && fired.current == None && fired.timers == s.timers
            && (s.active ==> Commands(fired) == Commands(s) + [Subscribe] && Settled(fired).worker == Some(Trying))
            && (!s.active ==> Commands(fired) == Commands(s) && fired.worker == None)
  {
    var failed := Do(s, WorkerFails);
    StepKeeps(s, WorkerFails);
    var timer := failed.current.value;
    StepKeeps(failed, TimerFires(timer));
    assert failed.timers - {timer} == s.timers;
    if s.active {
      SentWins(WithTimers(failed, failed.timers - {timer}), Subscribe);
    }
  }

  /** A thread whose routes go well has subscribed; when the subscription ends, an active subscriber comes to try
    * again and an inactive one does not. */
  lemma EndIsFollowed(s: State)
    requires Inv(s) && s.worker == Some(Trying)
    ensures var subscribed := Do(s, WorkerSubscribes);
            && subscribed.worker == Some(Subscribed) && Commands(subscribed) == Commands(s)
            && var ended := Do(subscribed, WorkerEnds);
            && ended.worker == None
            && (s.active ==> Commands(ended) == Commands(s) + [Subscribe] && Settled(ended).worker == Some(Trying))
            && (!s.active ==> Commands(ended) == Commands(s))
  {
    var subscribed := Do(s, WorkerSubscribes);
    StepKeeps(s, WorkerSubscribes);
    StepKeeps(subscribed, WorkerEnds);
    if s.active {
      SentWins(subscribed.(worker := None), Subscribe);
    }
  }

  /** Once it knows that it is to end for good, a thread can no longer subscribe, fail or be replaced by itself. */
  lemma EndingOnlyEnds(s: State)
    requires s.worker.Some? && s.busy.Some?
    ensures var ending := Do(s, WorkerEnding);
            && ending.worker == (if s.busy.value == Subscribe then s.worker else Some(Ending))
            && (s.busy.value != Subscribe ==>
                Do(ending, WorkerFails) == ending && Do(ending, WorkerSubscribes) == ending
                && Do(ending, WorkerEnds) == ending)
  {
  }

  /** A command that is taken cancels the timer the subscriber knows, waits for a live thread, and goes on when the
    * thread has ended. */
  lemma TakenCommandWaits(s: State)
    requires Inv(s) && s.looping && s.busy.None? && s.queue != [] && s.worker.Some?
    ensures var taken := Do(s, Take);
            && taken.busy == Some(s.queue[0]) && taken.queue == s.queue[1..] && taken.worker == s.worker
            && taken.current == None && (s.current.Some? ==> s.current.value !in taken.timers)
            && Do(taken, Take) == taken && Do(taken, Resume) == taken
            && var gone := Do(Do(taken, WorkerEnding), WorkerKilled);
            && gone.worker == None && Commands(gone) == s.queue
            && Commands(Do(gone, Resume)) == s.queue[1..]
            && Do(gone, Resume).worker == (if s.queue[0] == Subscribe then Some(Trying) else None)
  {
    var taken := Do(s, Take);
    KilledIsGone(taken);
    var gone := Do(Do(taken, WorkerEnding), WorkerKilled);
    CommandsAre(gone);
    hide Do, Commands, Inv;
    assert [taken.busy.value] + taken.queue == s.queue;
    ResumeHandles(gone);
  }

  lemma KilledIsGone(s: State)
    requires s.worker.Some? && s.busy.Some?
    ensures var gone := Do(Do(s, WorkerEnding), WorkerKilled);
            gone.worker == None && gone.busy == s.busy && gone.queue == s.queue
  {
  }

  // ------------------------------------------------------------------ the subscriber

  class Subscriber {
    var started: bool
    var active: bool
    var looping: bool
    var queue: seq<Command>
    var busy: Option<Command>
    var worker: Option<Phase>
    var timers: set<nat>
    var current: Option<nat>
    var made: nat
    ghost var late: bool

    ghost function View(): State
      reads this
    {
      State(started, active, looping, queue, busy, worker, timers, current, made, late)
    }

    constructor ()
      ensures View() == INITIAL
    {
      started, active, looping := false, false, false;
      queue, busy, worker := [], None, None;
      timers, current, made := {}, None, 0;
      late := false;
    }

    method Send(command: Command)
      modifies this`queue
      ensures queue == old(queue) + [command]
    {
      queue := queue + [command];
    }

    method Start()
      modifies this
      ensures View() == Do(old(View()), Step.Start)
    {
      if started || looping {
        return;
      }
      started := true;
      looping := true;
    }

    method Stop()
      modifies this
      ensures View() == Do(old(View()), Step.Stop)
    {
      if !started {
        return;
      }
      started := false;
      active := false;
      Send(Terminate);
    }

    /** `done` is false when this is an error. */
    method Activate() returns (done: bool)
      modifies this
      ensures done == old(started)
      ensures View() == Do(old(View()), Step.Activate)
    {
      if !started {
        return false;
      }
      active := true;
      Send(Subscribe);
      return true;
    }

    method Deactivate() returns (done: bool)
      modifies this
      ensures done == old(started)
      ensures View() == Do(old(View()), Step.Deactivate)
    {
      if !started {
        return false;
      }
      active := false;
      Send(Unsubscribe);
      return true;
    }

    method Resubscribe()
      modifies this
      ensures View() == Do(old(View()), Step.Resubscribe)
    {
      if active {
        Send(Subscribe);
      }
    }

    method Forget(timer: nat)
      modifies this`timers, this`late
      ensures timers == old(timers) - {timer} && late == (old(late) && timers != {})
    {
      timers := timers - {timer};
      late := late && timers != {};
    }

    method CancelTimer()
      modifies this
      ensures View() == Cancelled(old(View()))
    {
      if current.Some? {
        Forget(current.value);
      } else {
        late := late && timers != {};
      }
      current := None;
    }

    /** The part of a command's handler after its wait. */
    method Finish(command: Command)
      modifies this
      ensures View() == Finished(old(View()), command)
    {
      busy := None;
      match command
      case Subscribe => worker := Some(Trying);
      case Unsubscribe =>
      case Terminate => looping := false;
    }

    /** The loop takes a command; its handler cancels the timer and kills the subscription thread, if there is one. */
    method TakeCommand()
      modifies this
      ensures View() == Do(old(View()), Take)
    {
      if !looping || busy.Some? || queue == [] {
        return;
      }
      var command := queue[0];
      queue := queue[1..];
      CancelTimer();
      if worker.Some? {
        busy := Some(command);
      } else {
        Finish(command);
      }
    }

    method ResumeHandler()
      modifies this
      ensures View() == Do(old(View()), Resume)
    {
      if busy.Some? && worker.None? {
        Finish(busy.value);
      }
    }

    /** No route worked, or the server refused: try again later. */
    method WorkerFailed()
      modifies this
      ensures View() == Do(old(View()), WorkerFails)
    {
      if worker == Some(Trying) {
        worker := None;
        timers, current, made := timers + {made}, Some(made), made + 1;
        late := late || busy.Some?;
      }
    }

    /** The subscription ended or failed at the other end. */
    method WorkerEnded()
      modifies this
      ensures View() == Do(old(View()), WorkerEnds)
    {
      if worker == Some(Subscribed) {
        if active {
          Send(Subscribe);
        }
        worker := None;
      }
    }

    method TimerFired(timer: nat)
      modifies this
      ensures View() == Do(old(View()), TimerFires(timer))
    {
      if timer in timers {
        Forget(timer);
        if active {
          Send(Subscribe);
        }
        current := None;
      }
    }
  }
}
