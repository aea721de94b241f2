/** The command queue, registration and retry back-off of a `Registrar` (sipsimple/account/registration.py).  Each
  * stretch of code between two waits is one step; a step that cannot happen in a state leaves it as it is. */
module Registrars {
  import opened Wrappers

  datatype Command = Register | Unregister | Terminate

  /** Why a registration is tried again later, and after how long. */
  datatype Cause = NoLookup | NoRoute | Rejected
  datatype Retry = Retry(cause: Cause, delay: real)

  /** `draw`, between 0 and 1, is where a random delay falls in its range. */
  datatype Step =
    | Start(register: bool) | Stop | Activate | Deactivate | Reregister | Refresh
    | Take
    | LookupFails(draw: real) | RoutesFail(draw: real) | Refused(delay: real) | Succeeds
    | Unregistered
    | TimerFires

  /** `holding` says whether there is a registration object; `misses` and `refusals` count the lookups that failed,
    * and the times no route worked, since either last went well. */
  datatype State = State(
    started: bool, active: bool, looping: bool, queue: seq<Command>, busy: Option<Command>,
    holding: bool, registered: bool, timer: Option<Retry>, dnsWait: nat, registerWait: nat, misses: nat, refusals: nat)

  const INITIAL := State(false, false, false, [], None, false, false, None, 1, 1, 0, 0)

  const MAX_WAIT: nat := 30

  function Doubled(wait: nat): nat {
    if 2 * wait > MAX_WAIT then MAX_WAIT else 2 * wait
  }

  /** A delay between once and twice the wait. */
  function Spread(wait: nat, draw: real): real {
    wait as real * (1.0 + draw)
  }

  function Sent(s: State, command: Command): State {
    s.(queue := s.queue + [command])
  }

  function Failed(s: State, cause: Cause, delay: real): State {
    s.(busy := None, holding := false, registered := false, timer := Some(Retry(cause, delay)))
  }

  /** The end of an unregister or terminate command. */
  function Released(s: State, command: Command): State {
    s.(busy := None, holding := false, looping := s.looping && command != Terminate)
  }

  function Taken(s: State): State
    requires s.queue != []
  {
    var command, rest := s.queue[0], s.(queue := s.queue[1..], timer := None);
    if command == Register then rest.(busy := Some(Register), holding := true)
    else if s.registered then rest.(busy := Some(command), registered := false)
    else Released(rest, command)
  }

  function Do(s: State, step: Step): State {
    match step
    case Start(register) =>
      if s.started || s.looping then s
      else
        var on := s.(started := true, looping := true);
        if register then Sent(on.(active := true), Register) else on
    case Stop => if !s.started then s else Sent(s.(started := false, active := false), Terminate)
    case Activate => if !s.started then s else Sent(s.(active := true), Register)
    case Deactivate => if !s.started then s else Sent(s.(active := false), Unregister)
    case Reregister => if s.active then Sent(Sent(s, Unregister), Register) else s
    case Refresh => if s.active then Sent(s, Register) else s
    case Take => if !s.looping || s.busy.Some? || s.queue == [] then s else Taken(s)
    case LookupFails(draw) =>
      if s.busy != Some(Register) then s
      else
        Failed(s, NoLookup, Spread(s.dnsWait, draw)).(dnsWait := Doubled(s.dnsWait), misses := s.misses + 1)
    case RoutesFail(draw) =>
      if s.busy != Some(Register) then s
      else
        Failed(s, NoRoute, Spread(s.registerWait, draw))
        .(dnsWait := 1, misses := 0, registerWait := Doubled(s.registerWait), refusals := s.refusals + 1)
    case Refused(delay) =>
      if s.busy != Some(Register) then s else Failed(s, Rejected, delay).(dnsWait := 1, misses := 0)
    case Succeeds =>
      if s.busy != Some(Register) then s
      else s.(busy := None, registered := true, dnsWait := 1, misses := 0, registerWait := 1, refusals := 0)
    case Unregistered =>
      if s.busy.Some? && s.busy != Some(Register) then Released(s, s.busy.value) else s
    case TimerFires =>
      if s.timer.None? then s
      else
        var fired := s.(timer := None);
        if s.active then Sent(fired, Register) else fired
  }

  ghost function Run(s: State, steps: seq<Step>): State
    decreases |steps|
  {
    if steps == [] then s else Run(Do(s, steps[0]), steps[1..])
  }

  // ------------------------------------------------------------------ what every run keeps

  function Commands(s: State): seq<Command> {
    (if s.busy.Some? then [s.busy.value] else []) + s.queue
  }

  function LastCommand(s: State): Option<Command> {
    var commands := Commands(s);
    if commands == [] then None else Some(commands[|commands| - 1])
  }

  ghost predicate Remembers(s: State) {
    match LastCommand(s)
    case None => s.registered || s.timer.Some?
    case Some(last) => last == Register
  }

  ghost predicate Rests(s: State) {
    match LastCommand(s)
    case None => !s.holding && s.timer.None?
    case Some(last) => last != Register
  }

  ghost predicate LoopKnown(s: State) {
    && (s.started ==> s.looping)
    && (forall i :: 0 <= i < |Commands(s)| - 1 ==> Commands(s)[i] != Terminate)
    && (s.looping && !s.started <==> LastCommand(s) == Some(Terminate))
    && (!s.looping ==> Commands(s) == [])
  }

  /** A timer waits only while nothing is registered or being registered. */
  ghost predicate RegistrationKnown(s: State) {
    && (s.timer.Some? ==> !s.holding && s.busy.None?)
    && (s.registered ==> s.holding)
    && (s.holding && !s.registered ==> s.busy.Some?)
    && (s.busy == Some(Register) ==> s.holding)
    && (s.busy.Some? && s.busy != Some(Register) ==> !s.registered)
  }

  /** The wait after `n` failures in a row: it doubles until it is held at the maximum. */
  function Wait(n: nat): (wait: nat)
    ensures 1 <= wait <= MAX_WAIT
  {
    if n < 5 then Pow2(n) else MAX_WAIT
  }

  function Pow2(n: nat): (p: nat)
    requires n < 5
    ensures 1 <= p <= 16
  {
    if n == 0 then 1 else if n == 1 then 2 else if n == 2 then 4 else if n == 3 then 8 else 16
  }

  predicate Between(wait: nat, delay: real) {
    wait as real <= delay <= 2.0 * wait as real
  }

  /** Each wait is the one its count of failures calls for, and the pending retry comes between once and twice the
    * wait before it doubled. */
  ghost predicate WaitsKnown(s: State) {
    && s.dnsWait == Wait(s.misses)
    && s.registerWait == Wait(s.refusals)
    && (s.timer.Some? && s.timer.value.cause == NoLookup ==>
        s.misses > 0 && Between(Wait(s.misses - 1), s.timer.value.delay))
    && (s.timer.Some? && s.timer.value.cause == NoRoute ==>
        s.refusals > 0 && Between(Wait(s.refusals - 1), s.timer.value.delay))
  }

  ghost predicate Inv(s: State) {
    && (if s.active then Remembers(s) else Rests(s))
    && (s.active ==> s.started)
    && LoopKnown(s)
    && RegistrationKnown(s)
  }

  lemma SendKeeps(s: State, command: Command)
    requires LoopKnown(s) && RegistrationKnown(s) && s.started
    requires command == Register <==> s.active
    requires command != Terminate
    ensures Inv(Sent(s, command))
  {
    assert Commands(Sent(s, command)) == Commands(s) + [command];
  }

  lemma SwitchKeeps(s: State, active: bool)
    requires LoopKnown(s) && RegistrationKnown(s)
    ensures LoopKnown(s.(active := active)) && RegistrationKnown(s.(active := active))
  {
    assert Commands(s.(active := active)) == Commands(s);
  }

  lemma StopKeeps(s: State)
    requires Inv(s) && s.started
    ensures Inv(Do(s, Stop))
  {
    assert Commands(Do(s, Stop)) == Commands(s) + [Terminate];
  }

  lemma ReregisterKeeps(s: State)
    requires Inv(s) && s.active
    ensures Inv(Do(s, Reregister))
  {
    var once := Sent(s, Unregister);
    assert Commands(once) == Commands(s) + [Unregister];
    assert LoopKnown(once) && RegistrationKnown(once);
    SendKeeps(once, Register);
  }

  /** Doing away with the command at the head of the list leaves the rest of it. */
  lemma HeadDone(s: State, after: State)
    requires LoopKnown(s) && Commands(s) != [] && Commands(after) == Commands(s)[1..]
    requires after.started == s.started && after.looping == (s.looping && Commands(s)[0] != Terminate)
    ensures LoopKnown(after)
    ensures Commands(after) != [] ==> LastCommand(after) == LastCommand(s)
    ensures Commands(after) == [] ==> LastCommand(s) == Some(Commands(s)[0])
  {
  }

  lemma TakeKeeps(s: State)
    requires Inv(s) && s.looping && s.busy.None? && s.queue != []
    ensures Inv(Taken(s))
  {
    var after := Taken(s);
    assert Commands(s) == s.queue;
    if s.queue[0] == Register || s.registered {
      HeadHeld(s);
    } else {
      assert Commands(after) == Commands(s)[1..];
      HeadDone(s, after);
      hide Commands, LastCommand, LoopKnown;
    }
  }

  lemma HeadHeld(s: State)
    requires Inv(s) && s.looping && s.busy.None? && s.queue != []
    requires s.queue[0] == Register || s.registered
    ensures Inv(Taken(s))
  {
    var after := Taken(s);
    assert Commands(s) == s.queue;
    assert Commands(after) == Commands(s);
    assert LastCommand(after) == LastCommand(s);
    hide Commands, LastCommand;
  }

  lemma DoneKeeps(s: State, step: Step)
    requires Inv(s) && s.busy.Some?
    requires match step
             case LookupFails(_) => true case RoutesFail(_) => true case Refused(_) => true
             case Succeeds => true case Unregistered => true case _ => false
    ensures Inv(Do(s, step))
  {
    var after := Do(s, step);
    assert Commands(s) == [s.busy.value] + s.queue;
    if after.busy.None? {
      assert Commands(after) == Commands(s)[1..];
      HeadDone(s, after);
    }
  }

  lemma TimerKeeps(s: State)
    requires Inv(s) && s.timer.Some?
    ensures Inv(Do(s, TimerFires))
  {
    var fired := s.(timer := None);
    assert Commands(fired) == Commands(s);
    if s.active {
      SendKeeps(fired, Register);
    }
  }

  lemma StartKeeps(s: State, register: bool)
    requires Inv(s) && !s.started && !s.looping
    ensures Inv(Do(s, Start(register)))
  {
    var on := s.(started := true, looping := true);
    assert Commands(on) == [];
    if register {
      SwitchKeeps(on, true);
      SendKeeps(on.(active := true), Register);
    }
  }

  lemma StepKeeps(s: State, step: Step)
    requires Inv(s)
    ensures Inv(Do(s, step))
  {
    hide Remembers, Rests, Sent, Commands, LastCommand, Failed, Released, Taken;
    match step
    case Start(register) => if !s.started && !s.looping { StartKeeps(s, register); }
    case Stop => if s.started { StopKeeps(s); }
    case Activate => if s.started { SwitchKeeps(s, true); SendKeeps(s.(active := true), Register); }
    case Deactivate => if s.started { SwitchKeeps(s, false); SendKeeps(s.(active := false), Unregister); }
    case Reregister => if s.active { ReregisterKeeps(s); }
    case Refresh => if s.active { SendKeeps(s, Register); }
    case Take => if s.looping && s.busy.None? && s.queue != [] { TakeKeeps(s); }
    case TimerFires => if s.timer.Some? { TimerKeeps(s); }
    case _ => if s.busy.Some? { DoneKeeps(s, step); }
  }

  /** Random delays are drawn from their range. */
  predicate Drawn(step: Step) {
    match step
    case LookupFails(draw) => 0.0 <= draw <= 1.0
    case RoutesFail(draw) => 0.0 <= draw <= 1.0
    case _ => true
  }

  lemma DelayBetween(wait: nat, draw: real)
    requires 0.0 <= draw <= 1.0
    ensures Between(wait, Spread(wait, draw))
  {
    var w := wait as real;
    assert w * (1.0 + draw) == w + w * draw;
    assert w * (1.0 - draw) == w - w * draw;
    NotNegative(w, draw);
    NotNegative(w, 1.0 - draw);
  }

  lemma NotNegative(a: real, b: real)
    requires a >= 0.0 && b >= 0.0
    ensures a * b >= 0.0
  {
  }

  lemma WaitDoubles(n: nat)
    ensures Doubled(Wait(n)) == Wait(n + 1) && Wait(0) == 1
  {
  }

  lemma WaitsKept(s: State, step: Step)
    requires WaitsKnown(s) && RegistrationKnown(s) && Drawn(step)
    ensures WaitsKnown(Do(s, step))
  {
    hide Wait, Between, Spread, Doubled;
    WaitDoubles(0);
    match step
    case LookupFails(draw) => DelayBetween(s.dnsWait, draw); WaitDoubles(s.misses);
    case RoutesFail(draw) => DelayBetween(s.registerWait, draw); WaitDoubles(s.refusals);
    case _ =>
  }

  lemma {:induction false} RunKeeps(s: State, steps: seq<Step>)
    requires Inv(s) && WaitsKnown(s)
    requires forall i :: 0 <= i < |steps| ==> Drawn(steps[i])
    ensures Inv(Run(s, steps)) && WaitsKnown(Run(s, steps))
    decreases |steps|
  {
    hide Remembers, Rests, LoopKnown, WaitsKnown, Do;
    if steps != [] {
      StepKeeps(s, steps[0]);
      WaitsKept(s, steps[0]);
      RunKeeps(Do(s, steps[0]), steps[1..]);
    }
  }

  // ------------------------------------------------------------------ what follows for every run

  /** A registrar never forgets and never resurrects: while active, a register command is under way or queued behind
    * every cancel, or it is registered, or a retry waits; once inactive with all commands handled, there is no
    * registration and no timer. */
  lemma EveryRun(steps: seq<Step>)
    requires forall i :: 0 <= i < |steps| ==> Drawn(steps[i])
    ensures var s := Run(INITIAL, steps);
            && (s.active && Commands(s) == [] ==> (s.registered && s.holding) || s.timer.Some?)
            && (s.active && Commands(s) != [] ==> LastCommand(s) == Some(Register))
            && (!s.active && Commands(s) == [] ==> !s.registered && !s.holding && s.timer.None?)
            && (!s.active && Commands(s) != [] ==> LastCommand(s) != Some(Register))
  {
    RunKeeps(INITIAL, steps);
  }

  /** On every run both back-off waits are the power of two for the failures in a row so far, held at the maximum. */
  lemma EveryWait(steps: seq<Step>)
    requires forall i :: 0 <= i < |steps| ==> Drawn(steps[i])
    ensures var s := Run(INITIAL, steps);
            && 1 <= s.dnsWait <= MAX_WAIT && 1 <= s.registerWait <= MAX_WAIT
            && s.dnsWait == Wait(s.misses) && s.registerWait == Wait(s.refusals)
            && (s.timer.Some? && s.timer.value.cause != Rejected ==> 1.0 <= s.timer.value.delay <= 60.0)
  {
    RunKeeps(INITIAL, steps);
  }

  // ------------------------------------------------------------------ what each call leads to

  /** What the loop does next when the server answers every request. */
  function NextStep(s: State): Step {
    if s.busy.None? then Take else if s.busy.value == Register then Succeeds else Unregistered
  }

  /** The state once all commands are handled so. */
  ghost function Settled(s: State): State
    decreases |s.queue|, if s.busy.Some? then 1 else 0
  {
    if !s.looping || Commands(s) == [] then s else Settled(Do(s, NextStep(s)))
  }

  lemma CommandsAre(s: State)
    ensures s.busy.None? ==> Commands(s) == s.queue
    ensures s.busy.Some? ==> Commands(s) == [s.busy.value] + s.queue
  {
  }

  lemma NextKeeps(s: State)
    requires Inv(s) && Commands(s) != []
    ensures s.looping
    ensures var next := Do(s, NextStep(s));
            && Inv(next) && next.active == s.active && next.started == s.started
            && (|next.queue| < |s.queue| || (|next.queue| == |s.queue| && next.busy.None? && s.busy.Some?))
  {
    StepKeeps(s, NextStep(s));
  }

  /** A step leaves the list of commands as it is, or does away with its head. */
  lemma NextCommands(s: State)
    requires Inv(s) && Commands(s) != []
    ensures var next := Do(s, NextStep(s));
            || Commands(next) == Commands(s)
            || (&& Commands(next) == Commands(s)[1..]
                && next.registered == (Commands(s)[0] == Register)
                && next.looping == (Commands(s)[0] != Terminate))
  {
    var next := Do(s, NextStep(s));
    CommandsAre(s);
    CommandsAre(next);
    hide Commands;
  }

  lemma NextLast(s: State)
    requires Inv(s) && Commands(s) != []
    ensures var next := Do(s, NextStep(s));
            if Commands(next) == [] then
              next.registered == (LastCommand(s) == Some(Register))
              && next.looping == (LastCommand(s) != Some(Terminate))
            else LastCommand(next) == LastCommand(s)
  {
    NextCommands(s);
    hide Do, NextStep, Inv;
  }

  /** Left to themselves, the queued commands have the effect of the last of them: a registration after a register,
    * none after an unregister, and no loop after a terminate. */
  lemma {:induction false} LastCommandWins(s: State)
    requires Inv(s) && Commands(s) != []
    ensures var done := Settled(s);
            && Commands(done) == [] && done.active == s.active && done.started == s.started
            && done.registered == (LastCommand(s) == Some(Register))
            && done.looping == (LastCommand(s) != Some(Terminate))
            && Inv(done)
    decreases |s.queue|, if s.busy.Some? then 1 else 0
  {
    var next := Do(s, NextStep(s));
    NextKeeps(s);
    NextLast(s);
    hide Commands, LastCommand, Inv, Do, NextStep;
    if Commands(next) != [] {
      LastCommandWins(next);
    }
  }

  /** A command that was just sent is behind all others, so it is the one that wins. */
  lemma SentWins(s: State, command: Command)
    requires Inv(Sent(s, command))
    ensures Commands(Sent(s, command)) == Commands(s) + [command]
    ensures var done := Settled(Sent(s, command));
            && done.registered == done.holding == (command == Register) && done.timer.None?
            && done.active == s.active && done.started == s.started && done.looping == (command != Terminate)
  {
    var sent := Sent(s, command);
    assert Commands(sent) == Commands(s) + [command];
    LastCommandWins(sent);
    SettledHolds(Settled(sent));
    hide Settled, Inv, Sent;
  }

  lemma SettledHolds(s: State)
    requires Inv(s) && Commands(s) == []
    ensures s.registered == s.holding
    ensures s.registered || !s.active ==> s.timer.None?
  {
  }

  /** Starting runs the loop, and for an account that registers leads to a registration; while the loop runs a second
    * start does nothing. */
  lemma StartLeadsTo(s: State, register: bool)
    requires Inv(s)
    ensures var after := Do(s, Start(register));
            && (s.looping ==> after == s)
            && (!s.looping ==> after.started && after.looping && after.active == register)
            && (!s.looping && register ==> Commands(after) == [Register] && Settled(after).registered)
            && (!s.looping && !register ==> Commands(after) == [] && !after.registered)
  {
    if !s.looping {
      assert Commands(s) == [] && !s.started && !s.active;
      StepKeeps(s, Start(register));
      if register {
        var on := s.(started := true, looping := true, active := true);
        assert Commands(on) == [];
        SentWins(on, Register);
      }
    }
  }

  /** Activating leads to a registration, whatever commands were queued before; without a start it does nothing. */
  lemma ActivateLeadsTo(s: State)
    requires Inv(s)
    ensures var after := Do(s, Activate);
            && (!s.started ==> after == s)
            && (s.started ==>
                && after.active && Commands(after) == Commands(s) + [Register]
                && Settled(after).registered && Settled(after).active)
  {
    StepKeeps(s, Activate);
    if s.started {
      SentWins(s.(active := true), Register);
    }
  }

  /** Deactivating leads to no registration and no activity, and the loop stays. */
  lemma DeactivateLeadsTo(s: State)
    requires Inv(s)
    ensures var after := Do(s, Deactivate);
            && (!s.started ==> after == s)
            && (s.started ==>
                && !after.active && Commands(after) == Commands(s) + [Unregister]
                && !Settled(after).registered && !Settled(after).holding && !Settled(after).active
                && Settled(after).looping)
  {
    StepKeeps(s, Deactivate);
    if s.started {
      SentWins(s.(active := false), Unregister);
    }
  }

  /** Stopping leads to no registration, no activity and no loop, so that the registrar can be started again. */
  lemma StopLeadsTo(s: State)
    requires Inv(s)
    ensures var after := Do(s, Stop);
            && !after.started && !after.active
            && (!s.started ==> after == s)
            && (s.started ==>
                && Commands(after) == Commands(s) + [Terminate]
                && !Settled(after).registered && !Settled(after).holding && !Settled(after).looping)
  {
    StepKeeps(s, Stop);
    if s.started {
      SentWins(s.(started := false, active := false), Terminate);
    }
  }

  /** While active, and only then, registering again ends the registration there is and leads to a new one, and
    * refreshing leads to one without ending it. */
  lemma ReregisterLeadsTo(s: State)
    requires Inv(s)
    ensures var again, refreshed := Do(s, Reregister), Do(s, Refresh);
            && (!s.active ==> again == s && refreshed == s)
            && (s.active ==>
                && Commands(again) == Commands(s) + [Unregister, Register] && Settled(again).registered
                && Commands(refreshed) == Commands(s) + [Register] && Settled(refreshed).registered)
  {
    StepKeeps(s, Reregister);
    StepKeeps(s, Refresh);
    if s.active {
      SentWins(s, Register);
      var once := Sent(s, Unregister);
      SentWins(once, Register);
      assert Commands(once) == Commands(s) + [Unregister];
      assert Commands(s) + [Unregister, Register] == Commands(s) + [Unregister] + [Register];
    }
  }

  /** What a failed attempt leaves: no registration, and a retry after that delay, for which an active registrar comes
    * to register and an inactive one does nothing. */
  ghost predicate IsRetried(s: State, failed: State, delay: real) {
    && Inv(failed) && failed.active == s.active
    && !failed.registered && !failed.holding && failed.busy.None? && failed.queue == s.queue
    && failed.timer.Some? && failed.timer.value.delay == delay
    && var fired := Do(failed, TimerFires);
    && fired.timer.None? && Inv(fired)
    && (s.active ==> Commands(fired) == s.queue + [Register] && Settled(fired).registered)
    && (!s.active ==> Commands(fired) == s.queue && !fired.registered)
  }

  lemma TimerLeadsTo(s: State, failed: State)
    requires Inv(s) && Inv(failed) && failed.active == s.active
    requires !failed.registered && !failed.holding && failed.busy.None? && failed.queue == s.queue
    requires failed.timer.Some?
    ensures IsRetried(s, failed, failed.timer.value.delay)
  {
    StepKeeps(failed, TimerFires);
    if s.active {
      SentWins(failed.(timer := None), Register);
    }
  }

  /** Every attempt that fails is retried: when no lookup works, after once to twice the lookup wait, which doubles up
    * to 30; when no route works, the same with the other wait, and the lookup wait starts over; and when the server
    * refuses, after the delay that its answer calls for. */
  lemma FailureIsRetried(s: State, draw: real, delay: real)
    requires Inv(s) && s.busy == Some(Register) && 0.0 <= draw <= 1.0
    ensures var failed := Do(s, LookupFails(draw));
            && failed.timer.Some? && Between(s.dnsWait, failed.timer.value.delay)
            && IsRetried(s, failed, failed.timer.value.delay)
            && failed.dnsWait == (if s.dnsWait > 15 then 30 else 2 * s.dnsWait)
            && failed.registerWait == s.registerWait
    ensures var failed := Do(s, RoutesFail(draw));
            && failed.timer.Some? && Between(s.registerWait, failed.timer.value.delay)
            && IsRetried(s, failed, failed.timer.value.delay)
            && failed.registerWait == (if s.registerWait > 15 then 30 else 2 * s.registerWait)
            && failed.dnsWait == 1
    ensures var failed := Do(s, Refused(delay));
            IsRetried(s, failed, delay) && failed.registerWait == s.registerWait && failed.dnsWait == 1
  {
    StepKeeps(s, LookupFails(draw));
    StepKeeps(s, RoutesFail(draw));
    StepKeeps(s, Refused(delay));
    DelayBetween(s.dnsWait, draw);
    DelayBetween(s.registerWait, draw);
    hide IsRetried, Inv, Between, Spread;
    TimerLeadsTo(s, Do(s, LookupFails(draw)));
    TimerLeadsTo(s, Do(s, RoutesFail(draw)));
    TimerLeadsTo(s, Do(s, Refused(delay)));
  }

  /** A command that is taken cancels the retry.  A register then holds a registration until it is answered; an
    * unregister or terminate waits for the answer only when registered, and then lets the registration go. */
  lemma TakenCommandWaits(s: State)
    requires Inv(s) && s.looping && s.busy.None? && s.queue != []
    ensures var taken := Do(s, Take);
            && taken.timer.None? && taken.queue == s.queue[1..]
            && (s.queue[0] == Register ==>
                && taken.busy == Some(Register) && taken.holding && taken.registered == s.registered
                && Do(taken, Take) == taken
                && var done := Do(taken, Succeeds);
                done.registered && done.holding && done.busy.None? && done.dnsWait == 1 && done.registerWait == 1)
            && (s.queue[0] != Register && s.registered ==>
                && taken.busy == Some(s.queue[0]) && !taken.registered && taken.holding && Do(taken, Take) == taken
                && var done := Do(taken, Unregistered);
                !done.holding && done.busy.None? && done.looping == (s.queue[0] != Terminate))
            && (s.queue[0] != Register && !s.registered ==>
                !taken.registered && !taken.holding && taken.busy.None? && taken.looping == (s.queue[0] != Terminate))
  {
  }

  // ------------------------------------------------------------------ the registrar

  class Registrar {
    var started: bool
    var active: bool
    var looping: bool
    var queue: seq<Command>
    var busy: Option<Command>
    var holding: bool
    var registered: bool
    var timer: Option<Retry>
    var dnsWait: nat
    var registerWait: nat
    ghost var misses: nat
    ghost var refusals: nat

    ghost function View(): State
      reads this
    {
      State(started, active, looping, queue, busy, holding, registered, timer, dnsWait, registerWait, misses, refusals)
    }

    constructor ()
      ensures View() == INITIAL
    {
      started, active, looping := false, false, false;
      queue, busy, timer := [], None, None;
      holding, registered := false, false;
      dnsWait, registerWait := 1, 1;
      misses, refusals := 0, 0;
    }

    method Send(command: Command)
      modifies this`queue
      ensures queue == old(queue) + [command]
    {
      queue := queue + [command];
    }

    method Start(register: bool)
      modifies this
      ensures View() == Do(old(View()), Step.Start(register))
    {
      if started || looping {
        return;
      }
      started := true;
      looping := true;
      if register {
        var done := Activate();
      }
    }

    method Stop()
      modifies this
      ensures View() == Do(old(View()), Step.Stop)
    {
      if !started {
        return;
      }
      started := false;
      active := false;
      Send(Terminate);
    }

    /** `done` is false when this is an error. */
    method Activate() returns (done: bool)
      modifies this
      ensures done == old(started)
      ensures View() == Do(old(View()), Step.Activate)
    {
      if !started {
        return false;
      }
      active := true;
      Send(Register);
      return true;
    }

    method Deactivate() returns (done: bool)
      modifies this
      ensures done == old(started)
      ensures View() == Do(old(View()), Step.Deactivate)
    {
      if !started {
        return false;
      }
      active := false;
      Send(Unregister);
      return true;
    }

    method Reregister()
      modifies this
      ensures View() == Do(old(View()), Step.Reregister)
    {
      if active {
        Send(Unregister);
        Send(Register);
      }
    }

    /** Every command first cancels the timer; an unregister waits only when there is something to end. */
    method TakeCommand()
      modifies this
      ensures View() == Do(old(View()), Take)
    {
      if !looping || busy.Some? || queue == [] {
        return;
      }
      var command := queue[0];
      queue := queue[1..];
      timer := None;
      if command == Register {
        holding := true;
        busy := Some(Register);
        return;
      }
      var wasRegistered := registered;
      registered := false;
      if wasRegistered {
        busy := Some(command);
      } else {
        Release(command);
      }
    }

    method Release(command: Command)
      modifies this
      ensures View() == Released(old(View()), command)
    {
      busy := None;
      holding := false;
      if command == Terminate {
        looping := false;
      }
    }

    /** The registration ended, or would not end. */
    method RegistrationEnded()
      modifies this
      ensures View() == Do(old(View()), Unregistered)
    {
      if busy.Some? && busy != Some(Register) {
        Release(busy.value);
      }
    }

    method Fail(cause: Cause, delay: real)
      modifies this
      ensures View() == Failed(old(View()), cause, delay)
    {
      busy := None;
      registered := false;
      timer := Some(Retry(cause, delay));
      holding := false;
    }

    method LookupFailed(draw: real)
      modifies this
      ensures View() == Do(old(View()), LookupFails(draw))
    {
      if busy == Some(Register) {
        var delay := Spread(dnsWait, draw);
        dnsWait := if 2 * dnsWait > MAX_WAIT then MAX_WAIT else 2 * dnsWait;
        misses := misses + 1;
        Fail(NoLookup, delay);
      }
    }

    method RoutesFailed(draw: real)
      modifies this
      ensures View() == Do(old(View()), RoutesFail(draw))
    {
      if busy == Some(Register) {
        dnsWait := 1;
        misses := 0;
        var delay := Spread(registerWait, draw);
        registerWait := if 2 * registerWait > MAX_WAIT then MAX_WAIT else 2 * registerWait;
        refusals := refusals + 1;
        Fail(NoRoute, delay);
      }
    }

    method Succeeded()
      modifies this
      ensures View() == Do(old(View()), Succeeds)
    {
      if busy == Some(Register) {
        dnsWait := 1;
        misses := 0;
        registered := true;
        registerWait := 1;
        refusals := 0;
        busy := None;
      }
    }

    method TimerFired()
      modifies this
      ensures View() == Do(old(View()), TimerFires)
    {
      if timer.Some? {
        if active {
          Send(Register);
        }
        timer := None;
      }
    }
  }
}
