/** Runs of a session: streams added and removed by the application and proposed by the peer (sipsimple/session.py). */
module MediaTalks {
  import opened Wrappers
  import opened MediaSlots

  /** The agreed local and remote lines, and the line index of each active stream. */
  datatype Talk = Talk(local: seq<Media>, remote: seq<Media>, slots: seq<nat>)

  /** How a re-INVITE ends: refused or failed to negotiate; agreed on new local and remote lines; or agreed, after
    * which the media of the proposed streams could not be started. */
  datatype Outcome =
    | Refused
    | Agreed(local: seq<Media>, remote: seq<Media>)
    | Broken(local: seq<Media>, remote: seq<Media>)

  // ------------------------------------------------------------------ adding and removing streams

  function Accepted(slots: seq<nat>, remote: seq<Media>): (accepted: seq<nat>)
    requires forall k :: 0 <= k < |slots| ==> slots[k] < |remote|
    ensures forall s: nat :: s in accepted <==> s in slots && s < |remote| && remote[s].port != 0
    ensures |accepted| <= |slots|
  {
    if slots == [] then []
    else
      var last := |slots| - 1;
      Accepted(slots[..last], remote) + if remote[slots[last]].port != 0 then [slots[last]] else []
  }

  function AfterAdd(t: Talk, lines: seq<Media>, outcome: Outcome): Talk {
    if lines == [] then t
    else
      match outcome
      case Refused => t
      case Broken(local, remote) => t.(local := local, remote := remote)
      case Agreed(local, remote) =>
        var slots := Slots(t.local, lines);
        if forall k :: 0 <= k < |slots| ==> slots[k] < |remote| then
          Talk(local, remote, t.slots + Accepted(slots, remote))
        else t.(local := local, remote := remote)
  }

  function Without(slots: seq<nat>, gone: set<nat>): (rest: seq<nat>)
    ensures forall s: nat :: s in rest <==> s in slots && s !in gone
  {
    if slots == [] then [] else (if slots[0] in gone then [] else [slots[0]]) + Without(slots[1..], gone)
  }

  /** The offer that removes the streams whose lines are `gone`. */
  function Silence(media: seq<Media>, gone: set<nat>): (silenced: seq<Media>)
    ensures |silenced| == |media|
  {
    seq(|media|, i requires 0 <= i < |media| => if i in gone then Disabled(media[i]) else media[i])
  }

  /** The removed streams leave the session whatever the peer answers. */
  function AfterRemove(t: Talk, gone: set<nat>, outcome: Outcome): Talk {
    if gone == {} then t
    else if outcome.Refused? then t.(slots := Without(t.slots, gone))
    else Talk(outcome.local, outcome.remote, Without(t.slots, gone))
  }

  // ------------------------------------------------------------------ proposals from the peer

  predicate Removes(offer: seq<Media>, active: seq<Media>, i: nat)
    requires i < |offer| && i < |active|
  {
    offer[i].port == 0 && active[i].port > 0
  }

  predicate Reuses(offer: seq<Media>, active: seq<Media>, i: nat)
    requires i < |offer| && i < |active|
  {
    offer[i].port > 0 && active[i].port == 0
  }

  predicate Retypes(offer: seq<Media>, active: seq<Media>, i: nat)
    requires i < |offer| && i < |active|
  {
    !Removes(offer, active, i) && !Reuses(offer, active, i) && offer[i].kind != active[i].kind
  }

  function Reused(offer: seq<Media>, active: seq<Media>): set<nat> {
    set i: nat | i < |offer| && i < |active| && Reuses(offer, active, i)
  }

  /** A line whose media type changes counts as added and as removed. */
  function Added(offer: seq<Media>, active: seq<Media>): set<nat> {
    set i: nat | i < |offer| && (i < |active| ==> Retypes(offer, active, i))
  }

  function Removed(offer: seq<Media>, active: seq<Media>): set<nat> {
    set i: nat | i < |offer| && i < |active| && (Removes(offer, active, i) || Retypes(offer, active, i))
  }

  /** What becomes of an offer: it is refused with 488, streams are proposed to the application at these indexes, or
    * it only changes lines already there. */
  datatype Verdict = NotAcceptable | Proposed(indexes: set<nat>) | Update

  /** `valid` says whether every active stream accepts the offer; `known` are the lines some stream type can serve. */
  function Judge(offer: seq<Media>, active: seq<Media>, valid: bool, known: set<nat>): Verdict {
    var arrivals := Added(offer, active) + Reused(offer, active);
    if |offer| < |active| || !valid then NotAcceptable
    else if arrivals == {} then Update
    else if Removed(offer, active) != {} then NotAcceptable
    else
      var served := set i: nat | i in arrivals && i < |offer| && offer[i].port != 0 && i in known;
      if served == {} then NotAcceptable else Proposed(served)
  }

  function Addressed(line: Media, connection: string): Media {
    if line.ice then line else line.(connection := Some(connection))
  }

  function Rejected(line: Media, connection: string): Media {
    Disabled(line).(connection := Some(connection))
  }

  /** The answer, when `lines` holds the lines of the accepted streams by index. */
  function Answer(local: seq<Media>, offer: seq<Media>, lines: map<nat, Media>,
      connection: string): (answer: seq<Media>)
    ensures |answer| >= |local| && |answer| >= |offer|
    ensures |answer| == |offer| <==> |local| <= |offer|
  {
    seq(|offer|, i requires 0 <= i < |offer| =>
      if i in lines then Addressed(lines[i], connection)
      else if i < |local| then local[i]
      else Rejected(offer[i], connection))
    + if |local| > |offer| then local[|offer|..] else []
  }

  function AfterAccept(t: Talk, chosen: seq<nat>, outcome: Outcome): Talk {
    match outcome
    case Refused => t
    case Broken(local, remote) => t.(local := local, remote := remote)
    case Agreed(local, remote) => Talk(local, remote, t.slots + chosen)
  }

  // ------------------------------------------------------------------ invariants

  /** Every active stream's line is live. */
  ghost predicate LinesLive(t: Talk) {
    forall s :: s in t.slots ==> s < |t.local| && t.local[s].port != 0
  }

  /** Every active stream has a line of its own, live on both sides. */
  ghost predicate Good(t: Talk) {
    && |t.local| == |t.remote|
    && Distinct(t.slots)
    && LinesLive(t)
    && forall s :: s in t.slots && s < |t.remote| ==> t.remote[s].port != 0
  }

  /** No live line is left without a stream. */
  ghost predicate Tight(t: Talk) {
    forall i: nat :: i < |t.local| && t.local[i].port != 0 ==> i in t.slots
  }

  /** What the negotiator promises for an offer of ours: both sides have one line for each one offered, and a local
    * line that is not disabled is the one offered, accepted by the peer. */
  ghost predicate Negotiated(offer: seq<Media>, local: seq<Media>, remote: seq<Media>) {
    && |local| == |remote| == |offer|
    && forall i :: 0 <= i < |local| && local[i].port != 0 ==> local[i] == offer[i] && remote[i].port != 0
  }

  /** And for an answer of ours: it stands, except for lines that could not be agreed on. */
  ghost predicate Answered(answer: seq<Media>, offer: seq<Media>, local: seq<Media>, remote: seq<Media>) {
    && |local| == |answer|
    && remote == offer
    && forall i :: 0 <= i < |local| && local[i].port != 0 ==> local[i] == answer[i]
  }

  datatype Event =
    | Add(lines: seq<Media>, outcome: Outcome)
    | Remove(gone: set<nat>, outcome: Outcome)
    | Proposal(offer: seq<Media>, valid: bool, known: set<nat>, wanted: seq<nat>, answers: map<nat, Media>,
               connection: string, outcome: Outcome)

  ghost function After(t: Talk, e: Event): Talk {
    match e
    case Add(lines, outcome) => AfterAdd(t, lines, outcome)
    case Remove(gone, outcome) => AfterRemove(t, gone, outcome)
    case Proposal(offer, valid, known, wanted, _, _, outcome) =>
      var verdict := Judge(offer, t.remote, valid, known);
      if verdict.Proposed? then AfterAccept(t, wanted, outcome) else t
  }

  /** Streams bring live lines, the application names streams it has, each once, and the negotiator keeps its word.
    * An offer that only updates lines is not part of these runs. */
  ghost predicate Fair(t: Talk, e: Event) {
    match e
    case Add(lines, outcome) =>
      && AllLive(lines)
      && (!outcome.Refused? ==> Negotiated(Offer(t.local, lines), outcome.local, outcome.remote))
    case Remove(gone, outcome) =>
      && (forall s :: s in gone ==> s in t.slots)
      && (!outcome.Refused? ==> Negotiated(Silence(t.local, gone), outcome.local, outcome.remote))
    case Proposal(offer, valid, known, wanted, answers, connection, outcome) =>
      var verdict := Judge(offer, t.remote, valid, known);
      && !verdict.Update?
      && Distinct(wanted)
      && (verdict.Proposed? ==> forall i :: i in wanted ==> i in verdict.indexes)
      && (!outcome.Refused? ==>
          Answered(Answer(t.local, offer, answers, connection), offer, outcome.local, outcome.remote))
  }

  // ------------------------------------------------------------------ one event

  lemma {:induction false} AcceptedDistinct(slots: seq<nat>, remote: seq<Media>)
    requires forall k :: 0 <= k < |slots| ==> slots[k] < |remote|
    requires Distinct(slots)
    ensures Distinct(Accepted(slots, remote))
  {
    if slots != [] {
      var last := |slots| - 1;
      AcceptedDistinct(slots[..last], remote);
      assert slots[last] !in slots[..last];
    }
  }

  lemma {:induction false} WithoutDistinct(slots: seq<nat>, gone: set<nat>)
    requires Distinct(slots)
    ensures Distinct(Without(slots, gone))
  {
    if slots != [] {
      WithoutDistinct(slots[1..], gone);
      assert slots[0] !in slots[1..];
    }
  }

  lemma Joined(a: seq<nat>, b: seq<nat>)
    requires Distinct(a) && Distinct(b)
    ensures Distinct(a + b) <==> forall s :: s in b ==> s !in a
  {
    if s :| s in b && s in a {
      var i, j :| 0 <= i < |a| && 0 <= j < |b| && a[i] == s == b[j];
      assert (a + b)[i] == (a + b)[|a| + j];
    } else {
      assert forall j :: 0 <= j < |b| ==> b[j] in b;
    }
  }

  /** New streams get lines no active stream has exactly when none of the disabled lines they take is an active
    * stream's: a line of an active stream that a renegotiation disabled is handed out again. */
  lemma NewSlotsAreUnused(t: Talk, lines: seq<Media>)
    requires Distinct(t.slots) && AllLive(lines)
    requires forall s :: s in t.slots ==> s < |t.local|
    ensures Distinct(t.slots + Slots(t.local, lines)) <==>
            forall k :: 0 <= k < |lines| && k < |Free(t.local)| ==> Free(t.local)[k] !in t.slots
    ensures LinesLive(t) ==> Distinct(t.slots + Slots(t.local, lines))
  {
    hide Free, Slots;
    var slots := Slots(t.local, lines);
    SlotsTakeFreeLinesFirst(t.local, lines);
    SlotsAreDistinct(t.local, lines);
    Joined(t.slots, slots);
    assert forall k :: 0 <= k < |slots| ==> slots[k] == Nth(t.local, k);
    if k :| 0 <= k < |lines| && k < |Free(t.local)| && Free(t.local)[k] in t.slots {
      assert slots[k] in slots;
    }
  }

  /** A proposal is put to the application only when no active stream would lose its line, type or place by it. */
  lemma ProposalStealsNothing(t: Talk, offer: seq<Media>, valid: bool, known: set<nat>)
    requires Good(t)
    requires Judge(offer, t.remote, valid, known).Proposed?
    ensures |offer| >= |t.local|
    ensures forall i :: i in Judge(offer, t.remote, valid, known).indexes ==>
        i !in t.slots && i < |offer| && offer[i].port != 0
    ensures forall s :: s in t.slots ==> offer[s].port != 0 && offer[s].kind == t.remote[s].kind
  {
    forall s | s in t.slots ensures offer[s].port != 0 && offer[s].kind == t.remote[s].kind {
      assert s !in Removed(offer, t.remote);
    }
    forall i | i in Judge(offer, t.remote, valid, known).indexes ensures i !in t.slots {
      assert i !in Removed(offer, t.remote);
    }
  }

  /** The answer has one line for each one offered; exactly the lines of active and accepted streams are live, old
    * lines stay as they were, and a line the peer offers with port 0 is answered with port 0. */
  lemma AnswerIsTruthful(t: Talk, offer: seq<Media>, valid: bool, known: set<nat>, lines: map<nat, Media>,
      connection: string)
    requires Good(t) && Tight(t)
    requires Judge(offer, t.remote, valid, known).Proposed?
    requires forall i :: i in lines ==> i in Judge(offer, t.remote, valid, known).indexes
    requires forall i :: i in lines ==> lines[i].port != 0
    ensures |Answer(t.local, offer, lines, connection)| == |offer|
    ensures forall i: nat :: i < |offer| ==>
                               (Answer(t.local, offer, lines, connection)[i].port != 0 <==> i in t.slots || i in lines)
    ensures forall i: nat :: i < |t.local| && i !in lines ==> Answer(t.local, offer, lines, connection)[i] == t.local[i]
    ensures forall i: nat :: i < |offer| && offer[i].port == 0 ==>
        Answer(t.local, offer, lines, connection)[i].port == 0
  {
    ProposalStealsNothing(t, offer, valid, known);
  }

  lemma AddKeepsGood(t: Talk, lines: seq<Media>, outcome: Outcome)
    requires Good(t) && Fair(t, Add(lines, outcome))
    ensures Good(AfterAdd(t, lines, outcome)) <==> LinesLive(AfterAdd(t, lines, outcome))
    ensures |t.local| <= |AfterAdd(t, lines, outcome).local|
  {
    hide Slots, Offer;
    if lines != [] && !outcome.Refused? {
      var slots := Slots(t.local, lines);
      OfferKeepsLiveLines(t.local, lines);
      if outcome.Agreed? {
        assert forall k :: 0 <= k < |slots| ==> slots[k] < |outcome.remote|;
        var accepted := Accepted(slots, outcome.remote);
        SlotsAreDistinct(t.local, lines);
        AcceptedDistinct(slots, outcome.remote);
        Joined(t.slots, accepted);
      }
    }
  }

  lemma RemoveKeepsGood(t: Talk, gone: set<nat>, outcome: Outcome)
    requires Good(t) && Fair(t, Remove(gone, outcome))
    ensures Good(AfterRemove(t, gone, outcome)) <==> LinesLive(AfterRemove(t, gone, outcome))
    ensures |t.local| == |AfterRemove(t, gone, outcome).local|
  {
    WithoutDistinct(t.slots, gone);
  }

  /** After any event the streams still hold distinct lines, and all of them are good exactly when the event disabled
    * no active stream's line; the number of lines never goes down. */
  lemma EventKeepsGood(t: Talk, e: Event)
    requires Good(t) && Fair(t, e)
    ensures Good(After(t, e)) <==> LinesLive(After(t, e))
    ensures |t.local| <= |After(t, e).local|
  {
    hide Slots, Offer;
    match e
    case Add(lines, outcome) => AddKeepsGood(t, lines, outcome);
    case Remove(gone, outcome) => RemoveKeepsGood(t, gone, outcome);
    case Proposal(offer, valid, known, wanted, answers, connection, outcome) =>
      var verdict := Judge(offer, t.remote, valid, known);
      if verdict.Proposed? {
        ProposalStealsNothing(t, offer, valid, known);
        Joined(t.slots, wanted);
      }
  }

  // ------------------------------------------------------------------ runs

  ghost function Run(t: Talk, events: seq<Event>): Talk
    decreases |events|
  {
    if events == [] then t else Run(After(t, events[0]), events[1..])
  }

  /** Every event is fair and disables no active stream's line. */
  ghost predicate FairRun(t: Talk, events: seq<Event>)
    decreases |events|
  {
    events == [] ||
    (Fair(t, events[0]) && LinesLive(After(t, events[0])) && FairRun(After(t, events[0]), events[1..]))
  }

  lemma {:induction false} RunKeepsGood(t: Talk, events: seq<Event>)
    requires Good(t) && FairRun(t, events)
    ensures Good(Run(t, events))
    ensures |t.local| <= |Run(t, events).local|
    decreases |events|
  {
    hide After, Fair, Good, LinesLive;
    if events != [] {
      EventKeepsGood(t, events[0]);
      RunKeepsGood(After(t, events[0]), events[1..]);
    }
  }

  /** A change of ours that goes through: no removal is refused, and accepted streams start. */
  ghost predicate Clean(e: Event) {
    match e
    case Add(_, outcome) => !outcome.Broken?
    case Remove(_, outcome) => outcome.Agreed?
    case Proposal(_, _, _, _, _, _, _) => false
  }

  ghost function Demand(t: Talk, e: Event): nat {
    |t.slots| + if e.Add? then |e.lines| else 0
  }

  /** The largest number of streams active or proposed at any time of the run. */
  ghost function Peak(t: Talk, events: seq<Event>): nat
    decreases |events|
  {
    if events == [] then |t.slots|
    else Larger(Demand(t, events[0]), Peak(After(t, events[0]), events[1..]))
  }

  function Larger(a: nat, b: nat): nat { if a < b then b else a }

  ghost function AsSet(s: seq<nat>): (elements: set<nat>)
    ensures forall x: nat :: x in elements <==> x in s
    ensures Distinct(s) ==> |elements| == |s|
  {
    if s == [] then {}
    else
      assert forall x: nat :: x in s <==> x == s[0] || x in s[1..];
      {s[0]} + AsSet(s[1..])
  }

  ghost function Indexes(n: nat): (indexes: set<nat>)
    ensures |indexes| == n
    ensures forall i: nat :: i in indexes <==> i < n
  {
    if n == 0 then {} else Indexes(n - 1) + {n - 1}
  }

  lemma LiveAndFree(t: Talk)
    requires Good(t) && Tight(t)
    ensures |t.slots| + |Free(t.local)| == |t.local|
  {
    hide AsSet, Indexes, Free;
    var free, all := Free(t.local), Indexes(|t.local|);
    var live, dead := AsSet(t.slots), AsSet(free);
    assert Distinct(free);
    assert live !! dead;
    forall i: nat ensures i in live + dead <==> i in all {
    }
    assert live + dead == all;
  }

  /** A clean change leaves no line without a stream, and the offer is no longer than it was or than the number of
    * streams it serves. */
  lemma CleanEventKeepsTight(t: Talk, e: Event)
    requires Good(t) && Tight(t) && Fair(t, e) && Clean(e)
    ensures Tight(After(t, e))
    ensures |After(t, e).local| <= Larger(|t.local|, Demand(t, e))
  {
    hide Slots, Offer, Free;
    match e
    case Add(lines, outcome) =>
      if lines != [] && outcome.Agreed? {
        OfferKeepsLiveLines(t.local, lines);
        LiveAndFree(t);
        SlotsTakeFreeLinesFirst(t.local, lines);
        assert forall k :: 0 <= k < |lines| ==> Slots(t.local, lines)[k] < |outcome.remote|;
      }
    case Remove(gone, outcome) =>
  }

  /** Because disabled lines are reused first, the SDP never gets longer than the largest number of streams active or
    * proposed at one time. */
  lemma {:induction false} RunReusesLines(t: Talk, events: seq<Event>)
    requires Good(t) && Tight(t) && FairRun(t, events)
    requires forall k :: 0 <= k < |events| ==> Clean(events[k])
    ensures Tight(Run(t, events))
    ensures |Run(t, events).local| <= Larger(|t.local|, Peak(t, events))
    decreases |events|
  {
    hide After, Fair, Good, LinesLive, Tight, Clean;
    if events != [] {
      EventKeepsGood(t, events[0]);
      CleanEventKeepsTight(t, events[0]);
      RunReusesLines(After(t, events[0]), events[1..]);
    }
  }

  // ------------------------------------------------------------------ the first INVITE

  /** The indexes below `n` whose remote line is live, in ascending order. */
  function LiveIndexes(remote: seq<Media>, n: nat): (live: seq<nat>)
    requires n <= |remote|
    ensures forall s: nat :: s in live <==> s < n && remote[s].port != 0
    ensures forall k :: 0 <= k < |live| ==> live[k] < n
    ensures forall j, k :: 0 <= j < k < |live| ==> live[j] < live[k]
  {
    if n == 0 then [] else LiveIndexes(remote, n - 1) + if remote[n - 1].port != 0 then [n - 1] else []
  }

  /** A session that connects starts well, with one line per stream offered. */
  lemma ConnectedIsGood(offer: seq<Media>, local: seq<Media>, remote: seq<Media>)
    requires Negotiated(offer, local, remote)
    ensures var t := Talk(local, remote, LiveIndexes(remote, |local|));
            (Good(t) <==> LinesLive(t)) && Tight(t) && |t.local| == |offer|
  {
  }

  // ------------------------------------------------------------------ what single operations do

  /** A line of an answer is a stream's own: as the stream brings it, with its own address when it has ICE and with that
    * of the session otherwise. */
  ghost predicate IsOwnLine(answered: Media, own: Media, connection: string) {
    && answered.kind == own.kind && answered.port == own.port && answered.ice == own.ice
    && answered.attributes == own.attributes && answered.bandwidth == own.bandwidth
    && answered.connection == (if own.ice then own.connection else Some(connection))
  }

  /** A line is there and nothing is sent over it. */
  ghost predicate IsDisabled(line: Media, like: Media) {
    line.kind == like.kind && line.port == 0 && line.attributes == [] && line.bandwidth == []
  }

  /** In an answer every accepted stream has its own line, lines already there are as they were, and new ones that no
    * stream takes are disabled. */
  lemma AnswerHolds(local: seq<Media>, offer: seq<Media>, lines: map<nat, Media>, connection: string)
    ensures var answer := Answer(local, offer, lines, connection);
            && (forall i :: 0 <= i < |offer| && i in lines ==> IsOwnLine(answer[i], lines[i], connection))
            && (forall i :: 0 <= i < |local| && (i !in lines || i >= |offer|) ==> answer[i] == local[i])
            && (forall i :: |local| <= i < |offer| && i !in lines ==>
                  IsDisabled(answer[i], offer[i]) && answer[i].connection == Some(connection))
  {
  }

  /** A line of an offer that the peer has not offered before, or brings back. */
  ghost predicate IsNew(offer: seq<Media>, active: seq<Media>, i: nat) {
    i < |offer| && (i < |active| ==> active[i].port == 0 && offer[i].port != 0)
  }

  ghost predicate CanServe(offer: seq<Media>, active: seq<Media>, known: set<nat>, i: nat) {
    IsNew(offer, active, i) && offer[i].port != 0 && i in known
  }

  /** No line is missing, and a line that is live or disabled in both keeps its type. */
  ghost predicate KeepsTypes(offer: seq<Media>, active: seq<Media>) {
    && |offer| >= |active|
    && forall i :: 0 <= i < |active| ==>
         ((active[i].port != 0 <==> offer[i].port != 0) ==> offer[i].kind == active[i].kind)
  }

  /** No live line is disabled. */
  ghost predicate KeepsLive(offer: seq<Media>, active: seq<Media>) {
    |offer| >= |active| && forall i :: 0 <= i < |active| && active[i].port != 0 ==> offer[i].port != 0
  }

  lemma RemovedNone(offer: seq<Media>, active: seq<Media>)
    requires |offer| >= |active|
    ensures Removed(offer, active) == {} <==> KeepsTypes(offer, active) && KeepsLive(offer, active)
  {
    var removed := Removed(offer, active);
    if removed == {} {
      forall i | 0 <= i < |active|
        ensures active[i].port != 0 ==> offer[i].port != 0
        ensures (active[i].port != 0 <==> offer[i].port != 0) ==> offer[i].kind == active[i].kind
      {
        assert i !in removed;
      }
    }
  }

  lemma ArrivalsAre(offer: seq<Media>, active: seq<Media>, i: nat)
    requires |offer| >= |active|
    ensures i in Added(offer, active) + Reused(offer, active) <==>
              IsNew(offer, active, i) || (i < |active| && Retypes(offer, active, i))
  {
  }

  lemma TypesKept(offer: seq<Media>, active: seq<Media>)
    requires |offer| >= |active|
    ensures KeepsTypes(offer, active) <==> forall i: nat :: i < |active| ==> !Retypes(offer, active, i)
  {
    if forall i: nat :: i < |active| ==> !Retypes(offer, active, i) {
      forall i | 0 <= i < |active|
        ensures (active[i].port != 0 <==> offer[i].port != 0) ==> offer[i].kind == active[i].kind
      {
        assert !Retypes(offer, active, i);
      }
    }
  }

  /** The exact conditions for each verdict on an offer: streams are proposed when no line is missing, taken away or
    * given another type, and some new line can be served; nothing is new in an update; everything else is refused. */
  lemma VerdictIs(offer: seq<Media>, active: seq<Media>, valid: bool, known: set<nat>)
    ensures var verdict := Judge(offer, active, valid, known);
            && (verdict.Proposed? <==>
                  && valid && KeepsTypes(offer, active) && KeepsLive(offer, active)
                  && exists i: nat :: CanServe(offer, active, known, i))
            && (verdict.Proposed? ==> forall i: nat :: i in verdict.indexes <==> CanServe(offer, active, known, i))
            && (verdict.Update? <==>
                  valid && KeepsTypes(offer, active) && forall i: nat :: !IsNew(offer, active, i))
  {
    if |offer| >= |active| {
      var arrivals := Added(offer, active) + Reused(offer, active);
      RemovedNone(offer, active);
      TypesKept(offer, active);
      forall i: nat
        ensures i in arrivals <==> IsNew(offer, active, i) || (i < |active| && Retypes(offer, active, i))
      {
        ArrivalsAre(offer, active, i);
      }
      hide Added, Reused, Removed, Retypes, KeepsTypes, KeepsLive;
      var served := set i: nat | i in arrivals && i < |offer| && offer[i].port != 0 && i in known;
      if arrivals != {} {
        var i :| i in arrivals;
      }
      assert served != {} <==> exists i :: i in served;
      assert KeepsTypes(offer, active) ==> forall i: nat :: i in served <==> CanServe(offer, active, known, i);
    }
  }

  /** Streams added become active with the lines they were given, those whose line the peer takes, when the peer answers
    * every line and their media start; and nobody leaves. */
  lemma AddedAreActive(t: Talk, lines: seq<Media>, outcome: Outcome)
    ensures var after := AfterAdd(t, lines, outcome);
            var slots := Slots(t.local, lines);
            var started :=
              lines != [] && outcome.Agreed? && forall k :: 0 <= k < |slots| ==> slots[k] < |outcome.remote|;
            && t.slots <= after.slots
            && (!started ==> after.slots == t.slots)
            && (started ==> forall s: nat :: s in after.slots <==>
                  s in t.slots || (s in slots && s < |outcome.remote| && outcome.remote[s].port != 0))
            && (lines == [] || outcome.Refused? ==> after.local == t.local && after.remote == t.remote)
            && (lines != [] && !outcome.Refused? ==> after.local == outcome.local && after.remote == outcome.remote)
  {
  }

  /** Streams removed leave, and nobody else; the offer disables their lines and no other. */
  lemma RemovedAreGone(t: Talk, gone: set<nat>, outcome: Outcome)
    ensures var after, offer := AfterRemove(t, gone, outcome), Silence(t.local, gone);
            && (forall s: nat :: s in after.slots <==> s in t.slots && s !in gone)
            && (forall i :: 0 <= i < |t.local| ==>
                  if i in gone then IsDisabled(offer[i], t.local[i]) else offer[i] == t.local[i])
            && (gone == {} || outcome.Refused? ==> after.local == t.local && after.remote == t.remote)
            && (gone != {} && !outcome.Refused? ==> after.local == outcome.local && after.remote == outcome.remote)
  {
  }
}
