/** The SDP side of `Session` (sipsimple/session.py): connecting, adding and removing streams, and proposals from the
  * peer.  What the negotiator returns after an offer or answer is a parameter of each method. */
module SessionStreams {
  import opened Wrappers
  import opened MediaSlots
  import opened MediaTalks

  /** A media stream; `line` is the line it brings to an offer or answer. */
  class MediaStream {
    const line: Media
    var index: nat

    constructor (line: Media, index: nat)
      ensures this.line == line && this.index == index
    {
      this.line, this.index := line, index;
    }
  }

  ghost predicate NoRepeats(streams: seq<MediaStream>) {
    forall i, j :: 0 <= i < j < |streams| ==> streams[i] != streams[j]
  }

  ghost function SlotsOf(streams: seq<MediaStream>): (slots: seq<nat>)
    reads streams
    ensures |slots| == |streams|
    ensures forall k :: 0 <= k < |streams| ==> slots[k] == streams[k].index
  {
    if streams == [] then []
    else
      var last := |streams| - 1;
      SlotsOf(streams[..last]) + [streams[last].index]
  }

  ghost function LinesOf(streams: seq<MediaStream>): (lines: seq<Media>)
    ensures |lines| == |streams|
  {
    seq(|streams|, k requires 0 <= k < |streams| => streams[k].line)
  }

  /** The streams requested that are not active yet, each once. */
  ghost function NewOnes(requested: seq<MediaStream>, active: seq<MediaStream>): (wanted: seq<MediaStream>)
    ensures NoRepeats(wanted)
    ensures forall s :: s in wanted ==> s in requested && s !in active
    ensures forall s :: s in requested && s !in active ==> s in wanted
  {
    if requested == [] then []
    else
      var last := |requested| - 1;
      var before := NewOnes(requested[..last], active);
      if requested[last] in active || requested[last] in before then before else before + [requested[last]]
  }

  /** The line of a first offer: the session's address fills in unless the line has its own for ICE. */
  function FirstOffered(line: Media, connection: string): Media {
    if line.connection == None || !line.ice then line.(connection := Some(connection)) else line
  }

  /** In a first offer a stream has its own line, with its own address when it has ICE and an address. */
  lemma FirstOfferedHolds(line: Media, connection: string)
    ensures var offered := FirstOffered(line, connection);
            && offered.kind == line.kind && offered.port == line.port && offered.ice == line.ice
            && offered.attributes == line.attributes && offered.bandwidth == line.bandwidth
            && offered.connection ==
                 if line.ice && line.connection.Some? then line.connection else Some(connection)
  {
  }

  method FirstDisabled(media: seq<Media>) returns (index: nat)
    ensures index == FirstFree(media)
  {
    index := 0;
    while index < |media| && media[index].port != 0
      invariant index <= |media|
      invariant forall i :: 0 <= i < index ==> media[i].port != 0
    {
      index := index + 1;
    }
  }

  method SelectNew(requested: seq<MediaStream>, active: seq<MediaStream>) returns (wanted: seq<MediaStream>)
    ensures wanted == NewOnes(requested, active)
  {
    wanted := [];
    for i := 0 to |requested|
      invariant wanted == NewOnes(requested[..i], active)
    {
      assert requested[..i + 1][..i] == requested[..i];
      if requested[i] !in active && requested[i] !in wanted {
        wanted := wanted + [requested[i]];
      }
    }
    assert requested[..|requested|] == requested;
  }

  /** The offer of a first INVITE: streams get their position as index. */
  method LineUp(offered: seq<MediaStream>, connection: string) returns (offer: seq<Media>)
    requires NoRepeats(offered)
    modifies offered
    ensures |offer| == |offered|
    ensures forall i :: 0 <= i < |offer| ==>
                          offered[i].index == i && offer[i] == FirstOffered(offered[i].line, connection)
  {
    offer := [];
    for index := 0 to |offered|
      invariant |offer| == index
      invariant forall i :: 0 <= i < index ==>
                              offered[i].index == i && offer[i] == FirstOffered(offered[i].line, connection)
    {
      offered[index].index := index;
      offer := offer + [FirstOffered(offered[index].line, connection)];
    }
  }

  lemma PlaceOne(media: seq<Media>, lines: seq<Media>, i: nat)
    requires i < |lines|
    ensures Offer(media, lines[i..]) == Offer(Put(media, lines[i]), lines[i + 1..])
    ensures Slots(media, lines[i..]) == [FirstFree(media)] + Slots(Put(media, lines[i]), lines[i + 1..])
  {
    assert lines[i..][1..] == lines[i + 1..];
  }

  /** Give each stream a line, a disabled one if there is any. */
  method Place(wanted: seq<MediaStream>, media: seq<Media>) returns (offer: seq<Media>)
    requires NoRepeats(wanted)
    modifies wanted
    ensures offer == Offer(media, LinesOf(wanted))
    ensures SlotsOf(wanted) == Slots(media, LinesOf(wanted))
  {
    hide Offer, Slots, SlotsOf, FirstFree;
    ghost var lines := LinesOf(wanted);
    ghost var slots := Slots(media, lines);
    assert lines[0..] == lines;
    offer := media;
    for i := 0 to |wanted|
      invariant Offer(offer, lines[i..]) == Offer(media, lines)
      invariant forall k :: 0 <= k < i ==> wanted[k].index == slots[k]
      invariant Slots(offer, lines[i..]) == slots[i..]
    {
      PlaceOne(offer, lines, i);
      var index := FirstDisabled(offer);
      assert slots[i..][0] == index && slots[i..][1..] == slots[i + 1..];
      wanted[i].index := index;
      offer := if index < |offer| then offer[index := wanted[i].line] else offer + [wanted[i].line];
    }
    OfferNothing(offer);
    assert lines[|wanted|..] == [];
  }

  lemma OfferNothing(media: seq<Media>)
    ensures Offer(media, []) == media
  {
  }

  lemma AcceptedNext(slots: seq<nat>, i: nat, remote: seq<Media>)
    requires i < |slots| && forall k :: 0 <= k <= i ==> slots[k] < |remote|
    ensures Accepted(slots[..i + 1], remote) ==
            Accepted(slots[..i], remote) + if remote[slots[i]].port != 0 then [slots[i]] else []
  {
    assert slots[..i + 1][..i] == slots[..i] && slots[..i + 1][i] == slots[i];
  }

  /** The streams whose line the peer accepted; none of them when a line is missing from the answer. */
  method Start(wanted: seq<MediaStream>, remote: seq<Media>) returns (accepted: Option<seq<MediaStream>>)
    ensures accepted.None? <==> exists k :: 0 <= k < |wanted| && SlotsOf(wanted)[k] >= |remote|
    ensures accepted.Some? ==> SlotsOf(accepted.value) == Accepted(SlotsOf(wanted), remote)
    ensures accepted.Some? ==> forall s :: s in accepted.value ==> s in wanted
  {
    hide Accepted, SlotsOf;
    ghost var slots := SlotsOf(wanted);
    var started := [];
    StartNothing(remote);
    for i := 0 to |wanted|
      invariant forall k :: 0 <= k < i ==> slots[k] < |remote|
      invariant SlotsOf(started) == Accepted(slots[..i], remote)
      invariant forall s :: s in started ==> s in wanted
    {
      assert slots[i] == wanted[i].index;
      if wanted[i].index >= |remote| {
        assert SlotsOf(wanted)[i] >= |remote|;
        return None;
      }
      AcceptedNext(slots, i, remote);
      if remote[wanted[i].index].port != 0 {
        SlotsAppend(started, [wanted[i]]);
        SlotOfOne(wanted[i]);
        started := started + [wanted[i]];
      }
    }
    assert slots[..|slots|] == slots;
    return Some(started);
  }

  /** The first `n` streams whose line the peer accepted, when each one's index is its position. */
  method StartLive(offered: seq<MediaStream>, remote: seq<Media>, n: nat) returns (started: seq<MediaStream>)
    requires n <= |offered| && n <= |remote|
    requires forall i :: 0 <= i < |offered| ==> offered[i].index == i
    ensures SlotsOf(started) == LiveIndexes(remote, n)
    ensures forall s :: s in started ==> s in offered
  {
    hide SlotsOf;
    started := [];
    StartNothing(remote);
    for index := 0 to n
      invariant SlotsOf(started) == LiveIndexes(remote, index)
      invariant forall s :: s in started ==> s in offered
    {
      if remote[index].port != 0 {
        SlotsAppend(started, [offered[index]]);
        SlotOfOne(offered[index]);
        started := started + [offered[index]];
      }
    }
  }

  lemma StartNothing(remote: seq<Media>)
    ensures SlotsOf([]) == Accepted([], remote) == []
  {
  }

  lemma SlotOfOne(stream: MediaStream)
    ensures SlotsOf([stream]) == [stream.index]
  {
  }

  lemma SlotsAppend(a: seq<MediaStream>, b: seq<MediaStream>)
    ensures SlotsOf(a + b) == SlotsOf(a) + SlotsOf(b)
  {
    hide SlotsOf;
    var joined := SlotsOf(a) + SlotsOf(b);
    assert forall k :: 0 <= k < |a + b| ==> SlotsOf(a + b)[k] == joined[k];
  }

  /** The index of each stream with the line it brings; of two streams with one index the later counts. */
  ghost function LinesAt(streams: seq<MediaStream>): map<nat, Media>
    reads streams
  {
    if streams == [] then map[]
    else
      var last := |streams| - 1;
      LinesAt(streams[..last])[streams[last].index := streams[last].line]
  }

  /** Streams with different indexes each contribute their own line. */
  lemma {:induction false} LinesAtHolds(streams: seq<MediaStream>)
    requires Distinct(SlotsOf(streams))
    ensures forall k :: 0 <= k < |streams| ==>
                          streams[k].index in LinesAt(streams) && LinesAt(streams)[streams[k].index] == streams[k].line
    ensures forall i :: i in LinesAt(streams) ==> exists k :: 0 <= k < |streams| && streams[k].index == i
  {
    if streams != [] {
      var last := |streams| - 1;
      var before := streams[..last];
      IndexesDiffer(streams);
      SlotsSlice(streams, 0, last);
      assert Distinct(SlotsOf(before));
      hide SlotsOf, Distinct;
      LinesAtHolds(before);
      assert forall k :: 0 <= k < last ==> before[k] == streams[k];
    }
  }

  lemma IndexesDiffer(streams: seq<MediaStream>)
    requires Distinct(SlotsOf(streams))
    ensures forall j, k :: 0 <= j < k < |streams| ==> streams[j].index != streams[k].index
  {
    hide SlotsOf;
    var slots := SlotsOf(streams);
    assert forall k :: 0 <= k < |streams| ==> slots[k] == streams[k].index;
  }

  method MapLines(streams: seq<MediaStream>) returns (lines: map<nat, Media>)
    ensures lines == LinesAt(streams)
  {
    lines := map[];
    for i := 0 to |streams|
      invariant lines == LinesAt(streams[..i])
    {
      assert streams[..i + 1][..i] == streams[..i];
      lines := lines[streams[i].index := streams[i].line];
    }
    assert streams[..|streams|] == streams;
  }

  /** Refuse an offer, or find the indexes at which it brings new streams. */
  method Classify(offer: seq<Media>, active: seq<Media>, valid: bool, known: set<nat>) returns (verdict: Verdict)
    ensures verdict == Judge(offer, active, valid, known)
  {
    if |offer| < |active| || !valid {
      return NotAcceptable;
    }
    var added: set<nat>, removed: set<nat>, reused: set<nat> := {}, {}, {};
    for index := 0 to |offer|
      invariant forall i: nat :: i in added <==> i < index && i in Added(offer, active)
      invariant forall i: nat :: i in removed <==> i < index && i in Removed(offer, active)
      invariant forall i: nat :: i in reused <==> i < index && i in Reused(offer, active)
    {
      if index >= |active| {
        added := added + {index};
      } else if offer[index].port == 0 && active[index].port > 0 {
        removed := removed + {index};
      } else if offer[index].port > 0 && active[index].port == 0 {
        reused := reused + {index};
      } else if offer[index].kind != active[index].kind {
        added, removed := added + {index}, removed + {index};
      }
    }
    assert added == Added(offer, active) && removed == Removed(offer, active) && reused == Reused(offer, active);
    if added + reused != {} && removed != {} {
      return NotAcceptable;
    } else if added + reused != {} {
      var served: set<nat> := {};
      for index := 0 to |offer|
        invariant forall i: nat :: i in served <==> i < index && i in added + reused && offer[i].port != 0 && i in known
      {
        if index in added + reused && offer[index].port != 0 && index in known {
          served := served + {index};
        }
      }
      assert served == set i: nat | i in added + reused && i < |offer| && offer[i].port != 0 && i in known;
      return if served == {} then NotAcceptable else Proposed(served);
    } else {
      return Update;
    }
  }

  /** The answer to a re-INVITE, built over a copy of the local lines. */
  method BuildAnswer(local: seq<Media>, offer: seq<Media>, lines: map<nat, Media>, connection: string)
    returns (answer: seq<Media>)
    ensures answer == Answer(local, offer, lines, connection)
    ensures forall i :: 0 <= i < |offer| && i in lines ==> IsOwnLine(answer[i], lines[i], connection)
  {
    hide IsOwnLine, IsDisabled;
    answer := local;
    for index := 0 to |offer|
      invariant |answer| == if index < |local| then |local| else index
      invariant forall i :: 0 <= i < index ==> answer[i] == Answer(local, offer, lines, connection)[i]
      invariant forall i :: index <= i < |local| ==> answer[i] == local[i]
    {
      if index in lines {
        var media := Addressed(lines[index], connection);
        answer := if index < |answer| then answer[index := media] else answer + [media];
      } else if index >= |answer| {
        answer := answer + [Disabled(offer[index]).(connection := Some(connection))];
      }
    }
    assert answer == Answer(local, offer, lines, connection);
    hide Answer;
    AnswerHolds(local, offer, lines, connection);
  }

  /** In the answer every accepted stream has its own line at its index, unless two share one. */
  lemma OwnLines(local: seq<Media>, offer: seq<Media>, chosen: seq<MediaStream>, connection: string)
    ensures var answer := Answer(local, offer, LinesAt(chosen), connection);
            Distinct(SlotsOf(chosen)) ==> forall s :: s in chosen && s.index < |offer| ==>
              IsOwnLine(answer[s.index], s.line, connection)
  {
    hide Answer, LinesAt, SlotsOf, Distinct, IsOwnLine;
    AnswerHolds(local, offer, LinesAt(chosen), connection);
    if Distinct(SlotsOf(chosen)) {
      LinesAtHolds(chosen);
      forall s | s in chosen && s.index < |offer|
        ensures IsOwnLine(Answer(local, offer, LinesAt(chosen), connection)[s.index], s.line, connection)
      {
        var k :| 0 <= k < |chosen| && chosen[k] == s;
      }
    }
  }

  /** The answer to a first INVITE, built from nothing. */
  method AnswerInvite(offer: seq<Media>, streams: seq<MediaStream>, connection: string) returns (answer: seq<Media>)
    ensures answer == Answer([], offer, LinesAt(streams), connection)
    ensures Distinct(SlotsOf(streams)) ==> forall s :: s in streams && s.index < |offer| ==>
              IsOwnLine(answer[s.index], s.line, connection)
  {
    OwnLines([], offer, streams, connection);
    var lines := MapLines(streams);
    answer := [];
    for index := 0 to |offer|
      invariant |answer| == index
      invariant forall i :: 0 <= i < index ==> answer[i] == Answer([], offer, lines, connection)[i]
    {
      var media := if index in lines then Addressed(lines[index], connection)
          else Disabled(offer[index]).(connection := Some(connection));
      answer := answer + [media];
    }
  }

  /** The requested streams that are active, each once. */
  method SelectActive(requested: seq<MediaStream>, active: seq<MediaStream>) returns (leaving: seq<MediaStream>)
    ensures NoRepeats(leaving)
    ensures forall k :: 0 <= k < |leaving| ==> leaving[k] in requested && leaving[k] in active
    ensures forall s :: s in requested && s in active ==> s in leaving
  {
    leaving := [];
    for i := 0 to |requested|
      invariant NoRepeats(leaving)
      invariant forall k :: 0 <= k < |leaving| ==> leaving[k] in requested && leaving[k] in active
      invariant forall k :: 0 <= k < i && requested[k] in active ==> requested[k] in leaving
    {
      if requested[i] in active && requested[i] !in leaving {
        leaving := leaving + [requested[i]];
      }
    }
  }

  /** The indexes of the streams asked to go. */
  ghost function Gone(requested: seq<MediaStream>, active: seq<MediaStream>): (gone: set<nat>)
    reads active
  {
    set s | s in active && s in requested :: s.index
  }

  lemma {:induction false} WithoutNone(slots: seq<nat>, gone: set<nat>)
    requires forall k :: 0 <= k < |slots| ==> slots[k] !in gone
    ensures Without(slots, gone) == slots
  {
    if slots != [] {
      WithoutNone(slots[1..], gone);
    }
  }

  lemma WithoutUnfolds(slots: seq<nat>, gone: set<nat>)
    requires slots != []
    ensures Without(slots, gone) == (if slots[0] in gone then [] else [slots[0]]) + Without(slots[1..], gone)
  {
  }

  /** The streams that stay, in their order. */
  function Remaining(streams: seq<MediaStream>, leaving: seq<MediaStream>): (rest: seq<MediaStream>)
    ensures forall s :: s in rest ==> s in streams && s !in leaving
    ensures forall s :: s in streams && s !in leaving ==> s in rest
  {
    if streams == [] then []
    else
      var last := |streams| - 1;
      Remaining(streams[..last], leaving) + if streams[last] in leaving then [] else [streams[last]]
  }

  lemma RemainingLast(most: seq<MediaStream>, last: MediaStream, leaving: seq<MediaStream>)
    ensures Remaining(most + [last], leaving) == Remaining(most, leaving) + if last in leaving then [] else [last]
  {
    assert (most + [last])[..|most|] == most;
  }

  lemma {:induction false} RemainingAll(streams: seq<MediaStream>, leaving: seq<MediaStream>)
    requires forall s :: s in streams ==> s !in leaving
    ensures Remaining(streams, leaving) == streams
  {
    if streams != [] {
      var last := |streams| - 1;
      RemainingAll(streams[..last], leaving);
      assert streams == streams[..last] + [streams[last]];
    }
  }

  /** Taking one stream out is taking out its only place. */
  lemma {:induction false} RemainingOne(before: seq<MediaStream>, stream: MediaStream, after: seq<MediaStream>)
    requires stream !in before && stream !in after
    ensures Remaining(before + [stream] + after, [stream]) == before + after
    decreases |after|
  {
    hide Remaining;
    if after == [] {
      RemainingLast(before, stream, [stream]);
      RemainingAll(before, [stream]);
      assert before + [stream] + [] == before + [stream] && before + [] == before;
    } else {
      var most, last := after[..|after| - 1], after[|after| - 1];
      RemainingOne(before, stream, most);
      RemainingLast(before + [stream] + most, last, [stream]);
      assert before + [stream] + after == (before + [stream] + most) + [last];
      assert before + after == (before + most) + [last];
    }
  }

  lemma {:induction false} RemainingTwice(streams: seq<MediaStream>, a: seq<MediaStream>, b: seq<MediaStream>)
    ensures Remaining(Remaining(streams, a), b) == Remaining(streams, a + b)
  {
    if streams == [] {
      RemainingAll(streams, a);
      RemainingAll(streams, b);
      RemainingAll(streams, a + b);
    } else {
      var most, last := streams[..|streams| - 1], streams[|streams| - 1];
      assert streams == most + [last];
      hide Remaining;
      RemainingTwice(most, a, b);
      RemainingTwiceMore(most, last, a, b);
    }
  }

  lemma RemainingTwiceMore(most: seq<MediaStream>, last: MediaStream, a: seq<MediaStream>, b: seq<MediaStream>)
    requires Remaining(Remaining(most, a), b) == Remaining(most, a + b)
    ensures Remaining(Remaining(most + [last], a), b) == Remaining(most + [last], a + b)
  {
    hide Remaining;
    RemainingLast(most, last, a);
    RemainingLast(most, last, a + b);
    if last in a {
      assert Remaining(most, a) + [] == Remaining(most, a);
    } else {
      RemainingLast(Remaining(most, a), last, b);
    }
  }

  lemma {:induction false} RemainingSame(streams: seq<MediaStream>, a: seq<MediaStream>, b: seq<MediaStream>)
    requires forall s :: s in streams ==> (s in a <==> s in b)
    ensures Remaining(streams, a) == Remaining(streams, b)
  {
    if streams != [] {
      RemainingSame(streams[..|streams| - 1], a, b);
    }
  }

  lemma {:induction false} RemainingDiffer(streams: seq<MediaStream>, leaving: seq<MediaStream>)
    requires NoRepeats(streams)
    ensures NoRepeats(Remaining(streams, leaving))
  {
    if streams != [] {
      RemainingDiffer(streams[..|streams| - 1], leaving);
    }
  }

  lemma RemainingKeeps(streams: seq<MediaStream>, leaving: seq<MediaStream>, stream: MediaStream)
    requires stream in streams && stream !in leaving
    ensures stream in Remaining(streams, leaving)
  {
  }

  /** When no two streams share a line, the lines that stay are those of the streams that stay. */
  lemma {:induction false} RemainingSlots(streams: seq<MediaStream>, leaving: seq<MediaStream>, gone: set<nat>)
    requires forall s :: s in streams ==> (s.index in gone <==> s in leaving)
    ensures SlotsOf(Remaining(streams, leaving)) == Without(SlotsOf(streams), gone)
  {
    hide Without;
    if streams == [] {
      WithoutNone([], gone);
    } else {
      var last := |streams| - 1;
      var most := streams[..last];
      RemainingSlots(most, leaving, gone);
      WithoutLast(SlotsOf(most), streams[last].index, gone);
      SlotsAppend(Remaining(most, leaving), [streams[last]]);
      SlotsAppend(Remaining(most, leaving), []);
      assert SlotsOf([streams[last]]) == [streams[last].index];
      assert Remaining(most, leaving) + [] == Remaining(most, leaving);
    }
  }

  lemma {:induction false} WithoutLast(slots: seq<nat>, slot: nat, gone: set<nat>)
    ensures Without(slots + [slot], gone) == Without(slots, gone) + if slot in gone then [] else [slot]
    decreases |slots|
  {
    WithoutUnfolds(slots + [slot], gone);
    if slots == [] {
      assert (slots + [slot])[1..] == [] && Without([], gone) == [];
    } else {
      WithoutLast(slots[1..], slot, gone);
      WithoutUnfolds(slots, gone);
      hide Without;
      assert (slots + [slot])[1..] == slots[1..] + [slot];
    }
  }

  method Position(streams: seq<MediaStream>, stream: MediaStream) returns (p: nat)
    requires stream in streams
    ensures p < |streams| && streams[p] == stream
  {
    p := 0;
    while streams[p] != stream
      invariant p < |streams| && stream !in streams[..p]
      decreases |streams| - p
    {
      assert streams == streams[..p] + [streams[p]] + streams[p + 1..];
      p := p + 1;
    }
  }

  lemma SlotsSlice(streams: seq<MediaStream>, i: nat, j: nat)
    requires i <= j <= |streams|
    ensures SlotsOf(streams[i..j]) == SlotsOf(streams)[i..j]
  {
    hide SlotsOf;
  }

  method Discard(streams: seq<MediaStream>, stream: MediaStream) returns (rest: seq<MediaStream>)
    requires stream in streams && NoRepeats(streams)
    ensures rest == Remaining(streams, [stream])
  {
    hide Remaining;
    var p := Position(streams, stream);
    RemainingOne(streams[..p], stream, streams[p + 1..]);
    assert streams == streams[..p] + [stream] + streams[p + 1..];
    rest := streams[..p] + streams[p + 1..];
  }

  /** Take the leaving streams out of the list and disable their lines. */
  method Leave(streams: seq<MediaStream>, leaving: seq<MediaStream>, media: seq<Media>)
    returns (rest: seq<MediaStream>, offer: seq<Media>)
    requires NoRepeats(streams) && NoRepeats(leaving)
    requires forall k :: 0 <= k < |leaving| ==> leaving[k] in streams && leaving[k].index < |media|
    ensures rest == Remaining(streams, leaving)
    ensures offer == Silence(media, Gone(leaving, streams))
  {
    hide Remaining;
    ghost var gone: set<nat> := {};
    RemainingAll(streams, []);
    assert leaving[..0] == [];
    rest, offer := streams, media;
    for i := 0 to |leaving|
      invariant |offer| == |media|
      invariant offer == Silence(media, gone)
      invariant gone == set k | 0 <= k < i :: leaving[k].index
      invariant rest == Remaining(streams, leaving[..i]) && NoRepeats(rest)
    {
      RemainingKeeps(streams, leaving[..i], leaving[i]);
      RemainingDiffer(rest, [leaving[i]]);
      RemainingTwice(streams, leaving[..i], [leaving[i]]);
      assert leaving[..i + 1] == leaving[..i] + [leaving[i]];
      rest := Discard(rest, leaving[i]);
      var index := leaving[i].index;
      offer := offer[index := Disabled(offer[index])];
      gone := gone + {index};
    }
    assert leaving[..|leaving|] == leaving;
    assert gone == Gone(leaving, streams);
  }

  lemma RemovedSlots(streams: seq<MediaStream>, requested: seq<MediaStream>)
    requires Distinct(SlotsOf(streams))
    ensures SlotsOf(Remaining(streams, requested)) == Without(SlotsOf(streams), Gone(requested, streams))
    ensures Gone(requested, streams) == {} ==> SlotsOf(Remaining(streams, requested)) == SlotsOf(streams)
  {
    hide Without, Remaining;
    var slots := SlotsOf(streams);
    assert forall k :: 0 <= k < |streams| ==> slots[k] == streams[k].index;
    RemainingSlots(streams, requested, Gone(requested, streams));
    if Gone(requested, streams) == {} {
      WithoutNone(slots, {});
    }
  }

  lemma RemovedTalk(t: Talk, streams: seq<MediaStream>, requested: seq<MediaStream>, outcome: Outcome)
    requires Good(t) && t.slots == SlotsOf(streams)
    ensures AfterRemove(t, Gone(requested, streams), outcome) ==
              if Gone(requested, streams) == {} then t.(slots := SlotsOf(Remaining(streams, requested)))
              else if outcome.Refused? then t.(slots := SlotsOf(Remaining(streams, requested)))
              else Talk(outcome.local, outcome.remote, SlotsOf(Remaining(streams, requested)))
  {
    hide Gone, Without, Remaining, SlotsOf;
    RemovedSlots(streams, requested);
  }

  lemma GoneAre(active: seq<MediaStream>, requested: seq<MediaStream>, leaving: seq<MediaStream>)
    requires forall k :: 0 <= k < |leaving| ==> leaving[k] in requested && leaving[k] in active
    requires forall s :: s in requested && s in active ==> s in leaving
    ensures Gone(leaving, active) == Gone(requested, active)
    ensures Gone(requested, active) == {} <==> leaving == []
  {
    if leaving != [] {
      assert leaving[0].index in Gone(requested, active);
    }
  }

  /** The streams made from the offer, one for each index. */
  method MakeStreams(n: nat, indexes: set<nat>, known: map<nat, Media>) returns (made: seq<MediaStream>)
    requires forall i :: i in indexes ==> i < n && i in known
    ensures fresh(made)
    ensures Distinct(SlotsOf(made))
    ensures forall i: nat :: i in SlotsOf(made) <==> i in indexes
    ensures forall s :: s in made ==> s.index in known && s.line == known[s.index]
  {
    made := [];
    for index := 0 to n
      invariant fresh(made)
      invariant forall k :: 0 <= k < |made| ==>
                              made[k].index in indexes && made[k].index < index && made[k].line == known[made[k].index]
      invariant forall j, k :: 0 <= j < k < |made| ==> made[j].index != made[k].index
      invariant forall i :: i in indexes && i < index ==> exists k :: 0 <= k < |made| && made[k].index == i
    {
      if index in indexes {
        var stream := new MediaStream(known[index], index);
        ghost var before := made;
        made := made + [stream];
        assert made[|before|].index == index;
        assert forall k :: 0 <= k < |before| ==> made[k] == before[k];
      }
    }
    assert forall k :: 0 <= k < |made| ==> SlotsOf(made)[k] == made[k].index;
  }

  /** The wanted streams that were proposed, as they come. */
  ghost function ProposedOnes(wanted: seq<MediaStream>, proposed: seq<MediaStream>): (chosen: seq<MediaStream>)
    ensures forall s :: s in chosen ==> s in wanted && s in proposed
    ensures forall s :: s in wanted && s in proposed ==> s in chosen
  {
    if wanted == [] then []
    else
      var last := |wanted| - 1;
      ProposedOnes(wanted[..last], proposed) + if wanted[last] in proposed then [wanted[last]] else []
  }

  method SelectProposed(wanted: seq<MediaStream>, proposed: seq<MediaStream>) returns (chosen: seq<MediaStream>)
    ensures chosen == ProposedOnes(wanted, proposed)
  {
    chosen := [];
    for i := 0 to |wanted|
      invariant chosen == ProposedOnes(wanted[..i], proposed)
    {
      assert wanted[..i + 1][..i] == wanted[..i];
      if wanted[i] in proposed {
        chosen := chosen + [wanted[i]];
      }
    }
    assert wanted[..|wanted|] == wanted;
  }

  class Session {
    var streams: seq<MediaStream>
    var proposed: seq<MediaStream>
    var local: seq<Media>
    var remote: seq<Media>

    ghost function View(): Talk
      reads this, streams
    {
      Talk(local, remote, SlotsOf(streams))
    }

    /** Start a session with `offered` streams; `local` and `remote` are the lines agreed on. */
    method Connect(offered: seq<MediaStream>, connection: string, local: seq<Media>, remote: seq<Media>)
      returns (offer: seq<Media>)
      requires NoRepeats(offered)
      requires |local| <= |remote| && |local| <= |offered|
      modifies this, offered
      ensures |offer| == |offered|
      ensures forall i :: 0 <= i < |offer| ==>
                          offered[i].index == i && offer[i] == FirstOffered(offered[i].line, connection)
      ensures View() == Talk(local, remote, LiveIndexes(remote, |local|))
      ensures forall s :: s in streams ==> s in offered
    {
      offer := LineUp(offered, connection);
      var started := StartLive(offered, remote, |local|);
      this.local, this.remote, this.streams := local, remote, started;
    }

    method AddStreams(requested: seq<MediaStream>, outcome: Outcome) returns (offer: seq<Media>)
      modifies this, requested
      ensures var wanted := NewOnes(requested, old(streams));
              && offer == Offer(old(local), LinesOf(wanted))
              && SlotsOf(wanted) == Slots(old(local), LinesOf(wanted))
              && View() == AfterAdd(old(View()), LinesOf(wanted), outcome)
    {
      hide SlotsOf, NewOnes, Slots, Offer, Accepted;
      var wanted := SelectNew(requested, streams);
      assert forall k :: 0 <= k < |wanted| ==> wanted[k] in requested && wanted[k] !in streams;
      assert forall k :: 0 <= k < |streams| ==> streams[k] !in wanted;
      offer := Place(wanted, local);
      assert forall k :: 0 <= k < |streams| ==> streams[k].index == old(streams[k].index);
      assert SlotsOf(streams) == old(SlotsOf(streams));
      if wanted == [] || outcome.Refused? {
        return;
      }
      local, remote := outcome.local, outcome.remote;
      if outcome.Broken? {
        return;
      }
      var accepted := Start(wanted, remote);
      if accepted.Some? {
        SlotsAppend(streams, accepted.value);
        streams := streams + accepted.value;
      }
    }

    /** Remove those of the requested streams that are active. */
    method RemoveStreams(requested: seq<MediaStream>, outcome: Outcome) returns (offer: seq<Media>)
      requires NoRepeats(streams) && forall s :: s in streams ==> s.index < |local|
      modifies this
      ensures offer == Silence(old(local), Gone(requested, old(streams)))
      ensures streams == Remaining(old(streams), requested)
      ensures Gone(requested, old(streams)) == {} || outcome.Refused? ==> local == old(local) && remote == old(remote)
      ensures Gone(requested, old(streams)) != {} && !outcome.Refused? ==>
                local == outcome.local && remote == outcome.remote
      ensures Good(old(View())) ==> View() == AfterRemove(old(View()), Gone(requested, old(streams)), outcome)
    {
      hide SlotsOf, NoRepeats, Silence, Gone, Remaining, Good, AfterRemove;
      var leaving := SelectActive(requested, streams);
      GoneAre(streams, requested, leaving);
      RemainingSame(streams, leaving, requested);
      if Good(View()) {
        RemovedTalk(View(), streams, requested, outcome);
      }
      streams, offer := Leave(streams, leaving, local);
      if leaving != [] && !outcome.Refused? {
        local, remote := outcome.local, outcome.remote;
      }
    }

    /** An offer from the peer: refuse it, or propose the new streams it brings to the application.  `known` holds, by
      * index, the line of the stream some stream type makes of the offered line. */
    method ReceiveProposal(offer: seq<Media>, valid: bool, known: map<nat, Media>) returns (verdict: Verdict)
      modifies this`proposed
      ensures verdict == Judge(offer, remote, valid, known.Keys)
      ensures !verdict.Proposed? ==> proposed == old(proposed)
      ensures verdict.Proposed? ==>
                && fresh(proposed)
                && Distinct(SlotsOf(proposed))
                && (forall i: nat :: i in SlotsOf(proposed) <==> i in verdict.indexes)
                && forall s :: s in proposed ==> s.index in known && s.line == known[s.index]
    {
      verdict := Classify(offer, remote, valid, known.Keys);
      if verdict.Proposed? {
        proposed := MakeStreams(|offer|, verdict.indexes, known);
      }
    }

    /** Accept those of the wanted streams that were proposed. */
    method AcceptProposal(wanted: seq<MediaStream>, offer: seq<Media>, connection: string, outcome: Outcome)
      returns (answer: seq<Media>)
      modifies this
      ensures var chosen := ProposedOnes(wanted, old(proposed));
              && answer == Answer(old(local), offer, LinesAt(chosen), connection)
              && View() == AfterAccept(old(View()), SlotsOf(chosen), outcome)
      ensures proposed == []
      ensures var chosen := ProposedOnes(wanted, old(proposed));
              Distinct(SlotsOf(chosen)) ==> forall s :: s in chosen && s.index < |offer| ==>
                IsOwnLine(answer[s.index], s.line, connection)
      ensures outcome.Agreed? ==> forall s :: s in ProposedOnes(wanted, old(proposed)) ==>
                s in streams && s.index in View().slots
      ensures forall s :: s in old(streams) ==> s in streams
    {
      hide SlotsOf, Answer, LinesAt, ProposedOnes;
      var chosen := SelectProposed(wanted, proposed);
      var lines := MapLines(chosen);
      answer := BuildAnswer(local, offer, lines, connection);
      OwnLines(local, offer, chosen, connection);
      proposed := [];
      SlotsAppend(streams, chosen);
      ghost var kept, added, known := SlotsOf(streams), SlotsOf(chosen), LinesAt(chosen);
      if !outcome.Refused? {
        local, remote := outcome.local, outcome.remote;
      }
      if outcome.Agreed? {
        streams := streams + chosen;
      }
      assert LinesAt(chosen) == known && SlotsOf(chosen) == added;
      assert SlotsOf(streams) == if outcome.Agreed? then kept + added else kept;
    }
  }
}
