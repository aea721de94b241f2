/** The media lines of a session's SDP and which stream owns which line (sipsimple/session.py).
  *
  * A stream keeps the index of its line for as long as it is active.  Lines are never deleted: a removed stream's
  * line gets port 0, and the next stream added takes the first such line.  This module states on values what the
  * methods of module SessionStreams do; module MediaTalks proves what holds over every run. */
module MediaSlots {
  import opened Wrappers

  /** One media line.  `ice` says whether the line carries ICE attributes or candidates. */
  datatype Media = Media(
    kind: string, port: nat, connection: Option<string>, ice: bool, attributes: seq<string>, bandwidth: seq<string>)

  function Disabled(media: Media): Media {
    media.(port := 0, attributes := [], bandwidth := [])
  }

  predicate Distinct(slots: seq<nat>) {
    forall i, j :: 0 <= i < j < |slots| ==> slots[i] != slots[j]
  }

  // ------------------------------------------------------------------ choosing lines for new streams

  function FirstFree(media: seq<Media>): (index: nat)
    ensures index <= |media|
    ensures forall i :: 0 <= i < index ==> media[i].port != 0
    ensures index < |media| ==> media[index].port == 0
  {
    if media == [] || media[0].port == 0 then 0 else 1 + FirstFree(media[1..])
  }

  function Put(media: seq<Media>, line: Media): seq<Media> {
    var index := FirstFree(media);
    if index < |media| then media[index := line] else media + [line]
  }

  /** The offer that adds `lines`, one after the other. */
  function Offer(media: seq<Media>, lines: seq<Media>): seq<Media>
    decreases |lines|
  {
    if lines == [] then media else Offer(Put(media, lines[0]), lines[1..])
  }

  /** The index each of `lines` gets in that offer. */
  function Slots(media: seq<Media>, lines: seq<Media>): (slots: seq<nat>)
    ensures |slots| == |lines|
    decreases |lines|
  {
    if lines == [] then [] else [FirstFree(media)] + Slots(Put(media, lines[0]), lines[1..])
  }

  /** The indexes of the disabled lines, in ascending order. */
  ghost function Free(media: seq<Media>): (free: seq<nat>)
    ensures forall k :: 0 <= k < |free| ==> free[k] < |media| && media[free[k]].port == 0
    ensures forall j, k :: 0 <= j < k < |free| ==> free[j] < free[k]
    ensures forall i :: 0 <= i < |media| && media[i].port == 0 ==> i in free
    ensures |free| <= |media|
  {
    if media == [] then []
    else
      var last := |media| - 1;
      Free(media[..last]) + if media[last].port == 0 then [last] else []
  }

  /** The `k`-th index handed out: the disabled lines first, then new ones at the end. */
  ghost function Nth(media: seq<Media>, k: nat): nat {
    if k < |Free(media)| then Free(media)[k] else |media| + k - |Free(media)|
  }

  ghost predicate AllLive(lines: seq<Media>) {
    forall i :: 0 <= i < |lines| ==> lines[i].port != 0
  }

  lemma {:induction false} AscendingUnique(a: seq<nat>, b: seq<nat>)
    requires forall j, k :: 0 <= j < k < |a| ==> a[j] < a[k]
    requires forall j, k :: 0 <= j < k < |b| ==> b[j] < b[k]
    requires forall x :: x in a <==> x in b
    ensures a == b
  {
    if a == [] {
      assert forall k :: 0 <= k < |b| ==> b[k] in a;
    } else {
      assert a[0] in a; assert a[0] in b;
      assert b[0] in b; assert b[0] in a;
      assert a[0] == b[0];
      forall x ensures x in a[1..] <==> x in b[1..] {
        assert x in a <==> x in b;
      }
      AscendingUnique(a[1..], b[1..]);
      assert a == [a[0]] + a[1..] && b == [b[0]] + b[1..];
    }
  }

  /** A live line put into the offer uses up the first disabled line, or extends the offer when there is none. */
  lemma FreePut(media: seq<Media>, line: Media)
    requires line.port != 0
    ensures Free(media) == [] ==> Put(media, line) == media + [line] && Free(Put(media, line)) == []
    ensures Free(media) != [] ==>
              && FirstFree(media) == Free(media)[0]
              && |Put(media, line)| == |media|
              && Free(Put(media, line)) == Free(media)[1..]
  {
    var after := Put(media, line);
    FirstFreeIsFirst(media);
    if Free(media) == [] {
      assert forall i :: 0 <= i < |after| ==> after[i].port != 0;
    } else {
      FreeUpdate(media, line);
    }
  }

  lemma FreeUpdate(media: seq<Media>, line: Media)
    requires line.port != 0 && Free(media) != []
    ensures Free(media[Free(media)[0] := line]) == Free(media)[1..]
  {
    var free := Free(media);
    var after := media[free[0] := line];
    forall x ensures x in free[1..] <==> x in Free(after) {
      if x in free[1..] {
        assert after[x] == media[x];
      }
      if x in Free(after) {
        assert media[x].port == 0;
        assert x in free;
      }
    }
    AscendingUnique(Free(after), free[1..]);
  }

  lemma FirstFreeIsFirst(media: seq<Media>)
    ensures FirstFree(media) == Nth(media, 0)
    ensures FirstFree(media) < |media| <==> Free(media) != []
  {
    var index, free := FirstFree(media), Free(media);
    if free == [] {
      assert index == |media|;
    } else {
      assert media[free[0]].port == 0;
      assert index in free;
    }
  }

  lemma NthAscends(media: seq<Media>, j: nat, k: nat)
    requires j < k
    ensures Nth(media, j) < Nth(media, k)
  {
    if j < |Free(media)| { assert Free(media)[j] < |media|; }
  }

  lemma NthAfterPut(media: seq<Media>, line: Media, k: nat)
    requires line.port != 0
    ensures Nth(Put(media, line), k) == Nth(media, k + 1)
    ensures |Put(media, line)| == if Free(media) == [] then |media| + 1 else |media|
  {
    hide Free;
    FreePut(media, line);
  }

  /** Disabled lines are reused first, in order, and only then does the offer grow.  The last stream's own line may
    * even be disabled. */
  lemma {:induction false} SlotsTakeFreeLinesFirst(media: seq<Media>, lines: seq<Media>)
    requires lines == [] || AllLive(lines[..|lines| - 1])
    ensures forall k :: 0 <= k < |lines| ==> Slots(media, lines)[k] == Nth(media, k)
    ensures |Offer(media, lines)| == if |lines| <= |Free(media)| then |media| else |media| + |lines| - |Free(media)|
    decreases |lines|
  {
    hide Free, Nth, Put;
    if lines != [] {
      var after, rest := Put(media, lines[0]), lines[1..];
      FirstFreeIsFirst(media);
      assert Slots(media, lines) == [Nth(media, 0)] + Slots(after, rest);
      assert Offer(media, lines) == Offer(after, rest);
      if |lines| == 1 {
        OfferOfOne(media, lines[0]);
      } else {
        assert lines[0] == lines[..|lines| - 1][0];
        assert rest[..|rest| - 1] == lines[..|lines| - 1][1..];
        FreePut(media, lines[0]);
        SlotsTakeFreeLinesFirst(after, rest);
        forall k | 1 <= k < |lines| ensures Slots(media, lines)[k] == Nth(media, k) {
          NthAfterPut(media, lines[0], k - 1);
        }
        NthAfterPut(media, lines[0], 0);
      }
    }
  }

  lemma OfferOfOne(media: seq<Media>, line: Media)
    ensures |Put(media, line)| == if Free(media) == [] then |media| + 1 else |media|
  {
    FirstFreeIsFirst(media);
  }

  /** Streams added together get different lines exactly when none but the last brings a disabled line of its own. */
  lemma {:induction false} SlotsAreDistinct(media: seq<Media>, lines: seq<Media>)
    ensures Distinct(Slots(media, lines)) <==> lines == [] || AllLive(lines[..|lines| - 1])
    decreases |lines|
  {
    hide Free, Nth, Put, FirstFree;
    var slots := Slots(media, lines);
    if lines == [] || AllLive(lines[..|lines| - 1]) {
      SlotsTakeFreeLinesFirst(media, lines);
      forall j, k | 0 <= j < k < |slots| ensures slots[j] != slots[k] {
        NthAscends(media, j, k);
      }
    } else if lines[0].port == 0 {
      var after, rest := Put(media, lines[0]), lines[1..];
      assert rest != [];
      SameFirstFree(media, lines[0]);
      assert slots[1] == Slots(after, rest)[0] == slots[0];
    } else {
      var after, rest := Put(media, lines[0]), lines[1..];
      var bad :| 0 <= bad < |lines| - 1 && lines[bad].port == 0;
      assert rest[..|rest| - 1][bad - 1].port == 0;
      SlotsAreDistinct(after, rest);
      var i: nat, j: nat :| 0 <= i < j < |rest| && Slots(after, rest)[i] == Slots(after, rest)[j];
      assert slots[i + 1] == slots[j + 1];
    }
  }

  lemma SameFirstFree(media: seq<Media>, line: Media)
    requires line.port == 0
    ensures FirstFree(Put(media, line)) == FirstFree(media)
  {
    var after, index := Put(media, line), FirstFree(media);
    assert after[index].port == 0;
    assert forall i :: 0 <= i < index ==> after[i] == media[i];
  }

  /** An offer keeps every live line where it was and holds each new line at its index. */
  lemma {:induction false} OfferKeepsLiveLines(media: seq<Media>, lines: seq<Media>)
    requires AllLive(lines)
    ensures |media| <= |Offer(media, lines)|
    ensures forall i :: 0 <= i < |media| && media[i].port != 0 ==>
                          Offer(media, lines)[i] == media[i] && i !in Slots(media, lines)
    ensures forall k :: 0 <= k < |lines| ==>
                          Slots(media, lines)[k] < |Offer(media, lines)|
                              && Offer(media, lines)[Slots(media, lines)[k]] == lines[k]
    ensures forall i :: 0 <= i < |Offer(media, lines)| && i !in Slots(media, lines) ==>
                          i < |media| && Offer(media, lines)[i] == media[i]
    decreases |lines|
  {
    if lines != [] {
      var after, rest := Put(media, lines[0]), lines[1..];
      var index := FirstFree(media);
      OfferKeepsLiveLines(after, rest);
      var offer, slots := Offer(media, lines), Slots(media, lines);
      assert slots == [index] + Slots(after, rest);
      assert after[index] == lines[0];
      forall k | 0 <= k < |lines| ensures slots[k] < |offer| && offer[slots[k]] == lines[k] {
        if k > 0 {
          assert slots[k] == Slots(after, rest)[k - 1];
          assert lines[k] == rest[k - 1];
        }
      }
      forall i | 0 <= i < |media| && media[i].port != 0 ensures offer[i] == media[i] && i !in slots {
        assert after[i] == media[i];
      }
      forall i | 0 <= i < |offer| && i !in slots ensures i < |media| && offer[i] == media[i] {
        assert i != index;
        assert i !in Slots(after, rest);
      }
    }
  }
}
