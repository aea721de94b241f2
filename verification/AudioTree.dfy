/** A tree of bridges behaves as one flat bridge: audio gets from every leaf to every other
    leaf along exactly one path of connections, and from no leaf back to itself. */
module AudioTree {
  import opened Wrappers
  import opened AudioMesh

  /** Ports and the bridges they are on: `parent` is None on the root bridge, and some other
      port, itself a bridge, further down. `depth` counts the bridges above a port. */
  datatype Network<!P> = Network(face: map<P, Face>, parent: map<P, Option<P>>, bridges: set<P>, depth: map<P, nat>)

  ghost predicate Valid<P>(n: Network<P>) {
    && n.parent.Keys == n.face.Keys == n.depth.Keys
    && n.bridges <= n.face.Keys
    && (forall b :: b in n.bridges ==> n.face[b].producer.Some? && n.face[b].consumer.Some?)
    && (forall p :: p in n.face && n.parent[p].Some? ==>
          n.parent[p].value in n.bridges && n.depth[n.parent[p].value] < n.depth[p])
    && SlotsDistinct(n)
  }

  /** Live ports have slots of their own, and the slots of the multiplexer and demultiplexer of
      a bridge are in use for nothing else. */
  ghost predicate SlotsDistinct<P>(n: Network<P>)
    requires n.bridges <= n.face.Keys
  {
    && (forall p, q :: p in n.face && q in n.face && p != q ==> DistinctFaces(n.face[p], n.face[q]))
    && (forall p, b :: p in n.face && b in n.bridges ==>
          && (n.face[p].producer.Some? ==> n.face[p].producer != n.face[b].consumer)
          && (n.face[p].consumer.Some? ==> n.face[p].consumer != n.face[b].producer))
  }

  /** A bridge as the ports on it see it. */
  function Inner<P>(n: Network<P>, b: P): Face
    requires b in n.face
  {
    Face(n.face[b].consumer, n.face[b].producer)
  }

  /** The bridge of a port, or the root bridge, with the ports on it. */
  function BridgeOf<P(==)>(n: Network<P>, b: Option<P>): Bridge<P>
    requires n.parent.Keys == n.face.Keys && (b.Some? ==> b.value in n.face)
  {
    Bridge(if b.Some? then Inner(n, b.value) else NO_FACE, map p | p in n.face && n.parent[p] == b :: n.face[p])
  }

  /** A connection made by some bridge of the network. */
  ghost predicate Edge<P>(n: Network<P>, x: Slot, y: Slot)
    requires n.parent.Keys == n.face.Keys && n.bridges <= n.face.Keys
    requires forall p :: p in n.face && n.parent[p].Some? ==> n.parent[p].value in n.bridges
  {
    || (exists p, q ::
        p in n.face && q in n.face && p != q && n.parent[p] == n.parent[q]
        && (x, y) in Link(n.face[p], n.face[q]))
    || (exists p :: p in n.face && n.parent[p].Some? && (x, y) in Link(n.face[p], Inner(n, n.parent[p].value)))
    || (exists p :: p in n.face && n.parent[p].Some? && (x, y) in Link(Inner(n, n.parent[p].value), n.face[p]))
  }

  /** Edges are exactly the connections of the full meshes of the bridges. */
  lemma EdgesAreMeshes<P>(n: Network<P>, x: Slot, y: Slot)
    requires Valid(n)
    ensures Edge(n, x, y) <==>
      (x, y) in Mesh(BridgeOf(n, None)) || exists b :: b in n.bridges && (x, y) in Mesh(BridgeOf(n, Some(b)))
  {
    if p, q :|
        p in n.face && q in n.face && p != q && n.parent[p] == n.parent[q]
        && (x, y) in Link(n.face[p], n.face[q]) {
      var b := BridgeOf(n, n.parent[p]);
      assert p in b.ports && q in b.ports;
      assert (x, y) in Mesh(b);
    } else if p :|
        p in n.face && n.parent[p].Some?
        && (x, y) in Link(n.face[p], Inner(n, n.parent[p].value)) + Link(Inner(n, n.parent[p].value), n.face[p]) {
      var b := BridgeOf(n, n.parent[p]);
      assert p in b.ports;
      assert (x, y) in Mesh(b);
    }
  }

  /** Port `q` is `c` or on a bridge below it. */
  ghost predicate Under<P>(n: Network<P>, q: P, c: P)
    requires Valid(n) && q in n.face
    decreases n.depth[q]
  {
    q == c || (n.parent[q].Some? && Under(n, n.parent[q].value, c))
  }

  /** The port that `q` is under, among those directly on bridge `b`; `q` must be below `b`. */
  ghost function Toward<P>(n: Network<P>, q: P, b: Option<P>): (c: P)
    requires Valid(n) && q in n.face
    requires b.Some? ==> Under(n, q, b.value) && q != b.value
    ensures c in n.face && n.parent[c] == b && Under(n, q, c)
    decreases n.depth[q]
  {
    if n.parent[q] == b then q else Toward(n, n.parent[q].value, b)
  }

  /** Two ports on one bridge have nothing below them in common. */
  lemma {:induction false} OneAncestor<P>(n: Network<P>, q: P, c: P, d: P)
    requires Valid(n) && q in n.face && c in n.face && d in n.face
    requires Under(n, q, c) && Under(n, q, d) && n.parent[c] == n.parent[d]
    ensures c == d
    decreases n.depth[q]
  {
    if c != d {
      if q == c {
        DepthBelow(n, n.parent[q].value, d);
      } else if q == d {
        DepthBelow(n, n.parent[q].value, c);
      } else {
        OneAncestor(n, n.parent[q].value, c, d);
      }
    }
  }

  lemma {:induction false} DepthBelow<P>(n: Network<P>, q: P, c: P)
    requires Valid(n) && q in n.face && Under(n, q, c)
    ensures c in n.face && n.depth[c] <= n.depth[q]
    decreases n.depth[q]
  {
    if q != c {
      DepthBelow(n, n.parent[q].value, c);
    }
  }

  /** What is below a port is below the bridge the port is on. */
  lemma {:induction false} UnderParent<P>(n: Network<P>, q: P, c: P)
    requires Valid(n) && q in n.face && c in n.face && Under(n, q, c) && n.parent[c].Some?
    ensures Under(n, q, n.parent[c].value) && q != n.parent[c].value
    decreases n.depth[q]
  {
    if q == c {
    } else {
      UnderParent(n, n.parent[q].value, c);
    }
    DepthBelow(n, q, c);
  }

  // ---------------------------------------------------------------- paths

  /** A slot that forwards what is written to it: the multiplexer or demultiplexer of a bridge. */
  ghost predicate Forwards<P>(n: Network<P>, x: Slot) {
    exists b :: b in n.bridges && b in n.face && (n.face[b].producer == Some(x) || n.face[b].consumer == Some(x))
  }

  ghost predicate IsSource<P>(n: Network<P>, x: Slot) {
    exists p :: p in n.face && (n.face[p].producer == Some(x) || (p in n.bridges && n.face[p].consumer == Some(x)))
  }

  ghost predicate IsSink<P>(n: Network<P>, y: Slot) {
    exists p :: p in n.face && (n.face[p].consumer == Some(y) || (p in n.bridges && n.face[p].producer == Some(y)))
  }

  /** The mixer connects slots of the network exactly as the bridges do. */
  ghost predicate Carries<P>(connections: set<Connection>, n: Network<P>)
    requires Valid(n)
  {
    forall x: Slot, y: Slot :: IsSource(n, x) && IsSink(n, y) ==> ((x, y) in connections <==> Edge(n, x, y))
  }

  ghost predicate OnTree<P>(n: Network<P>, b: Option<P>) {
    b.Some? ==> b.value in n.bridges
  }

  lemma BridgesDistinct<P>(n: Network<P>, b: Option<P>)
    requires Valid(n) && OnTree(n, b)
    ensures Distinct(BridgeOf(n, b))
  {
  }

  /** If every bridge keeps its full mesh and no connection joins slots that are on no bridge
      together, the mixer carries exactly what the bridges make. */
  lemma MeshesCarry<P>(connections: set<Connection>, n: Network<P>)
    requires Valid(n)
    requires forall b :: OnTree(n, b) ==> Meshed(connections, BridgeOf(n, b))
    requires forall c :: c in connections && IsSource(n, c.0) && IsSink(n, c.1) ==>
      exists b :: OnTree(n, b) && c.0 in Sources(BridgeOf(n, b)) && c.1 in Sinks(BridgeOf(n, b))
    ensures Carries(connections, n)
  {
    hide Edge, Meshed, Distinct, Sources, Sinks, Mesh, SlotsDistinct;
    forall x: Slot, y: Slot | IsSource(n, x) && IsSink(n, y) ensures (x, y) in connections <==> Edge(n, x, y) {
      EdgesAreMeshes(n, x, y);
      if (x, y) in connections {
        var b :| OnTree(n, b) && x in Sources(BridgeOf(n, b)) && y in Sinks(BridgeOf(n, b));
        BridgesDistinct(n, b);
        OwnedConnections(connections, BridgeOf(n, b));
        assert (x, y) in Mesh(BridgeOf(n, b));
      }
      if Edge(n, x, y) {
        var b :| OnTree(n, b) && (x, y) in Mesh(BridgeOf(n, b));
        BridgesDistinct(n, b);
        OwnedConnections(connections, BridgeOf(n, b));
      }
    }
  }

  /** Audio read from the first slot reaches the last through slots that forward it. */
  ghost predicate Path<P>(connections: set<Connection>, n: Network<P>, s: seq<Slot>) {
    && |s| >= 2
    && (forall i :: 0 <= i < |s| - 1 ==> (s[i], s[i + 1]) in connections)
    && (forall i :: 0 < i < |s| - 1 ==> Forwards(n, s[i]))
  }

  /** Where audio is on its way: leaving a port towards the root, or entering a port. */
  datatype Place<P> = Up(port: P) | Down(port: P)

  ghost predicate IsPlace<P>(n: Network<P>, at: Place<P>) {
    at.port in n.face && if at.Up? then n.face[at.port].producer.Some? else n.face[at.port].consumer.Some?
  }

  ghost function SlotOf<P>(n: Network<P>, at: Place<P>): Slot
    requires IsPlace(n, at)
  {
    if at.Up? then n.face[at.port].producer.value else n.face[at.port].consumer.value
  }

  /** Audio leaving a port does not get back below it; audio entering a bridge stays below it. */
  ghost predicate Reaches<P>(n: Network<P>, at: Place<P>, q: P)
    requires Valid(n) && q in n.face
  {
    if at.Up? then !Under(n, q, at.port) else Under(n, q, at.port)
  }

  ghost predicate IsLeaf<P>(n: Network<P>, q: P) {
    q in n.face && q !in n.bridges
  }

  lemma {:induction false} AboveIsBridge<P>(n: Network<P>, q: P, c: P)
    requires Valid(n) && q in n.face && Under(n, q, c) && q != c
    ensures c in n.bridges
    decreases n.depth[q]
  {
    if n.parent[q].value != c {
      AboveIsBridge(n, n.parent[q].value, c);
    }
  }

  /** The one place to go next on the way to a leaf. */
  ghost function Next<P>(n: Network<P>, at: Place<P>, q: P): (next: Place<P>)
    requires Valid(n) && IsLeaf(n, q) && n.face[q].consumer.Some?
    requires IsPlace(n, at) && Reaches(n, at, q) && at != Down(q)
    ensures IsPlace(n, next) && Reaches(n, next, q)
    ensures next.Up? ==> at.Up? && n.depth[next.port] < n.depth[at.port]
    ensures next.Down? && at.Down? ==> n.depth[at.port] < n.depth[next.port]
    ensures next != Down(q) ==> next.port in n.bridges
  {
    if at.Up? && n.parent[at.port].Some? && !Under(n, q, n.parent[at.port].value) then
      Up(n.parent[at.port].value)
    else
      var c := Toward(n, q, if at.Up? then n.parent[at.port] else Some(at.port));
      assert c != q ==> c in n.bridges by { if c != q { AboveIsBridge(n, q, c); } }
      Down(c)
  }

  /** How far a place is from where audio turns around, or from the leaf it goes down to. */
  ghost function Remaining<P>(n: Network<P>, at: Place<P>, q: P): nat
    requires Valid(n) && IsPlace(n, at) && q in n.face
  {
    if at.Up? then n.depth[at.port] else if n.depth[at.port] <= n.depth[q] then n.depth[q] - n.depth[at.port] else 0
  }

  lemma NextIsCloser<P>(n: Network<P>, at: Place<P>, q: P)
    requires Valid(n) && IsLeaf(n, q) && n.face[q].consumer.Some?
    requires IsPlace(n, at) && Reaches(n, at, q) && at != Down(q)
    ensures var next := Next(n, at, q);
            (at.Up? && next.Down?) || (at.Up? == next.Up? && Remaining(n, next, q) < Remaining(n, at, q))
  {
    var next := Next(n, at, q);
    if next.Down? {
      DepthBelow(n, q, next.port);
    }
  }

  /** The slots audio passes on its way to a leaf. */
  ghost function Route<P>(n: Network<P>, at: Place<P>, q: P): (s: seq<Slot>)
    requires Valid(n) && IsLeaf(n, q) && n.face[q].consumer.Some?
    requires IsPlace(n, at) && Reaches(n, at, q)
    ensures |s| >= 1 && s[0] == SlotOf(n, at) && s[|s| - 1] == n.face[q].consumer.value
    ensures at != Down(q) ==> |s| >= 2
    decreases at.Up?, Remaining(n, at, q)
  {
    if at == Down(q) then [n.face[q].consumer.value]
    else
      var next := Next(n, at, q);
      NextIsCloser(n, at, q);
      [SlotOf(n, at)] + Route(n, next, q)
  }

  ghost predicate IsHop<P>(n: Network<P>, at: Place<P>, to: Place<P>)
    requires Valid(n)
  {
    && IsPlace(n, at) && IsPlace(n, to)
    && if at.Up? then
         if to.Up? then n.parent[at.port] == Some(to.port)
         else n.parent[to.port] == n.parent[at.port] && to.port != at.port
       else to.Down? && n.parent[to.port] == Some(at.port)
  }

  lemma ProducerPlace<P>(n: Network<P>, at: Place<P>, p: P)
    requires Valid(n) && IsPlace(n, at) && (at.Down? ==> at.port in n.bridges)
    requires p in n.face && n.face[p].producer == Some(SlotOf(n, at))
    ensures at == Up(p)
  {
  }

  lemma ConsumerPlace<P>(n: Network<P>, at: Place<P>, b: P)
    requires Valid(n) && IsPlace(n, at)
    requires b in n.bridges && n.face[b].consumer == Some(SlotOf(n, at))
    ensures at == Down(b)
  {
  }

  ghost predicate InNetwork<P>(n: Network<P>, at: Place<P>)
    requires Valid(n)
  {
    IsPlace(n, at) && (at.Down? ==> at.port in n.bridges)
  }

  lemma SiblingIsHop<P>(n: Network<P>, at: Place<P>, y: Slot, p: P, q: P)
    requires Valid(n) && InNetwork(n, at)
    requires p in n.face && q in n.face && p != q && n.parent[p] == n.parent[q]
    requires (SlotOf(n, at), y) in Link(n.face[p], n.face[q])
    ensures IsHop(n, at, Down(q)) && SlotOf(n, Down(q)) == y
  {
    hide SlotsDistinct;
    ProducerPlace(n, at, p);
  }

  lemma ParentIsHop<P>(n: Network<P>, at: Place<P>, y: Slot, p: P)
    requires Valid(n) && InNetwork(n, at) && p in n.face && n.parent[p].Some?
    requires (SlotOf(n, at), y) in Link(n.face[p], Inner(n, n.parent[p].value))
    ensures IsHop(n, at, Up(n.parent[p].value)) && SlotOf(n, Up(n.parent[p].value)) == y
  {
    hide SlotsDistinct;
    ProducerPlace(n, at, p);
  }

  lemma ChildIsHop<P>(n: Network<P>, at: Place<P>, y: Slot, p: P)
    requires Valid(n) && InNetwork(n, at) && p in n.face && n.parent[p].Some?
    requires (SlotOf(n, at), y) in Link(Inner(n, n.parent[p].value), n.face[p])
    ensures IsHop(n, at, Down(p)) && SlotOf(n, Down(p)) == y
  {
    hide SlotsDistinct;
    ConsumerPlace(n, at, n.parent[p].value);
  }

  /** A connection from a place goes to one of the places one hop away. */
  lemma EdgeIsHop<P>(n: Network<P>, at: Place<P>, y: Slot) returns (to: Place<P>)
    requires Valid(n) && InNetwork(n, at) && Edge(n, SlotOf(n, at), y)
    ensures IsHop(n, at, to) && SlotOf(n, to) == y
  {
    hide SlotsDistinct, Link, Inner;
    var x := SlotOf(n, at);
    if p, q :|
        p in n.face && q in n.face && p != q && n.parent[p] == n.parent[q]
        && (x, y) in Link(n.face[p], n.face[q]) {
      SiblingIsHop(n, at, y, p, q);
      to := Down(q);
    } else if p :| p in n.face && n.parent[p].Some? && (x, y) in Link(n.face[p], Inner(n, n.parent[p].value)) {
      ParentIsHop(n, at, y, p);
      to := Up(n.parent[p].value);
    } else {
      var p :| p in n.face && n.parent[p].Some? && (x, y) in Link(Inner(n, n.parent[p].value), n.face[p]);
      ChildIsHop(n, at, y, p);
      to := Down(p);
    }
  }

  lemma HopIsEdge<P>(n: Network<P>, at: Place<P>, to: Place<P>)
    requires Valid(n) && IsHop(n, at, to)
    ensures Edge(n, SlotOf(n, at), SlotOf(n, to))
  {
    var c := (SlotOf(n, at), SlotOf(n, to));
    if at.Down? {
      assert c in Link(Inner(n, n.parent[to.port].value), n.face[to.port]);
    } else if to.Up? {
      assert c in Link(n.face[at.port], Inner(n, n.parent[at.port].value));
    } else {
      assert c in Link(n.face[at.port], n.face[to.port]);
    }
  }

  /** A hop to where a leaf can be reached from is the one that `Next` names. */
  lemma HopTowardIsNext<P>(n: Network<P>, at: Place<P>, to: Place<P>, q: P)
    requires Valid(n) && IsLeaf(n, q) && n.face[q].consumer.Some?
    requires IsHop(n, at, to) && Reaches(n, to, q)
    ensures at != Down(q) && Reaches(n, at, q) && to == Next(n, at, q)
  {
    if at.Down? {
      UnderParent(n, q, to.port);
      OneAncestor(n, q, to.port, Toward(n, q, Some(at.port)));
    } else if to.Up? {
      if Under(n, q, at.port) {
        UnderParent(n, q, at.port);
      }
    } else {
      if Under(n, q, at.port) {
        OneAncestor(n, q, at.port, to.port);
      }
      if n.parent[to.port].Some? {
        UnderParent(n, q, to.port);
      }
      OneAncestor(n, q, to.port, Toward(n, q, n.parent[at.port]));
    }
  }

  lemma NextIsHop<P>(n: Network<P>, at: Place<P>, q: P)
    requires Valid(n) && IsLeaf(n, q) && n.face[q].consumer.Some?
    requires IsPlace(n, at) && Reaches(n, at, q) && at != Down(q)
    ensures IsHop(n, at, Next(n, at, q))
  {
  }

  // ---------------------------------------------------------------- one path and no other

  /** A slot of a place is in use for no other place. */
  lemma PlaceOfSlot<P>(n: Network<P>, at: Place<P>, q: P)
    requires Valid(n) && IsPlace(n, at)
    ensures q in n.face && n.face[q].consumer == Some(SlotOf(n, at)) && (at.Up? ==> at.port in n.bridges) ==>
        at == Down(q)
    ensures at.Down? && Forwards(n, SlotOf(n, at)) ==> at.port in n.bridges
  {
  }

  lemma {:induction false} PathIsRoute<P>(connections: set<Connection>, n: Network<P>, s: seq<Slot>, at: Place<P>, q: P)
    requires Valid(n) && Carries(connections, n) && Path(connections, n, s)
    requires IsPlace(n, at) && (at.Down? ==> at.port in n.bridges)
    requires IsLeaf(n, q) && n.face[q].consumer.Some?
    requires s[0] == SlotOf(n, at) && s[|s| - 1] == n.face[q].consumer.value
    ensures Reaches(n, at, q) && s == Route(n, at, q)
    decreases |s|
  {
    hide Edge, Under, Toward, Next;
    assert IsSource(n, s[0]) && IsSink(n, s[1]) && (s[0], s[1]) in connections;
    var to := EdgeIsHop(n, at, s[1]);
    PlaceOfSlot(n, to, q);
    if |s| == 2 {
      assert to == Down(q);
      assert Reaches(n, to, q) by { UnderSelf(n, q); }
      HopTowardIsNext(n, at, to, q);
      assert s == [s[0]] + [s[1]];
    } else {
      PathTail(connections, n, s);
      PathIsRoute(connections, n, s[1..], to, q);
      HopTowardIsNext(n, at, to, q);
      assert s == [s[0]] + s[1..];
    }
  }

  lemma UnderSelf<P>(n: Network<P>, q: P)
    requires Valid(n) && q in n.face
    ensures Under(n, q, q)
  {
  }

  lemma PathTail<P>(connections: set<Connection>, n: Network<P>, s: seq<Slot>)
    requires Path(connections, n, s) && |s| > 2
    ensures Path(connections, n, s[1..]) && Forwards(n, s[1])
  {
    var t := s[1..];
    forall i | 0 <= i < |t| - 1 ensures (t[i], t[i + 1]) in connections && (i > 0 ==> Forwards(n, t[i])) {
      assert t[i] == s[i + 1] && t[i + 1] == s[i + 2];
    }
  }

  lemma {:induction false} RouteIsPath<P>(connections: set<Connection>, n: Network<P>, at: Place<P>, q: P)
    requires Valid(n) && Carries(connections, n) && IsLeaf(n, q) && n.face[q].consumer.Some?
    requires IsPlace(n, at) && (at.Down? ==> at.port in n.bridges) && Reaches(n, at, q)
    ensures Path(connections, n, Route(n, at, q))
    decreases at.Up?, Remaining(n, at, q)
  {
    hide Edge, Under, Toward, Reaches, Next, Remaining, SlotsDistinct;
    assert at != Down(q);
    var next := Next(n, at, q);
    NextIsHop(n, at, q);
    HopIsEdge(n, at, next);
    assert IsSource(n, SlotOf(n, at)) && IsSink(n, SlotOf(n, next));
    NextIsCloser(n, at, q);
    if next != Down(q) {
      RouteIsPath(connections, n, next, q);
    }
  }

  /** Every leaf that can produce audio is heard by every other leaf that can consume it, along
      exactly one path, and by itself along none. */
  lemma FlatBridge<P>(connections: set<Connection>, n: Network<P>, p: P, q: P)
    requires Valid(n) && Carries(connections, n)
    requires IsLeaf(n, p) && n.face[p].producer.Some? && IsLeaf(n, q) && n.face[q].consumer.Some?
    ensures p == q ==> forall s :: Path(connections, n, s) && s[0] == n.face[p].producer.value ==>
        s[|s| - 1] != n.face[q].consumer.value
    ensures p != q ==> Reaches(n, Up(p), q) && var route := Route(n, Up(p), q);
      && Path(connections, n, route)
      && route[0] == n.face[p].producer.value && route[|route| - 1] == n.face[q].consumer.value
      && forall s ::
          (Path(connections, n, s) && s[0] == n.face[p].producer.value
           && s[|s| - 1] == n.face[q].consumer.value)
          ==> s == route
  {
    if p == q {
      UnderSelf(n, q);
    } else {
      if Under(n, q, p) {
        AboveIsBridge(n, q, p);
      }
      RouteIsPath(connections, n, Up(p), q);
    }
    forall s | Path(connections, n, s) && s[0] == n.face[p].producer.value && s[|s| - 1] == n.face[q].consumer.value
      ensures Reaches(n, Up(p), q) && s == Route(n, Up(p), q)
    {
      PathIsRoute(connections, n, s, Up(p), q);
    }
  }
}
