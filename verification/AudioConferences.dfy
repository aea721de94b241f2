/** Several bridges on one mixer: those of the streams of an application, the bridge of a
    conference the streams join and leave, and any others. */
module AudioConferences {
  import opened Wrappers
  import opened AudioMesh
  import AudioTree

  datatype Place<!S(==)> = Main | Of(stream: S) | Elsewhere(n: nat)

  /** The connections of the mixer, and the bridges that make them. */
  datatype Board<!S(==), !P> = Board(connections: set<Connection>, bridges: map<Place<S>, Bridge<P>>)

  function Do<S, P>(y: Board<S, P>, k: Place<S>, e: Event<P>): Board<S, P> {
    if k !in y.bridges then y
    else
      var t := After(State(y.connections, y.bridges[k]), e);
      Board(t.connections, y.bridges[k := t.bridge])
  }

  /** Every bridge could keep its mesh whatever the others do: its faces have slots of their
      own, and it shares none with another bridge but that of the sound device. */
  ghost predicate AllApart<S, P>(bridges: map<Place<S>, Bridge<P>>) {
    && (forall k :: k in bridges ==> Distinct(bridges[k]) && NoEcho(bridges[k]))
    && (forall k, l :: k in bridges && l in bridges && k != l ==> Apart(bridges[k], bridges[l]))
  }

  ghost function Meshes<S, P>(bridges: map<Place<S>, Bridge<P>>): set<Connection> {
    set k, c | k in bridges && c in Mesh(bridges[k]) :: c
  }

  // ---------------------------------------------------------------- one event on one bridge

  /** Bridges that are apart are not disturbed by one another's connections. */
  lemma MeshesAreMeshed<S, P>(bridges: map<Place<S>, Bridge<P>>, k: Place<S>)
    requires AllApart(bridges) && k in bridges
    ensures Meshed(Meshes(bridges), bridges[k])
  {
    hide Distinct, NoEcho, Apart, Meshed, Mesh;
    var b := bridges[k];
    forall c | c in Meshes(bridges) && c.0 in Sources(b) && c.1 in Sinks(b) ensures c in Mesh(b) {
      var l :| l in bridges && c in Mesh(bridges[l]);
      if l != k {
        NotOfBoth(b, bridges[l], c);
      }
    }
    DistinctIsMeshed(b);
    assert Mesh(b) <= Meshes(bridges) by {
      assert forall c :: c in Mesh(b) ==> c in Meshes(bridges);
    }
    MeshedBySlots(Mesh(b), Meshes(bridges), b);
  }

  /** A connection of one bridge does not have both its ends on another. */
  lemma NotOfBoth<P>(b: Bridge<P>, other: Bridge<P>, c: Connection)
    requires Apart(b, other) && NoEcho(other) && c in Mesh(other)
    ensures c.0 !in Sources(b) || c.1 !in Sinks(b)
  {
    MeshUsesSlots(other, c);
    if c.0 in Sources(b) && c.1 in Sinks(b) {
      OnlyDeviceShared(b, other, c);
    }
  }

  lemma DistinctIsMeshed<P>(b: Bridge<P>)
    requires Distinct(b)
    ensures Meshed(Mesh(b), b)
  {
  }

  /** A port that gets new slots is not connected with itself already. */
  lemma NotYetLinked<S, P>(y: Board<S, P>, k: Place<S>, e: Event<P>)
    requires AllApart(y.bridges) && k in y.bridges && AllApart(Do(y, k, e).bridges)
    requires y.connections == Meshes(y.bridges)
    ensures Fair(State(y.connections, y.bridges[k]), e)
  {
    hide Meshes, Apart, NoEcho, LinksOf;
    var s := State(y.connections, y.bridges[k]);
    var b := s.bridge;
    var t := After(s, e).bridge;
    assert Do(y, k, e).bridges[k] == t;
    if (e.Added? && e.port !in b.ports) || (e.Changed? && e.port in b.ports) {
      assert t.ports[e.port] == e.face;
      assert forall q :: q in Without(b, e.port).ports ==> q in t.ports && t.ports[q] == b.ports[q] && q != e.port;
      assert NewFace(e.face, Without(b, e.port));
      if e.Added? {
        assert Without(b, e.port).ports == b.ports;
      }
      forall c | c in Link(e.face, e.face) ensures c !in y.connections {
        if c in y.connections {
          SelfLink(y, k, e, c);
        }
      }
    }
  }

  lemma NewIsNotInMesh<P>(b: Bridge<P>, p: P, face: Face, c: Connection)
    requires NewFace(face, Without(b, p)) && c in Link(face, face)
    ensures c !in Mesh(b)
  {
    assert forall q :: q in b.ports && q != p ==> q in Without(b, p).ports && DistinctFaces(face, b.ports[q]);
  }

  lemma SelfLink<S, P>(y: Board<S, P>, k: Place<S>, e: Event<P>, c: Connection)
    requires AllApart(y.bridges) && k in y.bridges && AllApart(Do(y, k, e).bridges)
    requires y.connections == Meshes(y.bridges) && !e.Removed?
    requires e.port in Do(y, k, e).bridges[k].ports && Do(y, k, e).bridges[k].ports[e.port] == e.face
    requires NewFace(e.face, Without(y.bridges[k], e.port)) && c in Link(e.face, e.face)
    ensures c !in y.connections
  {
    hide LinksOf, Apart, NoEcho, After;
    var t := Do(y, k, e).bridges[k];
    assert c.0 in Sources(t) && c.1 in Sinks(t);
    if c in y.connections {
      var l :| l in y.bridges && c in Mesh(y.bridges[l]);
      if l == k {
        NewIsNotInMesh(y.bridges[k], e.port, e.face, c);
      } else {
        assert Do(y, k, e).bridges[l] == y.bridges[l];
        NotOfBoth(t, y.bridges[l], c);
      }
    }
  }

  /** An event on one bridge leaves the mixer with the meshes of all the bridges. */
  lemma DoKeepsMeshes<S, P>(y: Board<S, P>, k: Place<S>, e: Event<P>)
    requires AllApart(y.bridges) && AllApart(Do(y, k, e).bridges)
    requires y.connections == Meshes(y.bridges)
    ensures Do(y, k, e).connections == Meshes(Do(y, k, e).bridges)
  {
    if k in y.bridges {
      hide Do, AllApart, Meshes;
      var y' := Do(y, k, e);
      forall c | c in y'.connections ensures c in Meshes(y'.bridges) {
        ConnectedInMeshes(y, k, e, c);
      }
      forall c | c in Meshes(y'.bridges) ensures c in y'.connections {
        MeshesConnected(y, k, e, c);
      }
    }
  }

  lemma ConnectedInMeshes<S, P>(y: Board<S, P>, k: Place<S>, e: Event<P>, c: Connection)
    requires y.connections == Meshes(y.bridges) && k in y.bridges && c in Do(y, k, e).connections
    ensures c in Meshes(Do(y, k, e).bridges)
  {
    hide After, Mesh;
    var s := State(y.connections, y.bridges[k]);
    var y' := Do(y, k, e);
    if c !in s.connections {
      MadeInMesh(s, e, c);
      assert c in Mesh(y'.bridges[k]);
    } else {
      var l :| l in y.bridges && c in Mesh(y.bridges[l]);
      if l == k {
        LeftInMesh(s, e, c);
      }
      assert c in Mesh(y'.bridges[l]);
    }
  }

  lemma MeshesConnected<S, P>(y: Board<S, P>, k: Place<S>, e: Event<P>, c: Connection)
    requires AllApart(y.bridges) && AllApart(Do(y, k, e).bridges)
    requires y.connections == Meshes(y.bridges) && k in y.bridges && c in Meshes(Do(y, k, e).bridges)
    ensures c in Do(y, k, e).connections
  {
    hide After, Distinct, NoEcho, Apart, Mesh, Meshed, Fair, Sources, Sinks;
    var s := State(y.connections, y.bridges[k]);
    var y' := Do(y, k, e);
    var l :| l in y'.bridges && c in Mesh(y'.bridges[l]);
    if l == k {
      MeshesAreMeshed(y.bridges, k);
      NotYetLinked(y, k, e);
      EventKeepsMesh(s, e);
      MeshIsConnected(y'.connections, y'.bridges[k], c);
    } else {
      assert y'.bridges[l] == y.bridges[l];
      NotOfBoth(y.bridges[k], y.bridges[l], c);
      if c !in y'.connections {
        BrokenOnBridge(s, e, c);
      }
    }
  }

  lemma MeshIsConnected<P>(connections: set<Connection>, b: Bridge<P>, c: Connection)
    requires Meshed(connections, b) && c in Mesh(b)
    ensures c in connections
  {
  }

  /** A connection of the mesh is one of a port or among the others. */
  lemma MeshWithout<P>(b: Bridge<P>, p: P, c: Connection)
    requires p in b.ports && c in Mesh(b)
    ensures c in Mesh(Without(b, p)) || c in LinksOf(b.ports[p], Without(b, p))
  {
    var b0 := Without(b, p);
    if q, r :| q in b.ports && r in b.ports && q != r && c in Link(b.ports[q], b.ports[r]) {
      if q == p {
        assert r in b0.ports && c in LinksOutOf(b.ports[p], b0.ports, b0.ports.Keys);
      } else if r == p {
        assert q in b0.ports && c in LinksInto(b.ports[p], b0.ports, b0.ports.Keys);
      } else {
        assert b0.ports[q] == b.ports[q] && b0.ports[r] == b.ports[r];
      }
    } else {
      var q :| q in b.ports && c in Link(b.ports[q], b.inner) + Link(b.inner, b.ports[q]);
      if q != p {
        assert b0.ports[q] == b.ports[q];
      }
    }
  }

  /** A connection of the mesh that an event leaves is still part of it. */
  lemma LeftInMesh<P>(s: State<P>, e: Event<P>, c: Connection)
    requires c in Mesh(s.bridge) && c in After(s, e).connections
    ensures c in Mesh(After(s, e).bridge)
  {
    hide Mesh, LinksOf;
    var b := s.bridge;
    var t := After(s, e).bridge;
    var b0 := Without(b, e.port);
    WithinHasFewerSlots(b0, t);
    if e.Added? {
      assert e.port !in b.ports ==> b0 == b;
    } else if e.port in b.ports {
      if c in LinksOf(b.ports[e.port], b0) {
        assert c in LinksOf(b.ports[e.port], b) by { WithinHasFewerLinks(b.ports[e.port], b0, b, c); }
        assert e.Changed? && c in LinksOf(t.ports[e.port], Without(t, e.port)) by { assert Without(t, e.port) == b0; }
        LinksInMesh(t, e.port, c);
      } else {
        MeshWithout(b, e.port, c);
      }
    }
  }

  lemma WithinHasFewerLinks<P>(e: Face, b: Bridge<P>, t: Bridge<P>, c: Connection)
    requires Within(b, t) && c in LinksOf(e, b)
    ensures c in LinksOf(e, t)
  {
  }

  // ---------------------------------------------------------------- the conference

  /** What never changes: the sound device of the conference, and for every stream the port that
      its bridge is and the sound device of its own. */
  datatype Wiring<!S(==), P> = Wiring(device: P, bridgePort: map<S, P>, ownDevice: map<S, P>)

  /** The bridges, the slots every port has now, the streams in the conference, and whether the
      device is taken off its bridge. */
  datatype Conference<!S(==), !P(==)> =
    Conference(board: Board<S, P>, faces: map<P, Face>, members: set<S>, onHold: bool)

  datatype Command<!S(==), P> =
    | Join(stream: S) | Leave(stream: S) | Hold | Unhold
    | Put(place: Place<S>, port: P) | Take(place: Place<S>, port: P)
    | Reslot(place: Place<S>, port: P, face: Face)

  function FaceOf<P>(faces: map<P, Face>, p: P): Face {
    if p in faces then faces[p] else NO_FACE
  }

  function Step<S, P>(w: Wiring<S, P>, c: Conference<S, P>, command: Command<S, P>): Conference<S, P> {
    match command
    case Join(s) =>
      if s in c.members || s !in w.bridgePort || s !in w.ownDevice then c
      else
        var board := Do(c.board, Of(s), Removed(w.ownDevice[s]));
        var p := w.bridgePort[s];
        c.(board := Do(board, Main, Added(p, FaceOf(c.faces, p))), members := c.members + {s})
    case Leave(s) =>
      if s !in c.members || s !in w.bridgePort || s !in w.ownDevice then c
      else
        var board := Do(c.board, Main, Removed(w.bridgePort[s]));
        var p := w.ownDevice[s];
        c.(board := Do(board, Of(s), Added(p, FaceOf(c.faces, p))), members := c.members - {s})
    case Hold =>
      if c.onHold then c else c.(board := Do(c.board, Main, Removed(w.device)), onHold := true)
    case Unhold =>
      if !c.onHold then c
      else c.(board := Do(c.board, Main, Added(w.device, FaceOf(c.faces, w.device))), onHold := false)
    case Put(k, p) => c.(board := Do(c.board, k, Added(p, FaceOf(c.faces, p))))
    case Take(k, p) => c.(board := Do(c.board, k, Removed(p)))
    case Reslot(k, p, face) => c.(board := Do(c.board, k, Changed(p, face)), faces := c.faces[p := face])
  }

  function Run<S, P>(w: Wiring<S, P>, c: Conference<S, P>, commands: seq<Command<S, P>>): Conference<S, P> {
    if commands == [] then c
    else Step(w, Run(w, c, commands[..|commands| - 1]), commands[|commands| - 1])
  }

  /** The ports that the conference itself puts on a bridge and takes off it. */
  function Managed<S, P>(w: Wiring<S, P>, k: Place<S>): set<P> {
    match k
    case Main => {w.device} + w.bridgePort.Values
    case Of(s) => if s in w.ownDevice then {w.ownDevice[s]} else {}
    case Elsewhere(n) => {}
  }

  /** A bridge with all that may come onto it. */
  function Full<S, P>(w: Wiring<S, P>, c: Conference<S, P>, k: Place<S>): Bridge<P>
    requires k in c.board.bridges
  {
    var b := c.board.bridges[k];
    b.(ports := map p | p in b.ports.Keys + Managed(w, k) :: FaceOf(c.faces, p))
  }

  function Plan<S, P>(w: Wiring<S, P>, c: Conference<S, P>): map<Place<S>, Bridge<P>> {
    map k | k in c.board.bridges :: Full(w, c, k)
  }

  /** The slots of a bridge that is a port: its multiplexer and its demultiplexer. */
  predicate IsForwarder(face: Face) {
    face.producer.Some? && face.consumer.Some? && face.producer != face.consumer
    && face.producer.value != DEVICE_SLOT && face.consumer.value != DEVICE_SLOT
  }

  predicate UsesDevice(face: Face) {
    face.producer == Some(DEVICE_SLOT) || face.consumer == Some(DEVICE_SLOT)
  }

  /** The slots of all bridges are apart whatever the conference does; a port is on one bridge
      at most, and only device objects stand for the sound device. */
  ghost predicate Planned<S, P>(w: Wiring<S, P>, c: Conference<S, P>) {
    && AllApart(Plan(w, c))
    && (forall k, l :: k in c.board.bridges && l in c.board.bridges && k != l ==>
          Full(w, c, k).ports.Keys !! Full(w, c, l).ports.Keys)
    && (forall k, p :: k in c.board.bridges && p in Full(w, c, k).ports && UsesDevice(FaceOf(c.faces, p)) ==>
          p == w.device || p in w.ownDevice.Values)
  }

  /** The wiring is what the program makes it: every stream has a bridge that is a port and a
      device, all different. */
  ghost predicate Wired<S, P>(w: Wiring<S, P>, c: Conference<S, P>) {
    && w.ownDevice.Keys == w.bridgePort.Keys && c.members <= w.bridgePort.Keys
    && Main in c.board.bridges && c.board.bridges[Main].inner == NO_FACE
    && (forall s :: s in w.bridgePort ==>
          && Of(s) in c.board.bridges && w.bridgePort[s] != w.device
          && IsForwarder(FaceOf(c.faces, w.bridgePort[s]))
          && c.board.bridges[Of(s)].inner ==
               Face(FaceOf(c.faces, w.bridgePort[s]).consumer, FaceOf(c.faces, w.bridgePort[s]).producer))
    && (forall s, t :: s in w.bridgePort && t in w.bridgePort && s != t ==> w.bridgePort[s] != w.bridgePort[t])
  }

  /** The conference has its device unless on hold and the bridges of its members; a stream has
      its device exactly when it is not a member. */
  ghost predicate Seated<S, P>(w: Wiring<S, P>, c: Conference<S, P>)
    requires Wired(w, c)
  {
    var main := c.board.bridges[Main].ports;
    && (w.device in main <==> !c.onHold)
    && (forall s :: s in w.bridgePort ==>
          && (w.bridgePort[s] in main <==> s in c.members)
          && (w.ownDevice[s] in c.board.bridges[Of(s)].ports <==> s !in c.members))
  }

  /** Every bridge knows its ports by the slots they have now. */
  ghost predicate UpToDate<S, P>(c: Conference<S, P>) {
    forall k, p :: k in c.board.bridges && p in c.board.bridges[k].ports ==>
      c.board.bridges[k].ports[p] == FaceOf(c.faces, p)
  }

  /** The mixer carries the meshes of the bridges and nothing else. */
  ghost predicate Sound<S, P>(w: Wiring<S, P>, c: Conference<S, P>) {
    Planned(w, c) && UpToDate(c) && c.board.connections == Meshes(c.board.bridges)
  }

  ghost predicate Good<S, P>(w: Wiring<S, P>, c: Conference<S, P>) {
    Wired(w, c) && Sound(w, c) && Seated(w, c)
  }

  /** What the rest of the program and the mixer guarantee about a command: nothing for those
      of the conference; other ports are put and taken by whoever made them, and slots in use
      are not given out again. */
  ghost predicate Allowed<S, P>(w: Wiring<S, P>, c: Conference<S, P>, command: Command<S, P>) {
    match command
    case Put(k, p) => k in c.board.bridges && p !in Managed(w, k) && Planned(w, Step(w, c, command))
    case Take(k, p) => k in c.board.bridges && p !in Managed(w, k)
    case Reslot(k, p, face) =>
      && k in c.board.bridges && p !in w.bridgePort.Values && Planned(w, Step(w, c, command))
      && forall l :: l in c.board.bridges && l != k ==> p !in c.board.bridges[l].ports
    case _ => true
  }

  ghost predicate AllAllowed<S, P>(w: Wiring<S, P>, c: Conference<S, P>, commands: seq<Command<S, P>>) {
    forall i :: 0 <= i < |commands| ==> Allowed(w, Run(w, c, commands[..i]), commands[i])
  }

  /** Bridges that hold no more than planned are apart. */
  lemma PlannedIsApart<S, P>(bridges: map<Place<S>, Bridge<P>>, plan: map<Place<S>, Bridge<P>>)
    requires AllApart(plan) && bridges.Keys == plan.Keys && forall k :: k in plan ==> Within(bridges[k], plan[k])
    ensures AllApart(bridges)
  {
    hide Within, Distinct, NoEcho, Apart;
    forall k | k in bridges ensures Distinct(bridges[k]) && NoEcho(bridges[k]) {
      WithinHasFewerSlots(bridges[k], plan[k]);
    }
    forall k, l | k in bridges && l in bridges && k != l ensures Apart(bridges[k], bridges[l]) {
      FewerIsApart(bridges[k], plan[k], bridges[l], plan[l]);
    }
  }

  lemma FewerIsApart<P>(b: Bridge<P>, b1: Bridge<P>, c: Bridge<P>, c1: Bridge<P>)
    requires Within(b, b1) && Within(c, c1) && Apart(b1, c1)
    ensures Apart(b, c)
  {
    WithinHasFewerSlots(b, b1);
    WithinHasFewerSlots(c, c1);
  }

  lemma BridgesApart<S, P>(w: Wiring<S, P>, c: Conference<S, P>)
    requires Planned(w, c) && UpToDate(c)
    ensures AllApart(c.board.bridges)
  {
    hide AllApart, Managed;
    forall k | k in c.board.bridges ensures Within(c.board.bridges[k], Plan(w, c)[k]) {
    }
    PlannedIsApart(c.board.bridges, Plan(w, c));
  }

  lemma FullAfter<S, P>(w: Wiring<S, P>, c: Conference<S, P>, k: Place<S>, e: Event<P>)
    requires UpToDate(c) && k in c.board.bridges && e.port in Managed(w, k)
    requires e.Removed? || (e.Added? && e.face == FaceOf(c.faces, e.port))
    ensures var c' := c.(board := Do(c.board, k, e));
            UpToDate(c') && k in c'.board.bridges && Full(w, c', k) == Full(w, c, k)
  {
    hide Managed, LinksOf;
    var c' := c.(board := Do(c.board, k, e));
    assert Full(w, c', k).ports.Keys == Full(w, c, k).ports.Keys;
  }

  /** The conference puts and takes only what the plan has on that bridge. */
  lemma ManagedInPlan<S, P>(w: Wiring<S, P>, c: Conference<S, P>, k: Place<S>, e: Event<P>)
    requires Planned(w, c) && UpToDate(c) && k in c.board.bridges && e.port in Managed(w, k)
    requires e.Removed? || (e.Added? && e.face == FaceOf(c.faces, e.port))
    ensures var c' := c.(board := Do(c.board, k, e));
            Planned(w, c') && UpToDate(c') && c'.board.bridges.Keys == c.board.bridges.Keys
  {
    hide AllApart, Managed, After, Planned, UpToDate, FaceOf;
    var c' := c.(board := Do(c.board, k, e));
    FullAfter(w, c, k, e);
    forall l | l in c.board.bridges ensures Full(w, c', l) == Full(w, c, l) {
      if l != k {
        assert c'.board.bridges[l] == c.board.bridges[l];
      }
    }
    PlannedSame(w, c, c');
  }

  lemma PlannedSame<S, P>(w: Wiring<S, P>, c: Conference<S, P>, c': Conference<S, P>)
    requires Planned(w, c) && c'.faces == c.faces && c'.board.bridges.Keys == c.board.bridges.Keys
    requires forall k :: k in c.board.bridges ==> Full(w, c', k) == Full(w, c, k)
    ensures Planned(w, c')
  {
    hide AllApart, Full, UsesDevice;
    assert Plan(w, c') == Plan(w, c);
  }

  /** Taking a port of somebody else off a bridge leaves less to plan for. */
  lemma TakenFromPlan<S, P>(w: Wiring<S, P>, c: Conference<S, P>, k: Place<S>, p: P)
    requires Planned(w, c) && UpToDate(c) && k in c.board.bridges
    ensures var c' := c.(board := Do(c.board, k, Removed(p)));
            Planned(w, c') && UpToDate(c') && c'.board.bridges.Keys == c.board.bridges.Keys
  {
    hide AllApart, Managed, LinksOf, UsesDevice;
    var c' := c.(board := Do(c.board, k, Removed(p)));
    forall l | l in c.board.bridges ensures Within(Full(w, c', l), Full(w, c, l)) {
      if l != k {
        assert c'.board.bridges[l] == c.board.bridges[l];
      }
    }
    PlannedIsApart(Plan(w, c'), Plan(w, c));
    forall l, m | l in c.board.bridges && m in c.board.bridges && l != m
      ensures Full(w, c', l).ports.Keys !! Full(w, c', m).ports.Keys
    {
      assert Full(w, c', l).ports.Keys <= Full(w, c, l).ports.Keys;
      assert Full(w, c', m).ports.Keys <= Full(w, c, m).ports.Keys;
    }
  }

  lemma DoIsSound<S, P>(w: Wiring<S, P>, c: Conference<S, P>, c': Conference<S, P>, k: Place<S>, e: Event<P>)
    requires Sound(w, c) && Planned(w, c') && UpToDate(c') && c'.board == Do(c.board, k, e)
    ensures Sound(w, c')
  {
    hide Planned, UpToDate, Do, Meshes, AllApart;
    BridgesApart(w, c);
    BridgesApart(w, c');
    DoKeepsMeshes(c.board, k, e);
  }

  lemma ManagedIsSound<S, P>(w: Wiring<S, P>, c: Conference<S, P>, k: Place<S>, e: Event<P>)
    requires Sound(w, c) && k in c.board.bridges && e.port in Managed(w, k)
    requires e.Removed? || (e.Added? && e.face == FaceOf(c.faces, e.port))
    ensures Sound(w, c.(board := Do(c.board, k, e)))
  {
    hide Planned, UpToDate, Do, Meshes, Managed;
    ManagedInPlan(w, c, k, e);
    DoIsSound(w, c, c.(board := Do(c.board, k, e)), k, e);
  }

  /** What an event does to the ports of the bridges. */
  lemma DoPorts<S, P>(y: Board<S, P>, k: Place<S>, e: Event<P>)
    requires k in y.bridges
    ensures var y' := Do(y, k, e);
            && y'.bridges.Keys == y.bridges.Keys
            && (forall l :: l in y.bridges ==> y'.bridges[l].inner == y.bridges[l].inner)
            && (forall l :: l in y.bridges && l != k ==> y'.bridges[l] == y.bridges[l])
            && (e.Added? ==> y'.bridges[k].ports.Keys == y.bridges[k].ports.Keys + {e.port})
            && (e.Removed? ==> y'.bridges[k].ports.Keys == y.bridges[k].ports.Keys - {e.port})
            && (e.Changed? ==> y'.bridges[k].ports.Keys == y.bridges[k].ports.Keys)
  {
    hide LinksOf;
  }

  lemma SoundOnBoard<S, P>(w: Wiring<S, P>, c: Conference<S, P>, c': Conference<S, P>)
    requires Sound(w, c) && c'.board == c.board && c'.faces == c.faces
    ensures Sound(w, c')
  {
    hide AllApart, UsesDevice, Meshes;
    assert Plan(w, c') == Plan(w, c);
    assert forall k :: k in c.board.bridges ==> Full(w, c', k) == Full(w, c, k);
  }

  lemma WiredSame<S, P>(w: Wiring<S, P>, c: Conference<S, P>, c': Conference<S, P>)
    requires Wired(w, c) && c'.members <= w.bridgePort.Keys && c'.board.bridges.Keys == c.board.bridges.Keys
    requires forall l :: l in c.board.bridges ==> c'.board.bridges[l].inner == c.board.bridges[l].inner
    requires forall s :: s in w.bridgePort ==>
      FaceOf(c'.faces, w.bridgePort[s]) == FaceOf(c.faces, w.bridgePort[s])
    ensures Wired(w, c')
  {
    hide IsForwarder, FaceOf;
  }

  function KeysAfter<P>(ports: set<P>, e: Event<P>): set<P> {
    match e
    case Added(p, _) => ports + {p}
    case Removed(p) => ports - {p}
    case Changed(_, _) => ports
  }

  /** Two ports of the conference are moved, one off or onto each of two bridges. */
  lemma TwoMoves<S, P>(w: Wiring<S, P>, c: Conference<S, P>, k: Place<S>, e: Event<P>, l: Place<S>, f: Event<P>)
    requires Sound(w, c) && k in c.board.bridges && l in c.board.bridges && k != l
    requires e.port in Managed(w, k) && (e.Removed? || (e.Added? && e.face == FaceOf(c.faces, e.port)))
    requires f.port in Managed(w, l) && (f.Removed? || (f.Added? && f.face == FaceOf(c.faces, f.port)))
    ensures var y := Do(Do(c.board, k, e), l, f);
            && Sound(w, c.(board := y))
            && y.bridges.Keys == c.board.bridges.Keys
            && (forall m :: m in y.bridges ==> y.bridges[m].inner == c.board.bridges[m].inner)
            && (forall m :: m in y.bridges && m != k && m != l ==> y.bridges[m] == c.board.bridges[m])
            && y.bridges[k].ports.Keys == KeysAfter(c.board.bridges[k].ports.Keys, e)
            && y.bridges[l].ports.Keys == KeysAfter(c.board.bridges[l].ports.Keys, f)
  {
    hide Sound, Do, FaceOf, Managed;
    var c1 := c.(board := Do(c.board, k, e));
    DoPorts(c.board, k, e);
    ManagedIsSound(w, c, k, e);
    DoPorts(c1.board, l, f);
    ManagedIsSound(w, c1, l, f);
  }

  lemma JoinIsGood<S, P>(w: Wiring<S, P>, c: Conference<S, P>, s: S)
    requires Good(w, c) && s in w.bridgePort
    ensures Good(w, Step(w, c, Join(s)))
  {
    hide Sound, Do, FaceOf, IsForwarder;
    if s !in c.members {
      var own, p := w.ownDevice[s], w.bridgePort[s];
      var c' := Step(w, c, Join(s));
      TwoMoves(w, c, Of(s), Removed(own), Main, Added(p, FaceOf(c.faces, p)));
      assert Sound(w, c') by { SoundOnBoard(w, c.(board := c'.board), c'); }
      WiredSame(w, c, c');
    }
  }

  lemma LeaveIsGood<S, P>(w: Wiring<S, P>, c: Conference<S, P>, s: S)
    requires Good(w, c) && s in w.bridgePort
    ensures Good(w, Step(w, c, Leave(s)))
  {
    hide Sound, Do, FaceOf, IsForwarder;
    if s in c.members {
      var own, p := w.ownDevice[s], w.bridgePort[s];
      var c' := Step(w, c, Leave(s));
      TwoMoves(w, c, Main, Removed(p), Of(s), Added(own, FaceOf(c.faces, own)));
      assert Sound(w, c') by { SoundOnBoard(w, c.(board := c'.board), c'); }
      WiredSame(w, c, c');
    }
  }

  lemma HoldIsGood<S, P>(w: Wiring<S, P>, c: Conference<S, P>, hold: bool)
    requires Good(w, c)
    ensures Good(w, Step(w, c, if hold then Hold else Unhold))
  {
    hide Sound, Do, FaceOf, IsForwarder;
    if hold != c.onHold {
      var e := if hold then Removed(w.device) else Added(w.device, FaceOf(c.faces, w.device));
      DoPorts(c.board, Main, e);
      ManagedIsSound(w, c, Main, e);
      SoundOnBoard(w, c.(board := Do(c.board, Main, e)), Step(w, c, if hold then Hold else Unhold));
    }
  }

  /** Every command keeps all bridges meshed and everything in its place. */
  lemma StepIsGood<S, P>(w: Wiring<S, P>, c: Conference<S, P>, command: Command<S, P>)
    requires Good(w, c) && Allowed(w, c, command)
    ensures Good(w, Step(w, c, command))
  {
    hide Good, Allowed;
    match command
    case Join(s) => if s in w.bridgePort { JoinIsGood(w, c, s); }
    case Leave(s) => if s in w.bridgePort { LeaveIsGood(w, c, s); }
    case Hold => HoldIsGood(w, c, true);
    case Unhold => HoldIsGood(w, c, false);
    case Put(k, p) => PutIsGood(w, c, k, p);
    case Take(k, p) => TakeIsGood(w, c, k, p);
    case Reslot(k, p, face) => ReslotIsGood(w, c, k, p, face);
  }

  lemma PutIsGood<S, P>(w: Wiring<S, P>, c: Conference<S, P>, k: Place<S>, p: P)
    requires Good(w, c) && Allowed(w, c, Put(k, p))
    ensures Good(w, Step(w, c, Put(k, p)))
  {
    hide Planned, Meshes, LinksOf, Sound;
    var c' := Step(w, c, Put(k, p));
    var e := Added(p, FaceOf(c.faces, p));
    DoPorts(c.board, k, e);
    assert Sound(w, c') by {
      StillUpToDate(w, c, c', k, e);
      DoIsSound(w, c, c', k, e);
    }
    WiredSame(w, c, c');
    hide Do, FaceOf, Wired, IsForwarder;
  }

  lemma TakeIsGood<S, P>(w: Wiring<S, P>, c: Conference<S, P>, k: Place<S>, p: P)
    requires Good(w, c) && Allowed(w, c, Take(k, p))
    ensures Good(w, Step(w, c, Take(k, p)))
  {
    hide Planned, UpToDate, Meshes, LinksOf;
    var c' := Step(w, c, Take(k, p));
    DoPorts(c.board, k, Removed(p));
    TakenFromPlan(w, c, k, p);
    DoIsSound(w, c, c', k, Removed(p));
    WiredSame(w, c, c');
    hide Do, FaceOf, Wired, IsForwarder;
  }

  lemma ReslotIsGood<S, P>(w: Wiring<S, P>, c: Conference<S, P>, k: Place<S>, p: P, face: Face)
    requires Good(w, c) && Allowed(w, c, Reslot(k, p, face))
    ensures Good(w, Step(w, c, Reslot(k, p, face)))
  {
    hide Planned, Meshes, LinksOf, Sound;
    var c' := Step(w, c, Reslot(k, p, face));
    var e := Changed(p, face);
    DoPorts(c.board, k, e);
    assert Sound(w, c') by {
      StillUpToDate(w, c, c', k, e);
      DoIsSound(w, c, c', k, e);
    }
    WiredSame(w, c, c');
    hide Do, Wired, IsForwarder;
  }

  lemma StillUpToDate<S, P>(w: Wiring<S, P>, c: Conference<S, P>, c': Conference<S, P>, k: Place<S>, e: Event<P>)
    requires Sound(w, c) && k in c.board.bridges && c'.board == Do(c.board, k, e)
    requires (e.Added? && e.face == FaceOf(c.faces, e.port) && c'.faces == c.faces)
          || (e.Changed? && c'.faces == c.faces[e.port := e.face]
              && forall l :: l in c.board.bridges && l != k ==> e.port !in c.board.bridges[l].ports)
    ensures UpToDate(c')
  {
    hide Planned, Meshes, LinksOf;
    forall l, q | l in c'.board.bridges && q in c'.board.bridges[l].ports
      ensures c'.board.bridges[l].ports[q] == FaceOf(c'.faces, q)
    {
      if q in c.board.bridges[l].ports {
        assert c.board.bridges[l].ports[q] == FaceOf(c.faces, q);
      }
    }
  }

  /** What changed between two states: the ports of one bridge. */
  ghost predicate OnlyPorts<S, P>(before: Board<S, P>, after: Board<S, P>, k: Place<S>, ports: set<P>) {
    && after.bridges.Keys == before.bridges.Keys && k in before.bridges
    && after.bridges[k].ports.Keys == ports && after.bridges[k].inner == before.bridges[k].inner
    && forall l :: l in before.bridges && l != k ==> after.bridges[l] == before.bridges[l]
  }

  /** A stream that joins is a member, its bridge is on that of the conference and its device off its own; one that
      leaves is no member, and the other way round; nothing else moves. */
  lemma StreamsMove<S, P>(w: Wiring<S, P>, c: Conference<S, P>, s: S, join: bool)
    requires Good(w, c) && s in w.bridgePort
    ensures var c' := Step(w, c, if join then Join(s) else Leave(s));
            var before, after := c.board.bridges, c'.board.bridges;
            && Of(s) in before && after.Keys == before.Keys
            && c'.members == (if join then c.members + {s} else c.members - {s})
            && c'.onHold == c.onHold && c'.faces == c.faces
            && after[Main].ports.Keys ==
               (if join then before[Main].ports.Keys + {w.bridgePort[s]}
                else before[Main].ports.Keys - {w.bridgePort[s]})
            && after[Of(s)].ports.Keys ==
               (if join then before[Of(s)].ports.Keys - {w.ownDevice[s]}
                else before[Of(s)].ports.Keys + {w.ownDevice[s]})
            && forall l :: l in before && l != Main && l != Of(s) ==> after[l] == before[l]
  {
    hide Sound, Do, FaceOf, IsForwarder;
    var own, p := w.ownDevice[s], w.bridgePort[s];
    if join && s !in c.members {
      TwoMoves(w, c, Of(s), Removed(own), Main, Added(p, FaceOf(c.faces, p)));
    } else if !join && s in c.members {
      TwoMoves(w, c, Main, Removed(p), Of(s), Added(own, FaceOf(c.faces, own)));
    }
  }

  /** A conference on hold has its device off its bridge, and one that is not has it there; nothing else moves. */
  lemma HoldMoves<S, P>(w: Wiring<S, P>, c: Conference<S, P>, hold: bool)
    requires Good(w, c)
    ensures var c' := Step(w, c, if hold then Hold else Unhold);
            var ports := c.board.bridges[Main].ports.Keys;
            && c'.onHold == hold && c'.members == c.members && c'.faces == c.faces
            && OnlyPorts(c.board, c'.board, Main, if hold then ports - {w.device} else ports + {w.device})
  {
    hide Sound, Do, FaceOf, IsForwarder;
    if hold != c.onHold {
      DoPorts(c.board, Main, if hold then Removed(w.device) else Added(w.device, FaceOf(c.faces, w.device)));
    }
  }

  /** Other ports are put on a bridge, taken off it, and known by new slots, one at a time. */
  lemma OthersMove<S, P>(w: Wiring<S, P>, c: Conference<S, P>, k: Place<S>, p: P, face: Face)
    requires k in c.board.bridges
    ensures var c', ports := Step(w, c, Put(k, p)), c.board.bridges[k].ports.Keys;
            OnlyPorts(c.board, c'.board, k, ports + {p}) && c'.members == c.members && c'.faces == c.faces
    ensures var c', ports := Step(w, c, Take(k, p)), c.board.bridges[k].ports.Keys;
            OnlyPorts(c.board, c'.board, k, ports - {p}) && c'.members == c.members && c'.faces == c.faces
    ensures var c', ports := Step(w, c, Reslot(k, p, face)), c.board.bridges[k].ports.Keys;
            && OnlyPorts(c.board, c'.board, k, ports) && c'.members == c.members && c'.faces == c.faces[p := face]
            && (p in ports ==> c'.board.bridges[k].ports[p] == face)
  {
    hide LinksOf;
    DoPorts(c.board, k, Added(p, FaceOf(c.faces, p)));
    DoPorts(c.board, k, Removed(p));
    DoPorts(c.board, k, Changed(p, face));
  }

  /** On every run the mixer carries the meshes of the bridges and nothing else, so that each
      bridge owns its own, and everything is in its place. */
  lemma {:induction false} EveryRun<S, P>(w: Wiring<S, P>, c: Conference<S, P>, commands: seq<Command<S, P>>)
    requires Good(w, c) && AllAllowed(w, c, commands)
    ensures var c' := Run(w, c, commands);
            && Good(w, c')
            && forall k :: k in c'.board.bridges ==>
                 && Meshed(c'.board.connections, c'.board.bridges[k])
                 && Owned(c'.board.connections, c'.board.bridges[k]) == Mesh(c'.board.bridges[k])
    decreases |commands|
  {
    hide Good, Allowed, Mesh, Meshed, Sources, Sinks;
    var c' := Run(w, c, commands);
    if commands != [] {
      var last := |commands| - 1;
      assert forall i :: 0 <= i < last ==> commands[..last][..i] == commands[..i];
      EveryRun(w, c, commands[..last]);
      assert commands[..last] == commands[..last][..last];
      StepIsGood(w, Run(w, c, commands[..last]), commands[last]);
    }
    forall k | k in c'.board.bridges
      ensures Meshed(c'.board.connections, c'.board.bridges[k])
      ensures Owned(c'.board.connections, c'.board.bridges[k]) == Mesh(c'.board.bridges[k])
    {
      GoodIsMeshed(w, c', k);
    }
  }

  /** The connections between the slots of a bridge. */
  function Owned<P>(connections: set<Connection>, b: Bridge<P>): set<Connection> {
    set c | c in connections && c.0 in Sources(b) && c.1 in Sinks(b)
  }

  lemma GoodIsMeshed<S, P>(w: Wiring<S, P>, c: Conference<S, P>, k: Place<S>)
    requires Good(w, c) && k in c.board.bridges
    ensures Distinct(c.board.bridges[k]) && Meshed(c.board.connections, c.board.bridges[k])
    ensures Owned(c.board.connections, c.board.bridges[k]) == Mesh(c.board.bridges[k])
  {
    hide Planned, UpToDate, Meshes, Wired, Mesh, Meshed;
    BridgesApart(w, c);
    MeshesAreMeshed(c.board.bridges, k);
    OwnedConnections(c.board.connections, c.board.bridges[k]);
  }

  // ---------------------------------------------------------------- what is heard in a conference

  /** The member on whose bridge a port is. */
  ghost function Holder<S, P>(w: Wiring<S, P>, c: Conference<S, P>, p: P): S
    requires Wired(w, c) && exists s :: s in c.members && p in c.board.bridges[Of(s)].ports
  {
    var s :| s in c.members && p in c.board.bridges[Of(s)].ports;
    s
  }

  /** The conference as a tree: the ports on its bridge, and below the bridges of the members
      what is on these. */
  ghost function Tree<S, P>(w: Wiring<S, P>, c: Conference<S, P>): AudioTree.Network<P>
    requires Wired(w, c)
  {
    var main := c.board.bridges[Main].ports;
    var below := set s, p | s in c.members && p in c.board.bridges[Of(s)].ports :: p;
    AudioTree.Network(
      map p | p in main.Keys + below :: FaceOf(c.faces, p),
      map p | p in main.Keys + below :: if p in main then None else Some(w.bridgePort[Holder(w, c, p)]),
      set s | s in c.members :: w.bridgePort[s],
      map p | p in main.Keys + below :: if p in main then 0 else 1)
  }

  /** A bridge of the tree: that of the conference or of a member. */
  ghost predicate InTree<S, P>(c: Conference<S, P>, k: Place<S>) {
    k == Main || (k.Of? && k.stream in c.members)
  }

  /** Whatever is in the tree is on one of its bridges, with the slots it has there. */
  lemma PlaceInTree<S, P>(w: Wiring<S, P>, c: Conference<S, P>, p: P) returns (k: Place<S>)
    requires Good(w, c) && p in Tree(w, c).face
    ensures InTree(c, k) && k in c.board.bridges && p in c.board.bridges[k].ports
    ensures c.board.bridges[k].ports[p] == Tree(w, c).face[p] == FaceOf(c.faces, p)
    ensures Tree(w, c).parent[p] == if k == Main then None else Some(w.bridgePort[k.stream])
  {
    hide Planned, Meshes, IsForwarder, FaceOf;
    if p in c.board.bridges[Main].ports {
      k := Main;
    } else {
      k := Of(Holder(w, c, p));
    }
  }

  lemma OnOneBridge<S, P>(w: Wiring<S, P>, c: Conference<S, P>, k: Place<S>, l: Place<S>, p: P)
    requires Planned(w, c) && k in c.board.bridges && l in c.board.bridges
    requires p in c.board.bridges[k].ports.Keys + Managed(w, k) && p in c.board.bridges[l].ports.Keys + Managed(w, l)
    ensures k == l
  {
    hide AllApart, UsesDevice, Managed;
    assert p in Full(w, c, k).ports && p in Full(w, c, l).ports;
  }

  /** In the tree only the device of the conference stands for the sound device. */
  lemma DeviceInTree<S, P>(w: Wiring<S, P>, c: Conference<S, P>, k: Place<S>, p: P)
    requires Good(w, c) && InTree(c, k) && k in c.board.bridges && p in c.board.bridges[k].ports
    requires UsesDevice(FaceOf(c.faces, p))
    ensures p == w.device
  {
    hide AllApart, UsesDevice, UpToDate, Meshes, IsForwarder;
    assert p in Full(w, c, k).ports;
    if p != w.device {
      var s :| s in w.ownDevice && w.ownDevice[s] == p;
      OnOneBridge(w, c, k, Of(s), p);
    }
  }

  lemma TreeFacesDistinct<S, P>(w: Wiring<S, P>, c: Conference<S, P>, p: P, q: P)
    requires Good(w, c) && p in Tree(w, c).face && q in Tree(w, c).face && p != q
    ensures DistinctFaces(Tree(w, c).face[p], Tree(w, c).face[q])
  {
    hide Planned, Tree, Wired, Seated, Meshes;
    var k := PlaceInTree(w, c, p);
    var l := PlaceInTree(w, c, q);
    BridgesApart(w, c);
    if k != l {
      if UsesDevice(FaceOf(c.faces, p)) { DeviceInTree(w, c, k, p); }
      if UsesDevice(FaceOf(c.faces, q)) { DeviceInTree(w, c, l, q); }
      SharedSlots(c.board.bridges[k], p, c.board.bridges[l], q);
    }
  }

  lemma SharedSlots<P>(b: Bridge<P>, p: P, d: Bridge<P>, q: P)
    requires Apart(b, d) && p in b.ports && q in d.ports
    requires !(UsesDevice(b.ports[p]) && UsesDevice(d.ports[q]))
    ensures DistinctFaces(b.ports[p], d.ports[q])
  {
    var e, f := b.ports[p], d.ports[q];
    assert e.producer.Some? ==> e.producer.value in Sources(b);
    assert f.producer.Some? ==> f.producer.value in Sources(d);
    assert e.consumer.Some? ==> e.consumer.value in Sinks(b);
    assert f.consumer.Some? ==> f.consumer.value in Sinks(d);
    ApartSlots(b, d);
  }

  lemma ApartSlots<P>(b: Bridge<P>, d: Bridge<P>)
    requires Apart(b, d)
    ensures forall x :: x in Sources(b) && x in Sources(d) ==> x == DEVICE_SLOT
    ensures forall x :: x in Sinks(b) && x in Sinks(d) ==> x == DEVICE_SLOT
  {
    assert forall x :: x in Sources(b) && x in Sources(d) ==> x in Sources(b) * Sources(d);
    assert forall x :: x in Sinks(b) && x in Sinks(d) ==> x in Sinks(b) * Sinks(d);
  }

  /** The multiplexer and demultiplexer of a member are used by nothing else in the tree. */
  lemma TreeInnerDistinct<S, P>(w: Wiring<S, P>, c: Conference<S, P>, p: P, s: S)
    requires Good(w, c) && p in Tree(w, c).face && s in c.members
    ensures DistinctFaces(Tree(w, c).face[p], c.board.bridges[Of(s)].inner)
  {
    hide Planned, Tree, Seated, Meshes;
    var k := PlaceInTree(w, c, p);
    BridgesApart(w, c);
    var b, d := c.board.bridges[k], c.board.bridges[Of(s)];
    if k != Of(s) {
      var e, f := b.ports[p], d.inner;
      assert e.producer.Some? ==> e.producer.value in Sources(b);
      assert e.consumer.Some? ==> e.consumer.value in Sinks(b);
      assert f.producer.value in Sources(d) && f.consumer.value in Sinks(d);
      ApartSlots(b, d);
    }
  }

  lemma TreeSlotsDistinct<S, P>(w: Wiring<S, P>, c: Conference<S, P>)
    requires Good(w, c)
    ensures Tree(w, c).bridges <= Tree(w, c).face.Keys && AudioTree.SlotsDistinct(Tree(w, c))
  {
    hide Planned, Meshes, UpToDate;
    var n := Tree(w, c);
    assert n.bridges <= n.face.Keys;
    assert forall s :: s in c.members ==>
      w.bridgePort[s] in n.face && n.face[w.bridgePort[s]] == FaceOf(c.faces, w.bridgePort[s]);
    assert forall b :: b in n.bridges ==> exists s :: s in c.members && b == w.bridgePort[s];
    hide Tree, Seated;
    forall p, q | p in n.face && q in n.face && p != q ensures DistinctFaces(n.face[p], n.face[q]) {
      TreeFacesDistinct(w, c, p, q);
    }
    forall p, b | p in n.face && b in n.bridges
      ensures n.face[p].producer.Some? ==> n.face[p].producer != n.face[b].consumer
      ensures n.face[p].consumer.Some? ==> n.face[p].consumer != n.face[b].producer
    {
      var s :| s in c.members && b == w.bridgePort[s];
      TreeInnerDistinct(w, c, p, s);
    }
  }

  lemma TreeIsValid<S, P>(w: Wiring<S, P>, c: Conference<S, P>)
    requires Good(w, c)
    ensures AudioTree.Valid(Tree(w, c))
  {
    hide Planned, Sound, Meshes, UpToDate, AudioTree.SlotsDistinct, DistinctFaces, IsForwarder;
    TreeSlotsDistinct(w, c);
    var n := Tree(w, c);
    assert forall b :: b in n.bridges ==> n.face[b].producer.Some? && n.face[b].consumer.Some? by {
      forall b | b in n.bridges ensures n.face[b].producer.Some? && n.face[b].consumer.Some? {
        var s :| s in c.members && b == w.bridgePort[s];
        Forwarding(FaceOf(c.faces, b));
      }
    }
    assert forall s :: s in c.members ==> w.bridgePort[s] in n.bridges && n.depth[w.bridgePort[s]] == 0;
    forall p | p in n.face && n.parent[p].Some?
      ensures n.parent[p].value in n.bridges && n.depth[n.parent[p].value] < n.depth[p]
    {
      var s := Holder(w, c, p);
    }
  }

  lemma Forwarding(face: Face)
    requires IsForwarder(face)
    ensures face.producer.Some? && face.consumer.Some?
  {
  }

  /** The bridges of the tree are those of the conference and its members. */
  lemma TreeBridges<S, P>(w: Wiring<S, P>, c: Conference<S, P>)
    requires Good(w, c)
    ensures var n := Tree(w, c);
            && n.parent.Keys == n.face.Keys && n.bridges <= n.face.Keys
            && AudioTree.BridgeOf(n, None) == c.board.bridges[Main]
            && forall s :: s in c.members ==>
                 AudioTree.BridgeOf(n, Some(w.bridgePort[s])) == c.board.bridges[Of(s)]
  {
    MainBridge(w, c);
    hide Good, Tree, AudioTree.BridgeOf;
    var n := Tree(w, c);
    forall s | s in c.members
      ensures AudioTree.BridgeOf(n, Some(w.bridgePort[s])) == c.board.bridges[Of(s)]
    {
      TreeBridge(w, c, s);
    }
  }

  lemma MainBridge<S, P>(w: Wiring<S, P>, c: Conference<S, P>)
    requires Good(w, c)
    ensures var n := Tree(w, c);
            && n.parent.Keys == n.face.Keys && n.bridges <= n.face.Keys
            && AudioTree.BridgeOf(n, None) == c.board.bridges[Main]
  {
    var n := Tree(w, c);
    var b := c.board.bridges[Main];
    TreeSlotsDistinct(w, c);
    hide AudioTree.SlotsDistinct, Planned, Sound, IsForwarder, Seated;
    forall p | p in b.ports ensures p in n.face && n.parent[p] == None && n.face[p] == b.ports[p] {
      MainInTree(w, c, p);
    }
    forall p | p in n.face && n.parent[p] == None ensures p in b.ports {
      var k := PlaceInTree(w, c, p);
    }
    assert b.inner == NO_FACE && n.parent.Keys == n.face.Keys;
    hide *;
    PortsOf(n, None, b.ports);
  }

  lemma PortsOf<P>(n: AudioTree.Network<P>, k: Option<P>, ports: map<P, Face>)
    requires n.parent.Keys == n.face.Keys && (k.Some? ==> k.value in n.face)
    requires forall p :: p in ports ==> p in n.face && n.parent[p] == k && n.face[p] == ports[p]
    requires forall p :: p in n.face && n.parent[p] == k ==> p in ports
    ensures AudioTree.BridgeOf(n, k).ports == ports
  {
  }

  lemma MainInTree<S, P>(w: Wiring<S, P>, c: Conference<S, P>, p: P)
    requires Good(w, c) && p in c.board.bridges[Main].ports
    ensures p in Tree(w, c).face && Tree(w, c).parent[p] == None
    ensures Tree(w, c).face[p] == c.board.bridges[Main].ports[p]
  {
    hide Planned, Meshes, IsForwarder, FaceOf;
  }

  lemma TreeBridge<S, P>(w: Wiring<S, P>, c: Conference<S, P>, s: S)
    requires Good(w, c) && s in c.members
    ensures var n := Tree(w, c);
            && n.parent.Keys == n.face.Keys && w.bridgePort[s] in n.face
            && AudioTree.BridgeOf(n, Some(w.bridgePort[s])) == c.board.bridges[Of(s)]
  {
    hide Meshes, Planned, IsForwarder;
    var n := Tree(w, c);
    var b := c.board.bridges[Of(s)];
    forall p | p in b.ports
      ensures p in n.face && n.parent[p] == Some(w.bridgePort[s]) && n.face[p] == b.ports[p]
    {
      var k := PlaceInTree(w, c, p);
      OnOneBridge(w, c, k, Of(s), p);
    }
    forall p | p in n.face && n.parent[p] == Some(w.bridgePort[s]) ensures p in b.ports {
      var k := PlaceInTree(w, c, p);
    }
    PortsOf(n, Some(w.bridgePort[s]), b.ports);
  }

  /** A slot of the tree is a slot of one of its bridges. */
  lemma TreeSlots<S, P>(w: Wiring<S, P>, c: Conference<S, P>, x: Slot)
    requires Good(w, c)
    ensures AudioTree.IsSource(Tree(w, c), x) ==>
      exists k :: InTree(c, k) && k in c.board.bridges && x in Sources(c.board.bridges[k])
    ensures AudioTree.IsSink(Tree(w, c), x) ==>
      exists k :: InTree(c, k) && k in c.board.bridges && x in Sinks(c.board.bridges[k])
  {
    hide Planned, Meshes;
    var n := Tree(w, c);
    forall p | p in n.face
      ensures n.face[p].producer == Some(x) ==>
        exists k :: InTree(c, k) && k in c.board.bridges && x in Sources(c.board.bridges[k])
      ensures n.face[p].consumer == Some(x) ==>
        exists k :: InTree(c, k) && k in c.board.bridges && x in Sinks(c.board.bridges[k])
    {
      var k := PlaceInTree(w, c, p);
      assert InTree(c, k);
    }
    forall p | p in n.bridges
      ensures p in n.face
      ensures n.face[p].consumer == Some(x) ==>
        exists k :: InTree(c, k) && k in c.board.bridges && x in Sources(c.board.bridges[k])
      ensures n.face[p].producer == Some(x) ==>
        exists k :: InTree(c, k) && k in c.board.bridges && x in Sinks(c.board.bridges[k])
    {
      var s :| s in c.members && p == w.bridgePort[s];
      assert InTree(c, Of(s));
    }
  }

  /** The mixer connects the slots of the tree exactly as its bridges do. */
  lemma TreeIsCarried<S, P>(w: Wiring<S, P>, c: Conference<S, P>)
    requires Good(w, c)
    ensures AudioTree.Valid(Tree(w, c)) && AudioTree.Carries(c.board.connections, Tree(w, c))
  {
    var n := Tree(w, c);
    TreeIsValid(w, c);
    TreeBridges(w, c);
    assert forall b :: b in n.bridges ==> exists s :: s in c.members && b == w.bridgePort[s];
    assert forall s :: s in c.members ==> w.bridgePort[s] in n.bridges;
    hide Tree, Good, Meshed, Sources, Sinks;
    hide AudioTree.IsSource, AudioTree.IsSink, AudioTree.Carries, AudioTree.BridgeOf, AudioTree.Valid;
    forall b | AudioTree.OnTree(n, b) ensures Meshed(c.board.connections, AudioTree.BridgeOf(n, b)) {
      if b == None {
        MainIsThere(w, c);
        GoodIsMeshed(w, c, Main);
      } else {
        var s :| s in c.members && b.value == w.bridgePort[s];
        MemberIsThere(w, c, s);
        GoodIsMeshed(w, c, Of(s));
      }
    }
    forall x | x in c.board.connections && AudioTree.IsSource(n, x.0) && AudioTree.IsSink(n, x.1)
      ensures exists b :: AudioTree.OnTree(n, b) && x.0 in Sources(AudioTree.BridgeOf(n, b))
                  && x.1 in Sinks(AudioTree.BridgeOf(n, b))
    {
      var k := ConnectionInTree(w, c, x);
      if k == Main {
        assert AudioTree.OnTree(n, None);
      } else {
        assert AudioTree.OnTree(n, Some(w.bridgePort[k.stream]));
      }
    }
    AudioTree.MeshesCarry(c.board.connections, n);
  }

  lemma MainIsThere<S, P>(w: Wiring<S, P>, c: Conference<S, P>)
    requires Good(w, c)
    ensures Main in c.board.bridges
  {
  }

  lemma MemberIsThere<S, P>(w: Wiring<S, P>, c: Conference<S, P>, s: S)
    requires Good(w, c) && s in c.members
    ensures Of(s) in c.board.bridges
  {
  }

  lemma DeviceNotLinked<S, P>(w: Wiring<S, P>, c: Conference<S, P>, k: Place<S>)
    requires Good(w, c) && k in c.board.bridges
    ensures (DEVICE_SLOT, DEVICE_SLOT) !in Mesh(c.board.bridges[k])
  {
    hide Wired, Planned, UpToDate, Seated, Meshes;
    BridgesApart(w, c);
  }

  /** A connection between slots of the tree is made by a bridge of the tree. */
  lemma ConnectionInTree<S, P>(w: Wiring<S, P>, c: Conference<S, P>, x: Connection) returns (k: Place<S>)
    requires Good(w, c) && x in c.board.connections
    requires AudioTree.IsSource(Tree(w, c), x.0) && AudioTree.IsSink(Tree(w, c), x.1)
    ensures InTree(c, k) && k in c.board.bridges
    ensures x.0 in Sources(c.board.bridges[k]) && x.1 in Sinks(c.board.bridges[k])
  {
    TreeSlots(w, c, x.0);
    TreeSlots(w, c, x.1);
    BridgesApart(w, c);
    forall l | l in c.board.bridges ensures (DEVICE_SLOT, DEVICE_SLOT) !in Mesh(c.board.bridges[l]) {
      DeviceNotLinked(w, c, l);
    }
    hide Wired, Planned, UpToDate, Seated, Tree, AudioTree.IsSource, AudioTree.IsSink;
    hide Apart, NoEcho, Distinct, Mesh, Sources, Sinks;
    k :| k in c.board.bridges && x in Mesh(c.board.bridges[k]);
    MeshUsesSlots(c.board.bridges[k], x);
    if !InTree(c, k) {
      var l :| InTree(c, l) && l in c.board.bridges && x.0 in Sources(c.board.bridges[l]);
      var m :| InTree(c, m) && m in c.board.bridges && x.1 in Sinks(c.board.bridges[m]);
      ApartSlots(c.board.bridges[k], c.board.bridges[l]);
      ApartSlots(c.board.bridges[k], c.board.bridges[m]);
    }
  }

  /** Whatever commands there were, everything in the conference that produces audio is heard by
      everything else in it that consumes audio along exactly one path, and by itself along none. */
  lemma ConferenceIsFlat<S, P>(w: Wiring<S, P>, c: Conference<S, P>, commands: seq<Command<S, P>>, p: P, q: P)
    requires Good(w, c) && AllAllowed(w, c, commands)
    ensures var c' := Run(w, c, commands);
            Wired(w, c') && Heard(c'.board.connections, Tree(w, c'), p, q)
  {
    hide Good, Tree, AllAllowed;
    EveryRun(w, c, commands);
    var c' := Run(w, c, commands);
    GoodIsWired(w, c');
    TreeIsCarried(w, c');
    var n := Tree(w, c');
    HeardOnce(c'.board.connections, n, p, q);
  }

  lemma HeardOnce<P>(connections: set<Connection>, n: AudioTree.Network<P>, p: P, q: P)
    requires AudioTree.Valid(n) && AudioTree.Carries(connections, n)
    ensures Heard(connections, n, p, q)
  {
    if AudioTree.IsLeaf(n, p) && n.face[p].producer.Some? && AudioTree.IsLeaf(n, q) && n.face[q].consumer.Some? {
      AudioTree.FlatBridge(connections, n, p, q);
      hide AudioTree.Path, AudioTree.Route, AudioTree.Reaches, AudioTree.Carries;
      if p != q {
        var route := AudioTree.Route(n, AudioTree.Up(p), q);
        assert IsOnly(connections, n, n.face[p].producer.value, n.face[q].consumer.value, route);
      }
    }
  }

  lemma GoodIsWired<S, P>(w: Wiring<S, P>, c: Conference<S, P>)
    requires Good(w, c)
    ensures Wired(w, c)
  {
  }

  /** One leaf is heard by another along exactly one path, and by itself along none. */
  ghost predicate Heard<P>(connections: set<Connection>, n: AudioTree.Network<P>, p: P, q: P) {
    AudioTree.IsLeaf(n, p) && n.face[p].producer.Some? && AudioTree.IsLeaf(n, q) && n.face[q].consumer.Some? ==>
      var x, y := n.face[p].producer.value, n.face[q].consumer.value;
      && (p == q ==> forall s :: AudioTree.Path(connections, n, s) && s[0] == x ==> s[|s| - 1] != y)
      && (p != q ==> exists route :: IsOnly(connections, n, x, y, route))
  }

  ghost predicate IsOnly<P>(connections: set<Connection>, n: AudioTree.Network<P>, x: Slot, y: Slot, route: seq<Slot>) {
    && AudioTree.Path(connections, n, route) && route[0] == x && route[|route| - 1] == y
    && forall s :: AudioTree.Path(connections, n, s) && s[0] == x && s[|s| - 1] == y ==> s == route
  }
}
