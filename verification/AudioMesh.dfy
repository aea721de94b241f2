/** Connections between mixer slots, and what it means for the ports of a bridge to form a
    full mesh. */
module AudioMesh {
  import opened Wrappers

  type Slot = nat

  /** A connection carries audio from its first slot to its second. */
  type Connection = (Slot, Slot)

  /** The slots of a port: where its audio is read from, and where audio for it is written. */
  datatype Face = Face(producer: Option<Slot>, consumer: Option<Slot>)

  /** The connection from one port to another, if the one can produce and the other consume. */
  function Link(e: Face, f: Face): set<Connection> {
    if e.producer.Some? && f.consumer.Some? then {(e.producer.value, f.consumer.value)} else {}
  }

  /** A bridge: the faces of its ports, and its own face as seen by them. Audio from the
      outside enters through the producer of the inner face, audio for the outside leaves
      through its consumer; a root bridge has neither. */
  datatype Bridge<!P> = Bridge(inner: Face, ports: map<P, Face>)

  const NO_FACE := Face(None, None)

  /** The connections from some of the ports to a face. */
  function LinksInto<P>(e: Face, ports: map<P, Face>, some: set<P>): set<Connection>
    requires some <= ports.Keys
  {
    set p, c | p in some && c in Link(ports[p], e) :: c
  }

  /** The connections from a face to some of the ports. */
  function LinksOutOf<P>(e: Face, ports: map<P, Face>, some: set<P>): set<Connection>
    requires some <= ports.Keys
  {
    set p, c | p in some && c in Link(e, ports[p]) :: c
  }

  function LinksWith<P>(e: Face, ports: map<P, Face>, some: set<P>): set<Connection>
    requires some <= ports.Keys
  {
    LinksOutOf(e, ports, some) + LinksInto(e, ports, some)
  }

  /** The connections in both directions between a face and everything on a bridge. */
  function LinksOf<P>(e: Face, b: Bridge<P>): set<Connection> {
    Link(e, b.inner) + Link(b.inner, e) + LinksWith(e, b.ports, b.ports.Keys)
  }

  predicate DistinctFaces(e: Face, f: Face) {
    && (e.producer.Some? ==> e.producer != f.producer)
    && (e.consumer.Some? ==> e.consumer != f.consumer)
  }

  /** A face shares no slot with anything on a bridge. */
  ghost predicate NewFace<P>(e: Face, b: Bridge<P>) {
    DistinctFaces(e, b.inner) && forall p :: p in b.ports ==> DistinctFaces(e, b.ports[p])
  }

  /** All faces on a bridge have slots of their own. */
  ghost predicate Distinct<P>(b: Bridge<P>) {
    && (forall p :: p in b.ports ==> DistinctFaces(b.ports[p], b.inner))
    && (forall p, q :: p in b.ports && q in b.ports && p != q ==> DistinctFaces(b.ports[p], b.ports[q]))
  }

  /** Every port is connected to every other, and to the inner face, in both directions, and
      nothing on the bridge is connected to itself. */
  ghost predicate Meshed<P>(connections: set<Connection>, b: Bridge<P>) {
    && (forall p, q :: p in b.ports && q in b.ports && p != q ==> Link(b.ports[p], b.ports[q]) <= connections)
    && (forall p :: p in b.ports ==> Link(b.ports[p], b.inner) + Link(b.inner, b.ports[p]) <= connections)
    && (forall p :: p in b.ports ==> Link(b.ports[p], b.ports[p]) !! connections)
    && Link(b.inner, b.inner) !! connections
  }

  // ---------------------------------------------------------------- what operations do to connections

  datatype State<!P> = State(connections: set<Connection>, bridge: Bridge<P>)

  datatype Event<P> = Added(port: P, face: Face) | Removed(port: P) | Changed(port: P, face: Face)

  function Without<P>(b: Bridge<P>, p: P): Bridge<P> {
    b.(ports := b.ports - {p})
  }

  function After<P>(s: State<P>, e: Event<P>): State<P> {
    var b := s.bridge;
    match e
    case Added(p, face) =>
      if p in b.ports then s else State(s.connections + LinksOf(face, b), b.(ports := b.ports[p := face]))
    case Removed(p) =>
      if p !in b.ports then s else State(s.connections - LinksOf(b.ports[p], b), Without(b, p))
    case Changed(p, face) =>
      if p !in b.ports then s
      else State(s.connections - LinksOf(b.ports[p], Without(b, p)) + LinksOf(face, Without(b, p)),
          b.(ports := b.ports[p := face]))
  }

  function AfterAll<P>(s: State<P>, events: seq<Event<P>>): State<P> {
    if events == [] then s else After(AfterAll(s, events[..|events| - 1]), events[|events| - 1])
  }

  /** What the mixer guarantees about an event: slots that are in use are not given out
      again, and no port is connected to itself. */
  ghost predicate Fair<P>(s: State<P>, e: Event<P>) {
    var b := s.bridge;
    match e
    case Added(p, face) => p !in b.ports ==> NewFace(face, b) && Link(face, face) !! s.connections
    case Removed(p) => true
    case Changed(p, face) => p in b.ports ==> NewFace(face, Without(b, p)) && Link(face, face) !! s.connections
  }

  ghost predicate AllFair<P>(s: State<P>, events: seq<Event<P>>) {
    forall i :: 0 <= i < |events| ==> Fair(AfterAll(s, events[..i]), events[i])
  }

  /** A link of a face with a bridge has the face at exactly one end, so it is none of the
      connections among the others. */
  lemma LinksAreSeparate<P>(e: Face, b: Bridge<P>, c: Connection)
    requires NewFace(e, b) && c in LinksOf(e, b)
    ensures (e.producer == Some(c.0)) != (e.consumer == Some(c.1))
  {
  }

  lemma PutKeepsDistinct<P>(b: Bridge<P>, p: P, face: Face)
    requires Distinct(b) && NewFace(face, Without(b, p))
    ensures Distinct(b.(ports := b.ports[p := face]))
  {
    forall q | q in b.ports && q != p ensures DistinctFaces(b.ports[q], face) {
      assert DistinctFaces(face, Without(b, p).ports[q]);
    }
  }

  lemma DistinctAfter<P>(s: State<P>, e: Event<P>)
    requires Distinct(s.bridge) && Fair(s, e)
    ensures Distinct(After(s, e).bridge)
  {
    hide LinksOf;
    match e
    case Added(p, face) =>
      if p !in s.bridge.ports {
        assert Without(s.bridge, p).ports == s.bridge.ports;
        PutKeepsDistinct(s.bridge, p, face);
      }
    case Removed(p) =>
    case Changed(p, face) =>
      if p in s.bridge.ports {
        PutKeepsDistinct(s.bridge, p, face);
      }
  }

  lemma AddKeepsMesh<P>(s: State<P>, p: P, face: Face)
    requires Distinct(s.bridge) && Meshed(s.connections, s.bridge) && Fair(s, Added(p, face))
    ensures Meshed(After(s, Added(p, face)).connections, After(s, Added(p, face)).bridge)
  {
    var b := s.bridge;
    if p !in b.ports {
      var t := After(s, Added(p, face));
      var b' := t.bridge;
      forall c | c in LinksOf(face, b) ensures (face.producer == Some(c.0)) != (face.consumer == Some(c.1)) {
        LinksAreSeparate(face, b, c);
      }
      forall q | q in b'.ports ensures Link(b'.ports[q], b'.ports[q]) !! t.connections {
        if q != p {
          assert DistinctFaces(face, b.ports[q]);
        }
      }
      assert Link(b.inner, b.inner) !! t.connections;
      forall q, r | q in b'.ports && r in b'.ports && q != r ensures Link(b'.ports[q], b'.ports[r]) <= t.connections {
        if q == p {
          assert Link(face, b.ports[r]) <= LinksOf(face, b);
        } else if r == p {
          assert Link(b.ports[q], face) <= LinksOf(face, b);
        }
      }
    }
  }

  lemma RemoveKeepsMesh<P>(s: State<P>, p: P)
    requires Distinct(s.bridge) && Meshed(s.connections, s.bridge)
    ensures Meshed(After(s, Removed(p)).connections, After(s, Removed(p)).bridge)
  {
    var b := s.bridge;
    if p in b.ports {
      var t := After(s, Removed(p));
      var face := b.ports[p];
      var b0 := Without(b, p);
      forall c | c in LinksOf(face, b) ensures face.producer == Some(c.0) || face.consumer == Some(c.1) {
      }
      forall q, r | q in b0.ports && r in b0.ports && q != r ensures Link(b0.ports[q], b0.ports[r]) <= t.connections {
        assert DistinctFaces(face, b.ports[q]) && DistinctFaces(face, b.ports[r]);
      }
      forall q | q in b0.ports ensures Link(b0.ports[q], b.inner) + Link(b.inner, b0.ports[q]) <= t.connections {
        assert DistinctFaces(face, b.ports[q]) && DistinctFaces(face, b.inner);
      }
    }
  }

  /** Taking a port off and putting it back with its new face is what a change of slots does. */
  lemma ChangeIsRemoveThenAdd<P>(s: State<P>, p: P, face: Face)
    requires p in s.bridge.ports && Meshed(s.connections, s.bridge)
    ensures After(s, Changed(p, face)) == After(After(s, Removed(p)), Added(p, face))
  {
    var b := s.bridge;
    var e := b.ports[p];
    assert b.ports == Without(b, p).ports[p := e];
    assert LinksOf(e, b) == LinksOf(e, Without(b, p)) + Link(e, e) by {
      forall c | c in LinksOf(e, b) ensures c in LinksOf(e, Without(b, p)) + Link(e, e) {
      }
    }
    assert s.connections - LinksOf(e, b) == s.connections - LinksOf(e, Without(b, p));
    assert b.ports[p := face] == Without(b, p).ports[p := face];
  }

  lemma EventKeepsMesh<P>(s: State<P>, e: Event<P>)
    requires Distinct(s.bridge) && Meshed(s.connections, s.bridge) && Fair(s, e)
    ensures Distinct(After(s, e).bridge) && Meshed(After(s, e).connections, After(s, e).bridge)
  {
    DistinctAfter(s, e);
    match e
    case Added(p, face) => AddKeepsMesh(s, p, face);
    case Removed(p) => RemoveKeepsMesh(s, p);
    case Changed(p, face) =>
      if p in s.bridge.ports {
        RemoveKeepsMesh(s, p);
        DistinctAfter(s, Removed(p));
        AddKeepsMesh(After(s, Removed(p)), p, face);
        ChangeIsRemoveThenAdd(s, p, face);
      }
  }

  /** Over any sequence of additions, removals and slot changes the ports of a bridge stay a
      full mesh. */
  lemma {:induction false} EventsKeepMesh<P>(s: State<P>, events: seq<Event<P>>)
    requires Distinct(s.bridge) && Meshed(s.connections, s.bridge) && AllFair(s, events)
    ensures Distinct(AfterAll(s, events).bridge)
    ensures Meshed(AfterAll(s, events).connections, AfterAll(s, events).bridge)
    decreases |events|
  {
    if events != [] {
      var last := |events| - 1;
      assert forall i :: 0 <= i < last ==> events[..last][..i] == events[..i];
      assert events[..|events|][..last] == events[..last];
      EventsKeepMesh(s, events[..last]);
      EventKeepsMesh(AfterAll(s, events[..last]), events[last]);
    }
  }

  // ---------------------------------------------------------------- bridges that share a mixer

  function Sources<P>(b: Bridge<P>): set<Slot> {
    (set p | p in b.ports && b.ports[p].producer.Some? :: b.ports[p].producer.value)
    + if b.inner.producer.Some? then {b.inner.producer.value} else {}
  }

  function Sinks<P>(b: Bridge<P>): set<Slot> {
    (set p | p in b.ports && b.ports[p].consumer.Some? :: b.ports[p].consumer.value)
    + if b.inner.consumer.Some? then {b.inner.consumer.value} else {}
  }

  /** The connections of a full mesh of ports. */
  ghost function PortMesh<P>(ports: map<P, Face>): set<Connection> {
    set p, q, c | p in ports && q in ports && p != q && c in Link(ports[p], ports[q]) :: c
  }

  /** The connections of a full mesh of ports, each also connected with the inner face. */
  ghost function Mesh<P>(b: Bridge<P>): set<Connection> {
    PortMesh(b.ports) + (set p, c | p in b.ports && c in Link(b.ports[p], b.inner) + Link(b.inner, b.ports[p]) :: c)
  }

  /** The connections between the slots of a bridge are exactly its full mesh. */
  lemma OwnedConnections<P>(connections: set<Connection>, b: Bridge<P>)
    requires Distinct(b) && Meshed(connections, b)
    ensures (set c | c in connections && c.0 in Sources(b) && c.1 in Sinks(b)) == Mesh(b)
  {
    forall c | c in Mesh(b) ensures c in connections && c.0 in Sources(b) && c.1 in Sinks(b) {
    }
    forall c | c in connections && c.0 in Sources(b) && c.1 in Sinks(b) ensures c in Mesh(b) {
      if b.inner.producer == Some(c.0) {
        assert b.inner.consumer == Some(c.1) ==> c in Link(b.inner, b.inner);
        var q :| q in b.ports && b.ports[q].consumer == Some(c.1);
        assert c in Link(b.inner, b.ports[q]);
      } else {
        var p :| p in b.ports && b.ports[p].producer == Some(c.0);
        if b.inner.consumer == Some(c.1) {
          assert c in Link(b.ports[p], b.inner);
        } else {
          var q :| q in b.ports && b.ports[q].consumer == Some(c.1);
          assert c in Link(b.ports[p], b.ports[q]);
        }
      }
    }
  }

  /** The slot of the sound device, which every audio device object stands for. */
  const DEVICE_SLOT: Slot := 0

  /** Two bridges have no slot in common but that of the sound device. */
  ghost predicate Apart<P>(b: Bridge<P>, c: Bridge<P>) {
    Sources(b) * Sources(c) <= {DEVICE_SLOT} && Sinks(b) * Sinks(c) <= {DEVICE_SLOT}
  }

  /** No two ports of a bridge would connect the sound device with itself. */
  ghost predicate NoEcho<P>(b: Bridge<P>) {
    (DEVICE_SLOT, DEVICE_SLOT) !in Mesh(b)
  }

  /** Everything on one bridge is on another as well, seen from the same inner face. */
  ghost predicate Within<P>(b: Bridge<P>, c: Bridge<P>) {
    b.inner == c.inner && forall p :: p in b.ports ==> p in c.ports && b.ports[p] == c.ports[p]
  }

  lemma WithinHasFewerSlots<P>(b: Bridge<P>, c: Bridge<P>)
    requires Within(b, c)
    ensures Sources(b) <= Sources(c) && Sinks(b) <= Sinks(c) && Mesh(b) <= Mesh(c)
    ensures Distinct(c) ==> Distinct(b)
    ensures NoEcho(c) ==> NoEcho(b)
  {
  }

  lemma LinksUseSlots<P>(e: Face, b: Bridge<P>, c: Connection)
    requires c in LinksOf(e, b)
    ensures c.0 in Sources(b) || e.producer == Some(c.0)
    ensures c.1 in Sinks(b) || e.consumer == Some(c.1)
  {
  }

  /** The links of a port with the rest of its bridge are part of the mesh. */
  lemma LinksInMesh<P>(b: Bridge<P>, p: P, c: Connection)
    requires p in b.ports && c in LinksOf(b.ports[p], Without(b, p))
    ensures c in Mesh(b)
  {
  }

  lemma MeshUsesSlots<P>(b: Bridge<P>, c: Connection)
    requires c in Mesh(b)
    ensures c.0 in Sources(b) && c.1 in Sinks(b)
  {
  }

  lemma OnlyDeviceShared<P>(b: Bridge<P>, other: Bridge<P>, c: Connection)
    requires Apart(b, other)
    requires c.0 in Sources(b) && c.0 in Sources(other) && c.1 in Sinks(b) && c.1 in Sinks(other)
    ensures c == (DEVICE_SLOT, DEVICE_SLOT)
  {
    assert c.0 in Sources(b) * Sources(other) && c.1 in Sinks(b) * Sinks(other);
  }

  /** A connection that an event makes is in the mesh that results. */
  lemma MadeInMesh<P>(s: State<P>, e: Event<P>, c: Connection)
    requires c in After(s, e).connections && c !in s.connections
    ensures c in Mesh(After(s, e).bridge)
  {
    hide LinksOf, Mesh;
    var t := After(s, e).bridge;
    assert Without(t, e.port).ports == Without(s.bridge, e.port).ports;
    if e.Added? {
      assert Without(s.bridge, e.port).ports == s.bridge.ports;
    }
    LinksInMesh(t, e.port, c);
  }

  /** A connection that an event breaks has both its ends on the bridge. */
  lemma BrokenOnBridge<P>(s: State<P>, e: Event<P>, c: Connection)
    requires c !in After(s, e).connections && c in s.connections
    ensures c.0 in Sources(s.bridge) && c.1 in Sinks(s.bridge)
  {
    hide LinksOf, Mesh, NoEcho, Distinct;
    var b := s.bridge;
    var b0 := Without(b, e.port);
    WithinHasFewerSlots(b0, b);
    if c in LinksOf(b.ports[e.port], b) {
      LinksUseSlots(b.ports[e.port], b, c);
    } else {
      LinksUseSlots(b.ports[e.port], b0, c);
    }
  }

  /** What happens on one bridge does not disturb the mesh of another that shares no slot with
      it but that of the sound device. */
  lemma OtherBridgeKept<P>(s: State<P>, e: Event<P>, other: Bridge<P>)
    requires Meshed(s.connections, other) && NoEcho(other)
    requires Apart(s.bridge, other)
    requires Apart(After(s, e).bridge, other) && NoEcho(After(s, e).bridge)
    ensures Meshed(After(s, e).connections, other)
  {
    var t := After(s, e);
    forall c: Connection | c.0 in Sources(other) && c.1 in Sinks(other) && c in t.connections
      ensures c in s.connections
    {
      if c !in s.connections {
        MadeInMesh(s, e, c);
        MeshUsesSlots(t.bridge, c);
        OnlyDeviceShared(t.bridge, other, c);
      }
    }
    forall c | c in Mesh(other) ensures c in t.connections {
      MeshUsesSlots(other, c);
      if c !in t.connections {
        BrokenOnBridge(s, e, c);
        OnlyDeviceShared(s.bridge, other, c);
      }
    }
    MeshedBySlots(s.connections, t.connections, other);
  }

  /** Whether a bridge is meshed is decided by its mesh and the connections between its slots. */
  lemma MeshedBySlots<P>(before: set<Connection>, after: set<Connection>, b: Bridge<P>)
    requires Meshed(before, b) && Mesh(b) <= after
    requires forall c: Connection :: c.0 in Sources(b) && c.1 in Sinks(b) && c in after ==> c in before
    ensures Meshed(after, b)
  {
  }
}
