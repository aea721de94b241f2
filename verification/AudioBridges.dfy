/** The audio bridges: objects that keep the mixer connections of their ports up to date one
    port at a time. */
module AudioBridges {
  import opened Wrappers
  import opened AudioMesh
  import AudioConferences

  /** The conference mixer; connecting and disconnecting slots is idempotent. */
  class Mixer {
    var connections: set<Connection>

    constructor ()
      ensures connections == {}
    {
      connections := {};
    }

    method ConnectSlots(source: Slot, sink: Slot)
      modifies this
      ensures connections == old(connections) + {(source, sink)}
    {
      connections := connections + {(source, sink)};
    }

    method DisconnectSlots(source: Slot, sink: Slot)
      modifies this
      ensures connections == old(connections) - {(source, sink)}
    {
      connections := connections - {(source, sink)};
    }

    /** Takes a slot out of use, with every connection it has. */
    method RemovePort(slot: Slot)
      modifies this
      ensures connections == set c | c in old(connections) && c.0 != slot && c.1 != slot
    {
      connections := set c | c in connections && c.0 != slot && c.1 != slot;
    }
  }

  /** Anything that produces or consumes audio through slots of a mixer. */
  class Port {
    const mixer: Mixer
    var producerSlot: Option<Slot>
    var consumerSlot: Option<Slot>

    constructor (mixer: Mixer, producerSlot: Option<Slot>, consumerSlot: Option<Slot>)
      ensures this.mixer == mixer && this.producerSlot == producerSlot && this.consumerSlot == consumerSlot
    {
      this.mixer, this.producerSlot, this.consumerSlot := mixer, producerSlot, consumerSlot;
    }

    function Slots(): Face
      reads this
    {
      Face(producerSlot, consumerSlot)
    }
  }

  ghost function View(ports: set<Port>): map<Port, Face>
    reads ports
  {
    map p | p in ports :: p.Slots()
  }

  // ---------------------------------------------------------------- loops over the ports

  lemma OneMore(e: Face, ports: map<Port, Face>, some: set<Port>, p: Port)
    requires some <= ports.Keys && p in ports
    ensures LinksInto(e, ports, some + {p}) == LinksInto(e, ports, some) + Link(ports[p], e)
    ensures LinksOutOf(e, ports, some + {p}) == LinksOutOf(e, ports, some) + Link(e, ports[p])
  {
  }

  lemma NoneYet(e: Face, ports: map<Port, Face>)
    ensures LinksInto(e, ports, {}) == {} && LinksOutOf(e, ports, {}) == {}
  {
  }

  /** Connects one port to another if the one produces and the other consumes. */
  method ConnectTo(mixer: Mixer, source: Option<Slot>, sink: Option<Slot>)
    modifies mixer
    ensures mixer.connections == old(mixer.connections) + Link(Face(source, None), Face(None, sink))
  {
    if source.Some? && sink.Some? {
      mixer.ConnectSlots(source.value, sink.value);
    }
  }

  method DisconnectTo(mixer: Mixer, source: Option<Slot>, sink: Option<Slot>)
    modifies mixer
    ensures mixer.connections == old(mixer.connections) - Link(Face(source, None), Face(None, sink))
  {
    if source.Some? && sink.Some? {
      mixer.DisconnectSlots(source.value, sink.value);
    }
  }

  /** Connects a port with other ports in both directions. */
  method ConnectWith(mixer: Mixer, port: Port, others: set<Port>)
    modifies mixer
    ensures mixer.connections == old(mixer.connections) + LinksWith(port.Slots(), View(others), others)
  {
    var rest := others;
    ghost var seen: set<Port> := {};
    ghost var e, faces := port.Slots(), View(others);
    NoneYet(e, faces);
    hide LinksInto, LinksOutOf;
    while rest != {}
      invariant seen + rest == others && seen !! rest
      invariant mixer.connections == old(mixer.connections) + LinksOutOf(e, faces, seen) + LinksInto(e, faces, seen)
      decreases rest
    {
      var other :| other in rest;
      OneMore(e, faces, seen, other);
      ConnectTo(mixer, other.producerSlot, port.consumerSlot);
      ConnectTo(mixer, port.producerSlot, other.consumerSlot);
      rest := rest - {other};
      seen := seen + {other};
    }
    assert seen == others;
  }

  /** Disconnects a port from other ports in both directions. */
  method DisconnectFrom(mixer: Mixer, port: Port, others: set<Port>)
    modifies mixer
    ensures mixer.connections == old(mixer.connections) - LinksWith(port.Slots(), View(others), others)
  {
    var rest := others;
    ghost var seen: set<Port> := {};
    ghost var e, faces := port.Slots(), View(others);
    NoneYet(e, faces);
    hide LinksInto, LinksOutOf;
    while rest != {}
      invariant seen + rest == others && seen !! rest
      invariant mixer.connections == old(mixer.connections) - (LinksOutOf(e, faces, seen) + LinksInto(e, faces, seen))
      decreases rest
    {
      var other :| other in rest;
      OneMore(e, faces, seen, other);
      DisconnectTo(mixer, other.producerSlot, port.consumerSlot);
      DisconnectTo(mixer, port.producerSlot, other.consumerSlot);
      rest := rest - {other};
      seen := seen + {other};
    }
    assert seen == others;
  }

  // ---------------------------------------------------------------- slot changes

  /** One half of a slot-change notification. */
  datatype Change = Unchanged | Change(before: Option<Slot>, after: Option<Slot>)

  function Before(c: Change, current: Option<Slot>): Option<Slot> {
    if c.Unchanged? then current else c.before
  }

  /** The notification reports the slot the port has now. */
  predicate Truthful(c: Change, current: Option<Slot>) {
    c.Change? ==> c.after == current
  }

  /** The connections into a face from the inner face and the other ports of a bridge. */
  ghost function Inward(e: Face, b: Bridge<Port>): set<Connection> {
    Link(b.inner, e) + LinksInto(e, b.ports, b.ports.Keys)
  }

  ghost function Outward(e: Face, b: Bridge<Port>): set<Connection> {
    Link(e, b.inner) + LinksOutOf(e, b.ports, b.ports.Keys)
  }

  lemma InwardNeedsConsumer(e: Face, f: Face, b: Bridge<Port>)
    requires e.consumer == f.consumer
    ensures Inward(e, b) == Inward(f, b)
  {
    assert forall p :: p in b.ports ==> Link(b.ports[p], e) == Link(b.ports[p], f);
  }

  lemma OutwardNeedsProducer(e: Face, f: Face, b: Bridge<Port>)
    requires e.producer == f.producer
    ensures Outward(e, b) == Outward(f, b)
  {
    assert forall p :: p in b.ports ==> Link(e, b.ports[p]) == Link(f, b.ports[p]);
  }

  /** The producers of the other ports take their audio to a new slot. */
  method MoveConsumer(mixer: Mixer, others: set<Port>, ghost inner: Face, before: Option<Slot>, after: Option<Slot>)
    requires Distinct(Bridge(inner, View(others)))
    modifies mixer
    ensures var faces := View(others);
            mixer.connections ==
                old(mixer.connections) - LinksInto(Face(None, before), faces, others) + LinksInto(Face(None, after),
                faces, others)
  {
    var rest := others;
    ghost var seen: set<Port> := {};
    ghost var e, f, faces := Face(None, before), Face(None, after), View(others);
    NoneYet(e, faces);
    NoneYet(f, faces);
    while rest != {}
      invariant seen + rest == others && seen !! rest
      invariant mixer.connections == old(mixer.connections) - LinksInto(e, faces, seen) + LinksInto(f, faces, seen)
      decreases rest
    {
      var other :| other in rest;
      OneMore(e, faces, seen, other);
      OneMore(f, faces, seen, other);
      assert Link(faces[other], e) !! LinksInto(f, faces, seen) by {
        assert forall p :: p in seen ==> DistinctFaces(faces[p], faces[other]);
      }
      hide LinksInto;
      DisconnectTo(mixer, other.producerSlot, before);
      ConnectTo(mixer, other.producerSlot, after);
      rest := rest - {other};
      seen := seen + {other};
    }
    assert seen == others;
  }

  /** The consumers of the other ports take their audio from a new slot. */
  method MoveProducer(mixer: Mixer, others: set<Port>, ghost inner: Face, before: Option<Slot>, after: Option<Slot>)
    requires Distinct(Bridge(inner, View(others)))
    modifies mixer
    ensures var faces := View(others);
            mixer.connections ==
                old(mixer.connections) - LinksOutOf(Face(before, None), faces, others) + LinksOutOf(Face(after, None),
                faces, others)
  {
    var rest := others;
    ghost var seen: set<Port> := {};
    ghost var e, f, faces := Face(before, None), Face(after, None), View(others);
    NoneYet(e, faces);
    NoneYet(f, faces);
    while rest != {}
      invariant seen + rest == others && seen !! rest
      invariant mixer.connections == old(mixer.connections) - LinksOutOf(e, faces, seen) + LinksOutOf(f, faces, seen)
      decreases rest
    {
      var other :| other in rest;
      OneMore(e, faces, seen, other);
      OneMore(f, faces, seen, other);
      assert Link(e, faces[other]) !! LinksOutOf(f, faces, seen) by {
        assert forall p :: p in seen ==> DistinctFaces(faces[p], faces[other]);
      }
      hide LinksOutOf;
      DisconnectTo(mixer, before, other.consumerSlot);
      ConnectTo(mixer, after, other.consumerSlot);
      rest := rest - {other};
      seen := seen + {other};
    }
    assert seen == others;
  }

  lemma ConsumerMoved(connections: set<Connection>, e: Face, f: Face, b: Bridge<Port>)
    requires Distinct(b)
    ensures connections - Link(b.inner, e) + Link(b.inner, f) - LinksInto(e, b.ports, b.ports.Keys) + LinksInto(f,
        b.ports, b.ports.Keys)
         == connections - Inward(e, b) + Inward(f, b)
  {
    assert LinksInto(e, b.ports, b.ports.Keys) !! Link(b.inner, f) by {
      assert forall p :: p in b.ports ==> DistinctFaces(b.ports[p], b.inner);
    }
  }

  lemma ProducerMoved(connections: set<Connection>, e: Face, f: Face, b: Bridge<Port>)
    requires Distinct(b)
    ensures connections - Link(e, b.inner) + Link(f, b.inner) - LinksOutOf(e, b.ports, b.ports.Keys) + LinksOutOf(f,
        b.ports, b.ports.Keys)
         == connections - Outward(e, b) + Outward(f, b)
  {
    assert LinksOutOf(e, b.ports, b.ports.Keys) !! Link(f, b.inner) by {
      assert forall p :: p in b.ports ==> DistinctFaces(b.ports[p], b.inner);
    }
  }

  method MoveInward(mixer: Mixer, others: set<Port>, inner: Face, before: Option<Slot>, after: Option<Slot>,
      ghost e: Face, ghost f: Face)
    requires Distinct(Bridge(inner, View(others)))
    requires e.consumer == before && f.consumer == after
    modifies mixer
    ensures var b := Bridge(inner, View(others));
            mixer.connections == old(mixer.connections) - Inward(e, b) + Inward(f, b)
  {
    hide LinksInto, Inward, Distinct;
    ghost var b := Bridge(inner, View(others));
    assert b.ports.Keys == others;
    ConsumerMoved(mixer.connections, Face(None, before), Face(None, after), b);
    InwardNeedsConsumer(Face(None, before), e, b);
    InwardNeedsConsumer(Face(None, after), f, b);
    DisconnectTo(mixer, inner.producer, before);
    ConnectTo(mixer, inner.producer, after);
    MoveConsumer(mixer, others, inner, before, after);
  }

  method MoveOutward(mixer: Mixer, others: set<Port>, inner: Face, before: Option<Slot>, after: Option<Slot>,
      ghost e: Face, ghost f: Face)
    requires Distinct(Bridge(inner, View(others)))
    requires e.producer == before && f.producer == after
    modifies mixer
    ensures var b := Bridge(inner, View(others));
            mixer.connections == old(mixer.connections) - Outward(e, b) + Outward(f, b)
  {
    hide LinksOutOf, Outward, Distinct;
    ghost var b := Bridge(inner, View(others));
    assert b.ports.Keys == others;
    ProducerMoved(mixer.connections, Face(before, None), Face(after, None), b);
    OutwardNeedsProducer(Face(before, None), e, b);
    OutwardNeedsProducer(Face(after, None), f, b);
    DisconnectTo(mixer, before, inner.consumer);
    ConnectTo(mixer, after, inner.consumer);
    MoveProducer(mixer, others, inner, before, after);
  }

  /** Moving the consumer and the producer of a face in turn, or only the one that changed, is
      moving the face. */
  lemma FaceMoved(connections: set<Connection>, e: Face, f: Face, b: Bridge<Port>, consumer: bool, producer: bool)
    requires NewFace(e, b) && LinksOf(e, b) <= connections
    requires consumer || e.consumer == f.consumer
    requires producer || e.producer == f.producer
    ensures var c1 := if consumer then connections - Inward(e, b) + Inward(f, b) else connections;
            var c2 := if producer then c1 - Outward(e, b) + Outward(f, b) else c1;
            c2 == connections - LinksOf(e, b) + LinksOf(f, b)
  {
    InwardNeedsConsumer(e, Face(None, e.consumer), b);
    InwardNeedsConsumer(f, Face(None, f.consumer), b);
    OutwardNeedsProducer(e, Face(e.producer, None), b);
    OutwardNeedsProducer(f, Face(f.producer, None), b);
    LinksSplit(e, b);
    LinksSplit(f, b);
    InwardIsNotOutward(e, f, b);
    hide *;
    MovedSets(connections, Inward(e, b), Outward(e, b), Inward(f, b), Outward(f, b), consumer, producer);
  }

  lemma LinksSplit(e: Face, b: Bridge<Port>)
    ensures LinksOf(e, b) == Inward(e, b) + Outward(e, b)
  {
  }

  lemma InwardIsNotOutward(e: Face, f: Face, b: Bridge<Port>)
    requires NewFace(e, b)
    ensures Outward(e, b) !! Inward(f, b) && Outward(e, b) !! Inward(e, b)
  {
  }

  lemma MovedSets<T>(all: set<T>, in0: set<T>, out0: set<T>, in1: set<T>, out1: set<T>, consumer: bool, producer: bool)
    requires in0 + out0 <= all && out0 !! in1 && out0 !! in0
    requires (consumer || in0 == in1) && (producer || out0 == out1)
    ensures var c1 := if consumer then all - in0 + in1 else all;
            var c2 := if producer then c1 - out0 + out1 else c1;
            c2 == all - (in0 + out0) + (in1 + out1)
  {
  }

  /** Applies a truthful slot-change notification to the connections of a bridge. */
  method Reconnect(mixer: Mixer, sender: Port, ports: set<Port>, inner: Face, consumer: Change, producer: Change)
    requires sender in ports
    requires Truthful(consumer, sender.consumerSlot) && Truthful(producer, sender.producerSlot)
    requires var was := Face(Before(producer, sender.producerSlot), Before(consumer, sender.consumerSlot));
             var b := Bridge(inner, View(ports)[sender := was]);
             Distinct(b) && Meshed(mixer.connections, b)
    modifies mixer
    ensures var was := Face(Before(producer, sender.producerSlot), Before(consumer, sender.consumerSlot));
            var b := Bridge(inner, View(ports)[sender := was]);
            State(mixer.connections, Bridge(inner, View(ports))) ==
                After(State(old(mixer.connections), b), Changed(sender, sender.Slots()))
  {
    hide LinksOf, Inward, Outward, Meshed, Distinct, NewFace;
    var others := ports - {sender};
    ghost var was := Face(Before(producer, sender.producerSlot), Before(consumer, sender.consumerSlot));
    ghost var now := sender.Slots();
    ghost var b := Bridge(inner, View(ports)[sender := was]);
    ghost var b0 := Bridge(inner, View(others));
    assert Without(b, sender) == b0 && b.ports[sender := now] == View(ports);
    OthersOf(mixer.connections, b, sender);
    FaceMoved(mixer.connections, was, now, b0, consumer.Change?, producer.Change?);
    if consumer.Change? {
      MoveInward(mixer, others, inner, consumer.before, consumer.after, was, now);
    }
    if producer.Change? {
      MoveOutward(mixer, others, inner, producer.before, producer.after, was, now);
    }
  }

  lemma OthersOf(connections: set<Connection>, b: Bridge<Port>, p: Port)
    requires p in b.ports && Distinct(b) && Meshed(connections, b)
    ensures Distinct(Without(b, p)) && NewFace(b.ports[p], Without(b, p))
        && LinksOf(b.ports[p], Without(b, p)) <= connections
  {
  }

  lemma LinksAdded(connections: set<Connection>, e: Face, b: Bridge<Port>)
    ensures connections + Link(b.inner, e) + Link(e, b.inner) + LinksWith(e, b.ports, b.ports.Keys) ==
        connections + LinksOf(e, b)
    ensures connections - Link(b.inner, e) - Link(e, b.inner) - LinksWith(e, b.ports, b.ports.Keys) ==
        connections - LinksOf(e, b)
  {
    hide Link, LinksWith;
  }

  /** Connects a port with everything on a bridge. */
  method ConnectPort(mixer: Mixer, p: Port, inner: Face, ports: set<Port>)
    modifies mixer
    ensures mixer.connections == old(mixer.connections) + LinksOf(p.Slots(), Bridge(inner, View(ports)))
  {
    hide LinksWith, LinksOf;
    assert View(ports).Keys == ports;
    LinksAdded(mixer.connections, p.Slots(), Bridge(inner, View(ports)));
    ConnectTo(mixer, inner.producer, p.consumerSlot);
    ConnectTo(mixer, p.producerSlot, inner.consumer);
    ConnectWith(mixer, p, ports);
  }

  /** Disconnects a port from everything on a bridge. */
  method DisconnectPort(mixer: Mixer, p: Port, inner: Face, ports: set<Port>)
    modifies mixer
    ensures mixer.connections == old(mixer.connections) - LinksOf(p.Slots(), Bridge(inner, View(ports)))
  {
    hide LinksWith, LinksOf;
    assert View(ports).Keys == ports;
    LinksAdded(mixer.connections, p.Slots(), Bridge(inner, View(ports)));
    DisconnectTo(mixer, inner.producer, p.consumerSlot);
    DisconnectTo(mixer, p.producerSlot, inner.consumer);
    DisconnectFrom(mixer, p, ports);
  }

  predicate Uses(c: Connection, slot: Option<Slot>) {
    slot.Some? && (c.0 == slot.value || c.1 == slot.value)
  }

  /** The connections among ports, in both directions. */
  ghost function LinksAmong(ports: map<Port, Face>, some: set<Port>): set<Connection>
    requires some <= ports.Keys
  {
    set p, c | p in some && c in LinksWith(ports[p], ports, ports.Keys - {p}) :: c
  }

  lemma NoneAmong(ports: map<Port, Face>)
    ensures LinksAmong(ports, {}) == {}
  {
  }

  lemma OneMoreAmong(ports: map<Port, Face>, some: set<Port>, p: Port)
    requires some <= ports.Keys && p in ports
    ensures LinksAmong(ports, some + {p}) == LinksAmong(ports, some) + LinksWith(ports[p], ports, ports.Keys - {p})
  {
    hide LinksWith;
  }

  lemma AllAmong(ports: map<Port, Face>)
    ensures LinksAmong(ports, ports.Keys) == PortMesh(ports)
  {
    forall c | c in LinksAmong(ports, ports.Keys) ensures c in PortMesh(ports) {
      var p :| p in ports && c in LinksWith(ports[p], ports, ports.Keys - {p});
      if c in LinksInto(ports[p], ports, ports.Keys - {p}) {
        var q :| q in ports && q != p && c in Link(ports[q], ports[p]);
      } else {
        var q :| q in ports && q != p && c in Link(ports[p], ports[q]);
      }
    }
    forall c | c in PortMesh(ports) ensures c in LinksAmong(ports, ports.Keys) {
      var p, q :| p in ports && q in ports && p != q && c in Link(ports[p], ports[q]);
      assert c in LinksOutOf(ports[p], ports, ports.Keys - {p});
      assert c in LinksWith(ports[p], ports, ports.Keys - {p});
    }
  }

  /** Disconnects ports from one another. */
  method DisconnectAll(mixer: Mixer, ports: set<Port>)
    modifies mixer
    ensures mixer.connections == old(mixer.connections) - PortMesh(View(ports))
  {
    var rest := ports;
    ghost var seen: set<Port> := {};
    ghost var faces := View(ports);
    assert faces.Keys == ports;
    AllAmong(faces);
    hide LinksWith, LinksAmong, PortMesh;
    assert LinksAmong(faces, {}) == {} by { NoneAmong(faces); }
    while rest != {}
      invariant seen + rest == ports && seen !! rest
      invariant mixer.connections == old(mixer.connections) - LinksAmong(faces, seen)
      decreases rest
    {
      var port1 :| port1 in rest;
      OneMoreAmong(faces, seen, port1);
      DisconnectFrom(mixer, port1, ports - {port1});
      assert LinksWith(faces[port1], View(ports - {port1}), ports - {port1}) ==
          LinksWith(faces[port1], faces, ports - {port1}) by {
        SameLinks(faces[port1], View(ports - {port1}), faces, ports - {port1});
      }
      rest := rest - {port1};
      seen := seen + {port1};
    }
    assert seen == ports;
  }

  lemma SameLinks(e: Face, a: map<Port, Face>, b: map<Port, Face>, some: set<Port>)
    requires some <= a.Keys && some <= b.Keys && forall p :: p in some ==> a[p] == b[p]
    ensures LinksWith(e, a, some) == LinksWith(e, b, some)
  {
    assert forall p :: p in some ==> Link(e, a[p]) == Link(e, b[p]) && Link(a[p], e) == Link(b[p], e);
  }

  // ---------------------------------------------------------------- the bridges

  /** A bridge that is itself a port: `port` shows the slot of its multiplexer as producer and
      the slot of its demultiplexer as consumer. */
  class AudioBridge {
    const mixer: Mixer
    const port: Port
    var ports: set<Port>

    /** The bridge as its own ports see it. */
    function Inner(): Face
      reads port
    {
      Face(port.consumerSlot, port.producerSlot)
    }

    ghost function State(): State<Port>
      reads this, port, ports, mixer
    {
      AudioMesh.State(mixer.connections, Bridge(Inner(), View(ports)))
    }

    /** A new bridge with the slots its multiplexer and demultiplexer were given. */
    constructor (mixer: Mixer, multiplexer: Slot, demultiplexer: Slot)
      ensures ports == {} && this.mixer == mixer && fresh(port)
      ensures port.mixer == mixer && port.Slots() == Face(Some(multiplexer), Some(demultiplexer))
    {
      this.mixer := mixer;
      ports := {};
      port := new Port(mixer, Some(multiplexer), Some(demultiplexer));
    }

    /** Adds a port; refused if the port uses another mixer. */
    method Add(p: Port) returns (ok: bool)
      modifies this`ports, mixer
      ensures ok <==> p.mixer == mixer
      ensures ok ==> State() == After(old(State()), Added(p, p.Slots())) && ports == old(ports) + {p}
      ensures !ok ==> State() == old(State()) && ports == old(ports)
    {
      if p.mixer != mixer {
        return false;
      }
      if p in ports {
        assert ports + {p} == ports;
        return true;
      }
      hide LinksOf;
      ConnectPort(mixer, p, Inner(), ports);
      ghost var before := View(ports);
      ports := ports + {p};
      assert View(ports) == before[p := p.Slots()];
      return true;
    }

    /** Removes a port; an error if it is not on the bridge. */
    method Remove(p: Port) returns (ok: bool)
      modifies this`ports, mixer
      ensures ok <==> p in old(ports)
      ensures State() == After(old(State()), Removed(p)) && ports == old(ports) - {p}
    {
      if p !in ports {
        return false;
      }
      hide LinksOf;
      DisconnectPort(mixer, p, Inner(), ports);
      ghost var before := View(ports);
      ports := ports - {p};
      assert View(ports) == before - {p};
      return true;
    }

    /** Takes the bridge out of use: its ports are disconnected from one another, and its
        own slots are given back with every connection they have. */
    method Stop()
      modifies this`ports, mixer, port
      ensures ports == {} && port.Slots() == NO_FACE
      ensures var b := old(State()).bridge;
              mixer.connections == set c | && c in old(mixer.connections) - PortMesh(b.ports)
                                           && !Uses(c, b.inner.producer) && !Uses(c, b.inner.consumer)
    {
      hide PortMesh;
      DisconnectAll(mixer, ports);
      ports := {};
      if port.producerSlot.Some? {
        mixer.RemovePort(port.producerSlot.value);
      }
      if port.consumerSlot.Some? {
        mixer.RemovePort(port.consumerSlot.value);
      }
      port.producerSlot, port.consumerSlot := None, None;
    }

    method HandleNotification(sender: Port, consumer: Change, producer: Change)
      requires Truthful(consumer, sender.consumerSlot) && Truthful(producer, sender.producerSlot)
      requires var was := Face(Before(producer, sender.producerSlot), Before(consumer, sender.consumerSlot));
               var b := Bridge(Inner(), View(ports)[sender := was]);
               sender in ports ==> Distinct(b) && Meshed(mixer.connections, b)
      modifies mixer
      ensures var was := Face(Before(producer, sender.producerSlot), Before(consumer, sender.consumerSlot));
              var b := Bridge(Inner(), View(ports)[sender := was]);
              if sender in ports
                  then State() == After(AudioMesh.State(old(mixer.connections), b), Changed(sender, sender.Slots()))
              else mixer.connections == old(mixer.connections)
    {
      if sender !in ports {
        return;
      }
      Reconnect(mixer, sender, ports, Inner(), consumer, producer);
    }
  }

  /** A bridge that is not a port of another. */
  class RootAudioBridge {
    const mixer: Mixer
    var ports: set<Port>

    ghost function State(): State<Port>
      reads this, ports, mixer
    {
      AudioMesh.State(mixer.connections, Bridge(NO_FACE, View(ports)))
    }

    constructor (mixer: Mixer)
      ensures this.mixer == mixer && ports == {}
    {
      this.mixer := mixer;
      ports := {};
    }

    method Add(p: Port) returns (ok: bool)
      modifies this`ports, mixer
      ensures ok <==> p.mixer == mixer
      ensures ok ==> State() == After(old(State()), Added(p, p.Slots())) && ports == old(ports) + {p}
      ensures !ok ==> State() == old(State()) && ports == old(ports)
    {
      if p.mixer != mixer {
        return false;
      }
      if p in ports {
        assert ports + {p} == ports;
        return true;
      }
      hide LinksInto, LinksOutOf;
      ConnectWith(mixer, p, ports);
      ghost var before := View(ports);
      ports := ports + {p};
      assert View(ports) == before[p := p.Slots()];
      return true;
    }

    method Remove(p: Port) returns (ok: bool)
      modifies this`ports, mixer
      ensures ok <==> p in old(ports)
      ensures State() == After(old(State()), Removed(p)) && ports == old(ports) - {p}
    {
      if p !in ports {
        return false;
      }
      hide LinksInto, LinksOutOf;
      DisconnectFrom(mixer, p, ports);
      ghost var before := View(ports);
      ports := ports - {p};
      assert View(ports) == before - {p};
      return true;
    }

    method HandleNotification(sender: Port, consumer: Change, producer: Change)
      requires Truthful(consumer, sender.consumerSlot) && Truthful(producer, sender.producerSlot)
      requires var was := Face(Before(producer, sender.producerSlot), Before(consumer, sender.consumerSlot));
               var b := Bridge(NO_FACE, View(ports)[sender := was]);
               sender in ports ==> Distinct(b) && Meshed(mixer.connections, b)
      modifies mixer
      ensures var was := Face(Before(producer, sender.producerSlot), Before(consumer, sender.consumerSlot));
              var b := Bridge(NO_FACE, View(ports)[sender := was]);
              if sender in ports
                  then State() == After(AudioMesh.State(old(mixer.connections), b), Changed(sender, sender.Slots()))
              else mixer.connections == old(mixer.connections)
    {
      if sender !in ports {
        return;
      }
      Reconnect(mixer, sender, ports, NO_FACE, consumer, producer);
    }
  }

  // ---------------------------------------------------------------- conferences

  /** An audio stream: a bridge of its own, and the sound device that is on that bridge
      unless the stream is in a conference. */
  class AudioStream {
    const bridge: AudioBridge
    const device: Port

    constructor (bridge: AudioBridge, device: Port)
      ensures this.bridge == bridge && this.device == device
    {
      this.bridge, this.device := bridge, device;
    }
  }

  lemma RemovedAt(streams: seq<AudioStream>, i: nat)
    requires i < |streams|
    requires forall j, k :: 0 <= j < k < |streams| ==> streams[j] != streams[k]
    ensures var rest := streams[..i] + streams[i + 1..];
            && streams[i] !in rest
            && (forall s :: s != streams[i] ==> (s in rest <==> s in streams))
            && (forall j, k :: 0 <= j < k < |rest| ==> rest[j] != rest[k])
  {
    assert streams == streams[..i] + [streams[i]] + streams[i + 1..];
  }

  class AudioConference {
    const mixer: Mixer
    const bridge: RootAudioBridge
    const device: Port
    var streams: seq<AudioStream>
    var onHold: bool

    constructor (mixer: Mixer)
      ensures this.mixer == mixer && bridge.mixer == mixer && device.mixer == mixer && fresh(bridge) && fresh(device)
      ensures streams == [] && !onHold && bridge.ports == {device}
      modifies mixer
    {
      this.mixer := mixer;
      bridge := new RootAudioBridge(mixer);
      device := new Port(mixer, Some(0), Some(0));
      streams := [];
      onHold := false;
      new;
      var ok := bridge.Add(device);
    }

    ghost function Members(): set<AudioStream>
      reads this`streams
    {
      set s | s in streams
    }

    ghost predicate NoDuplicates()
      reads this`streams
    {
      forall i, j :: 0 <= i < j < |streams| ==> streams[i] != streams[j]
    }

    /** The streams of an application, on one mixer, none sharing a bridge with another, and the
        ports there are. */
    ghost predicate Separate(all: set<AudioStream>, known: set<Port>)
      reads bridge, set s | s in all :: s.bridge
    {
      && bridge.mixer == mixer && device.mixer == mixer && device in known && bridge.ports <= known
      && (forall s :: s in all ==>
            && s.bridge.mixer == mixer && s.bridge.port.mixer == mixer && s.device.mixer == mixer
            && s.device in known && s.bridge.port in known && s.bridge.ports <= known)
      && (forall s, t :: s in all && t in all && s != t ==> s.bridge != t.bridge)
    }

    ghost function Wiring(all: set<AudioStream>): AudioConferences.Wiring<AudioStream, Port> {
      AudioConferences.Wiring(device, map s | s in all :: s.bridge.port, map s | s in all :: s.device)
    }

    ghost function Places(all: set<AudioStream>, others: seq<Bridge<Port>>): set<AudioConferences.Place<AudioStream>> {
      {AudioConferences.Main}
      + (set s | s in all :: AudioConferences.Of(s))
      + (set n: nat | 0 <= n < |others| :: AudioConferences.Elsewhere(n))
    }

    /** The bridge of the conference, that of a stream, or another that uses the mixer. */
    ghost function BridgeAt(k: AudioConferences.Place<AudioStream>, all: set<AudioStream>,
        others: seq<Bridge<Port>>, known: set<Port>): Bridge<Port>
      requires Separate(all, known) && k in Places(all, others)
      reads bridge, known, set s | s in all :: s.bridge
    {
      match k
      case Main => Bridge(NO_FACE, View(bridge.ports))
      case Of(s) => Bridge(s.bridge.Inner(), View(s.bridge.ports))
      case Elsewhere(n) => others[n]
    }

    ghost function Bridges(all: set<AudioStream>, others: seq<Bridge<Port>>, known: set<Port>):
      map<AudioConferences.Place<AudioStream>, Bridge<Port>>
      requires Separate(all, known)
      reads bridge, known, set s | s in all :: s.bridge
    {
      map k | k in Places(all, others) :: BridgeAt(k, all, others, known)
    }

    ghost function Conference(all: set<AudioStream>, others: seq<Bridge<Port>>, known: set<Port>):
      AudioConferences.Conference<AudioStream, Port>
      requires Separate(all, known)
      reads this, mixer, bridge, known, set s | s in all :: s.bridge
    {
      AudioConferences.Conference(AudioConferences.Board(mixer.connections, Bridges(all, others, known)),
        View(known), Members(), onHold)
    }

    /** The conference bridge holds its device unless on hold and the bridges of its members, the
        bridge of a stream holds its device exactly when the stream is not a member, and the
        mixer carries the meshes of all bridges and nothing else. */
    ghost predicate Valid(all: set<AudioStream>, others: seq<Bridge<Port>>, known: set<Port>)
      reads this, mixer, bridge, known, set s | s in all :: s.bridge
    {
      && Separate(all, known)
      && NoDuplicates()
      && AudioConferences.Good(Wiring(all), Conference(all, others, known))
    }

    /** Every bridge that uses the mixer has its full mesh. */
    ghost predicate EveryBridgeMeshed(all: set<AudioStream>, others: seq<Bridge<Port>>, known: set<Port>)
      requires Separate(all, known)
      reads mixer, bridge, known, set s | s in all :: s.bridge
    {
      forall k :: k in Places(all, others) ==> Meshed(mixer.connections, BridgeAt(k, all, others, known))
    }

    /** Who is where, told by the bridges themselves. */
    ghost predicate InPlace(all: set<AudioStream>)
      reads this, bridge, set s | s in all :: s.bridge
    {
      && (device in bridge.ports <==> !onHold)
      && forall s :: s in all ==>
           && (s.bridge.port in bridge.ports <==> s in Members())
           && (s.device in s.bridge.ports <==> s !in Members())
    }

    lemma ValidIsInPlace(all: set<AudioStream>, others: seq<Bridge<Port>>, known: set<Port>)
      requires Valid(all, others, known)
      ensures InPlace(all)
    {
      hide AudioConferences.Sound, AudioConferences.IsForwarder;
      var w, c := Wiring(all), Conference(all, others, known);
      assert BridgeAt(AudioConferences.Main, all, others, known).ports.Keys == bridge.ports;
      forall s | s in all
        ensures (s.bridge.port in bridge.ports <==> s in Members())
             && (s.device in s.bridge.ports <==> s !in Members())
      {
        assert s in w.bridgePort;
        assert BridgeAt(AudioConferences.Of(s), all, others, known).ports.Keys == s.bridge.ports;
      }
    }

    lemma ValidIsMeshed(all: set<AudioStream>, others: seq<Bridge<Port>>, known: set<Port>)
      requires Valid(all, others, known)
      ensures EveryBridgeMeshed(all, others, known)
    {
      hide AudioConferences.Good, Meshed, Distinct, Mesh;
      var c := Conference(all, others, known);
      forall k | k in Places(all, others) ensures Meshed(mixer.connections, BridgeAt(k, all, others, known)) {
        AudioConferences.GoodIsMeshed(Wiring(all), c, k);
      }
    }

    /** Puts the device of a stream on the bridge of the stream, or takes it off. */
    method MoveDevice(stream: AudioStream, on: bool, ghost all: set<AudioStream>, ghost others: seq<Bridge<Port>>,
        ghost known: set<Port>)
      requires Separate(all, known) && stream in all
      modifies stream.bridge`ports, mixer
      ensures Separate(all, known)
      ensures var p := stream.device;
              var c := old(Conference(all, others, known));
              var e := if on then Added(p, p.Slots()) else Removed(p);
              Conference(all, others, known) ==
                c.(board := AudioConferences.Do(c.board, AudioConferences.Of(stream), e))
    {
      hide After, View;
      ghost var before := Bridges(all, others, known);
      if on {
        var ok := stream.bridge.Add(stream.device);
      } else {
        var ok := stream.bridge.Remove(stream.device);
      }
      forall k | k in Places(all, others) && k != AudioConferences.Of(stream)
        ensures BridgeAt(k, all, others, known) == old(BridgeAt(k, all, others, known))
      {
      }
    }

    /** Puts a port on the bridge of the conference, or takes it off. */
    method MoveOnMain(p: Port, on: bool, ghost all: set<AudioStream>, ghost others: seq<Bridge<Port>>,
        ghost known: set<Port>)
      requires Separate(all, known) && p in known && p.mixer == mixer
      modifies bridge`ports, mixer
      ensures Separate(all, known)
      ensures var c := old(Conference(all, others, known));
              var e := if on then Added(p, p.Slots()) else Removed(p);
              Conference(all, others, known) ==
                c.(board := AudioConferences.Do(c.board, AudioConferences.Main, e))
    {
      hide After, View;
      ghost var before := Bridges(all, others, known);
      if on {
        var ok := bridge.Add(p);
      } else {
        var ok := bridge.Remove(p);
      }
      forall k | k in Places(all, others) && k != AudioConferences.Main
        ensures BridgeAt(k, all, others, known) == old(BridgeAt(k, all, others, known))
      {
      }
    }

    method AddMember(stream: AudioStream)
      requires NoDuplicates() && stream !in Members()
      modifies this`streams
      ensures NoDuplicates() && streams == old(streams) + [stream] && Members() == old(Members()) + {stream}
    {
      streams := streams + [stream];
    }

    method RemoveMember(stream: AudioStream)
      requires NoDuplicates() && stream in Members()
      modifies this`streams
      ensures NoDuplicates() && Members() == old(Members()) - {stream}
    {
      var i :| 0 <= i < |streams| && streams[i] == stream;
      RemovedAt(streams, i);
      streams := streams[..i] + streams[i + 1..];
    }

    method Add(stream: AudioStream, ghost all: set<AudioStream>, ghost others: seq<Bridge<Port>>,
        ghost known: set<Port>)
      requires Valid(all, others, known) && stream in all
      modifies this`streams, bridge`ports, stream.bridge`ports, mixer
      ensures Valid(all, others, known) && EveryBridgeMeshed(all, others, known)
      ensures streams == if stream in old(streams) then old(streams) else old(streams) + [stream]
      ensures stream.bridge.port in bridge.ports && stream.device !in stream.bridge.ports
      ensures Conference(all, others, known) ==
        AudioConferences.Step(Wiring(all), old(Conference(all, others, known)), AudioConferences.Join(stream))
    {
      hide View, AudioConferences.Good, AudioConferences.Do, BridgeAt, Separate;
      AudioConferences.StepIsGood(Wiring(all), Conference(all, others, known), AudioConferences.Join(stream));
      if stream in streams {
        ValidIsMeshed(all, others, known);
        ValidIsInPlace(all, others, known);
        return;
      }
      SlotsKnown(stream, all, known);
      MoveDevice(stream, false, all, others, known);
      MoveOnMain(stream.bridge.port, true, all, others, known);
      AddMember(stream);
      ValidIsMeshed(all, others, known);
      ValidIsInPlace(all, others, known);
    }

    /** The ports of a stream are known by the slots they have. */
    lemma SlotsKnown(stream: AudioStream, all: set<AudioStream>, known: set<Port>)
      requires Separate(all, known) && stream in all
      ensures stream.bridge.port in known && stream.bridge.port.mixer == mixer
      ensures AudioConferences.FaceOf(View(known), stream.bridge.port) == stream.bridge.port.Slots()
      ensures AudioConferences.FaceOf(View(known), stream.device) == stream.device.Slots()
    {
    }

    lemma DeviceKnown(all: set<AudioStream>, known: set<Port>)
      requires Separate(all, known)
      ensures AudioConferences.FaceOf(View(known), device) == device.Slots()
    {
    }

    /** Removes a member; an error if the stream is not one. */
    method Remove(stream: AudioStream, ghost all: set<AudioStream>, ghost others: seq<Bridge<Port>>,
        ghost known: set<Port>) returns (ok: bool)
      requires Valid(all, others, known) && stream in all
      modifies this`streams, bridge`ports, stream.bridge`ports, mixer
      ensures Valid(all, others, known) && EveryBridgeMeshed(all, others, known)
      ensures ok <==> stream in old(Members())
      ensures Members() == old(Members()) - {stream}
      ensures stream.bridge.port !in bridge.ports && stream.device in stream.bridge.ports
      ensures Conference(all, others, known) ==
        AudioConferences.Step(Wiring(all), old(Conference(all, others, known)), AudioConferences.Leave(stream))
    {
      hide View, AudioConferences.Good, AudioConferences.Do, BridgeAt, Separate;
      AudioConferences.StepIsGood(Wiring(all), Conference(all, others, known), AudioConferences.Leave(stream));
      ok := stream in streams;
      if ok {
        SlotsKnown(stream, all, known);
        RemoveMember(stream);
        MoveOnMain(stream.bridge.port, false, all, others, known);
        MoveDevice(stream, true, all, others, known);
      }
      ValidIsMeshed(all, others, known);
      ValidIsInPlace(all, others, known);
    }

    method Hold(ghost all: set<AudioStream>, ghost others: seq<Bridge<Port>>, ghost known: set<Port>)
      requires Valid(all, others, known)
      modifies this`onHold, bridge`ports, mixer
      ensures Valid(all, others, known) && EveryBridgeMeshed(all, others, known)
      ensures streams == old(streams) && onHold && device !in bridge.ports
      ensures Conference(all, others, known) ==
        AudioConferences.Step(Wiring(all), old(Conference(all, others, known)), AudioConferences.Hold)
    {
      hide View, AudioConferences.Good, AudioConferences.Do, BridgeAt;
      AudioConferences.StepIsGood(Wiring(all), Conference(all, others, known), AudioConferences.Hold);
      if onHold {
        ValidIsMeshed(all, others, known);
        ValidIsInPlace(all, others, known);
        return;
      }
      MoveOnMain(device, false, all, others, known);
      onHold := true;
      ValidIsMeshed(all, others, known);
      ValidIsInPlace(all, others, known);
    }

    method Unhold(ghost all: set<AudioStream>, ghost others: seq<Bridge<Port>>, ghost known: set<Port>)
      requires Valid(all, others, known)
      modifies this`onHold, bridge`ports, mixer
      ensures Valid(all, others, known) && EveryBridgeMeshed(all, others, known)
      ensures streams == old(streams) && !onHold && device in bridge.ports
      ensures Conference(all, others, known) ==
        AudioConferences.Step(Wiring(all), old(Conference(all, others, known)), AudioConferences.Unhold)
    {
      hide View, AudioConferences.Good, AudioConferences.Do, BridgeAt;
      AudioConferences.StepIsGood(Wiring(all), Conference(all, others, known), AudioConferences.Unhold);
      if !onHold {
        ValidIsMeshed(all, others, known);
        ValidIsInPlace(all, others, known);
        return;
      }
      DeviceKnown(all, known);
      MoveOnMain(device, true, all, others, known);
      onHold := false;
      ValidIsMeshed(all, others, known);
      ValidIsInPlace(all, others, known);
    }
  }
}
