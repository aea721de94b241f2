/** Finding the routes to a SIP proxy (sipsimple/lookup.py), after RFC 3263, over any DNS.
  *
  * The DNS is a function from names to replies; a reply carries the records of its additional section. */
module Lookups {
  import opened Wrappers
  import opened StableSorts
  import opened LetterCase

  datatype Service = Service(priority: nat, weight: nat, port: nat, target: string)
  datatype Pointer = Pointer(order: nat, preference: nat, service: string, replacement: string)

  /** The address and service records of an additional section, by name. */
  datatype Additional = Additional(addresses: map<string, seq<string>>, services: map<string, seq<Service>>)

  datatype Reply<T> = Timeout | Failure | Found(records: seq<T>, extra: Additional)

  datatype Dns = Dns(
    a: string -> Reply<string>, srv: string -> Reply<Service>, naptr: string -> Reply<Pointer>)

  /** `port` is 0 when the URI has none; `numeric` says whether the host is an IPv4 address. */
  datatype Uri = Uri(host: string, numeric: bool, port: nat, secure: bool, transport: Option<string>)

  datatype Server = Server(priority: nat, weight: nat, port: nat, address: string)
  datatype Hop = Hop(service: string, order: nat, preference: nat, port: nat, address: string)
  datatype Route = Route(address: string, port: nat, transport: string)

  datatype Error = NoTransports | UnknownTransports | TransportNotSupported | NotSecure | TimedOut | NoRoutes

  const NOTHING := Additional(map[], map[])

  // ------------------------------------------------------------------ strings

  function LowerAll(strings: seq<string>): seq<string> {
    seq(|strings|, i requires 0 <= i < |strings| => Lower(strings[i]))
  }

  predicate Known(transport: string) {
    transport == "udp" || transport == "tcp" || transport == "tls"
  }

  function ServiceName(transport: string): string {
    if transport == "udp" then "_sip._udp" else if transport == "tcp" then "_sip._tcp" else "_sips._tcp"
  }

  function TransportOf(service: string): string {
    if service == "sips+d2t" then "tls" else if service == "sip+d2t" then "tcp" else "udp"
  }

  const NAPTR_SERVICES := {"sips+d2t", "sip+d2t", "sip+d2u"}

  // ------------------------------------------------------------------ what each lookup finds; None is a timeout

  function Addresses(dns: Dns, extra: Additional, host: string): Option<seq<string>> {
    if host in extra.addresses then Some(extra.addresses[host])
    else
      match dns.a(host)
      case Timeout => None
      case Failure => Some([])
      case Found(records, _) => Some(records)
  }

  /** The servers of the records, in the order of the records and of the addresses of each. */
  function Servers(dns: Dns, extra: Additional, records: seq<Service>): Option<seq<Server>> {
    if records == [] then Some([])
    else
      var last := records[|records| - 1];
      var before, addresses := Servers(dns, extra, records[..|records| - 1]), Addresses(dns, extra, last.target);
      if before.None? || addresses.None? then None else Some(before.value + At(last, addresses.value))
  }

  function At(record: Service, addresses: seq<string>): seq<Server> {
    seq(|addresses|,
        i requires 0 <= i < |addresses| => Server(record.priority, record.weight, record.port, addresses[i]))
  }

  /** The lower priority first, and of one priority the higher weight. */
  function ServerRank(server: Server): Rank {
    (server.priority, 0 - server.weight as int)
  }

  function Services(dns: Dns, extra: Additional, name: string): Option<seq<Server>> {
    if name in extra.services then SortedServers(Servers(dns, extra, extra.services[name]))
    else
      match dns.srv(name)
      case Timeout => None
      case Failure => Some([])
      case Found(records, more) => SortedServers(Servers(dns, more, records))
  }

  function SortedServers(servers: Option<seq<Server>>): Option<seq<Server>> {
    if servers.None? then None else Some(Sorted(servers.value, ServerRank))
  }

  function HopsOf(pointer: Pointer, servers: seq<Server>): seq<Hop> {
    seq(|servers|, i requires 0 <= i < |servers| =>
      Hop(Lower(pointer.service), pointer.order, pointer.preference, servers[i].port, servers[i].address))
  }

  /** The servers of each pointer, in the order of the pointers. */
  function Hops(dns: Dns, extra: Additional, pointers: seq<Pointer>): Option<seq<Hop>> {
    if pointers == [] then Some([])
    else
      var last := pointers[|pointers| - 1];
      var before, servers := Hops(dns, extra, pointers[..|pointers| - 1]), Services(dns, extra, last.replacement);
      if before.None? || servers.None? then None else Some(before.value + HopsOf(last, servers.value))
  }

  function HopRank(hop: Hop): Rank {
    (hop.order, hop.preference)
  }

  function Offering(pointers: seq<Pointer>, services: set<string>): seq<Pointer> {
    if pointers == [] then []
    else
      var last := pointers[|pointers| - 1];
      Offering(pointers[..|pointers| - 1], services) + if Lower(last.service) in services then [last] else []
  }

  function Pointers(dns: Dns, domain: string, services: set<string>): Option<seq<Hop>> {
    match dns.naptr(domain)
    case Timeout => None
    case Failure => Some([])
    case Found(records, extra) =>
      var hops := Hops(dns, extra, Offering(records, services));
      if hops.None? then None else Some(Sorted(hops.value, HopRank))
  }

  // ------------------------------------------------------------------ the order of what is found

  /** The records of a name: those of the additional section, or else what the DNS replies. */
  function Answer(dns: Dns, extra: Additional, name: string): Reply<Service> {
    if name in extra.services then Found(extra.services[name], extra) else dns.srv(name)
  }

  /** An address of a host: of the additional section when that has the host, and else of the reply to a query. */
  ghost predicate HasAddress(dns: Dns, extra: Additional, host: string, address: string) {
    if host in extra.addresses then address in extra.addresses[host]
    else dns.a(host).Found? && address in dns.a(host).records
  }

  ghost predicate AddressTimesOut(dns: Dns, extra: Additional, host: string) {
    host !in extra.addresses && dns.a(host).Timeout?
  }

  /** The servers of records cannot be told exactly when looking up the addresses of some target times out. */
  lemma {:induction false} ServersTimeOut(dns: Dns, extra: Additional, records: seq<Service>)
    ensures Servers(dns, extra, records).None? <==>
              exists k :: 0 <= k < |records| && AddressTimesOut(dns, extra, records[k].target)
    decreases |records|
  {
    if records != [] {
      ServersTimeOut(dns, extra, records[..|records| - 1]);
    }
  }

  /** Looking up a service times out exactly when the query does, or that of the addresses of some target. */
  lemma ServicesTimeOut(dns: Dns, extra: Additional, name: string)
    ensures var reply := Answer(dns, extra, name);
            Services(dns, extra, name).None? <==>
              || reply.Timeout?
              || (reply.Found? && exists k :: 0 <= k < |reply.records|
                                              && AddressTimesOut(dns, reply.extra, reply.records[k].target))
  {
    var reply := Answer(dns, extra, name);
    if reply.Found? {
      ServersTimeOut(dns, reply.extra, reply.records);
    }
  }

  /** A server is at one of the addresses of the target of some record. */
  ghost predicate IsServerOf(dns: Dns, extra: Additional, records: seq<Service>, server: Server) {
    exists k, address :: 0 <= k < |records| && IsAt(dns, extra, records[k], address, server)
  }

  ghost predicate IsAt(dns: Dns, extra: Additional, record: Service, address: string, server: Server) {
    && HasAddress(dns, extra, record.target, address)
    && server == Server(record.priority, record.weight, record.port, address)
  }

  lemma {:induction false} ServersOfRecords(dns: Dns, extra: Additional, records: seq<Service>, server: Server)
    requires Servers(dns, extra, records).Some?
    ensures server in Servers(dns, extra, records).value <==> IsServerOf(dns, extra, records, server)
    decreases |records|
  {
    if records != [] {
      var most, last := records[..|records| - 1], records[|records| - 1];
      ServersOfRecords(dns, extra, most, server);
      var addresses := Addresses(dns, extra, last.target).value;
      if server in At(last, addresses) {
        var i :| 0 <= i < |addresses| && At(last, addresses)[i] == server;
        assert IsAt(dns, extra, records[|records| - 1], addresses[i], server);
      }
      if k, address :| 0 <= k < |records| && IsAt(dns, extra, records[k], address, server) {
        if k < |most| {
          assert IsAt(dns, extra, most[k], address, server);
        } else {
          var i :| 0 <= i < |addresses| && addresses[i] == address;
          assert At(last, addresses)[i] == server;
        }
      }
      if IsServerOf(dns, extra, most, server) {
        var k, address :| 0 <= k < |most| && IsAt(dns, extra, most[k], address, server);
        assert IsAt(dns, extra, records[k], address, server);
      }
    }
  }

  ghost predicate ByPriority(found: seq<Server>) {
    forall i, j :: 0 <= i < j < |found| ==>
                     || found[i].priority < found[j].priority
                     || (found[i].priority == found[j].priority && found[i].weight >= found[j].weight)
  }

  /** The servers found for a name are those of all its records and their addresses, by priority and then descending
    * weight, and otherwise in the order they came; none when the query fails. */
  lemma ServicesInOrder(dns: Dns, extra: Additional, name: string)
    requires Services(dns, extra, name).Some?
    ensures var reply := Answer(dns, extra, name);
            var found := Services(dns, extra, name).value;
            && !reply.Timeout? && (reply.Failure? ==> found == []) && ByPriority(found)
            && (reply.Found? ==>
                  var servers := Servers(dns, reply.extra, reply.records);
                  && servers.Some? && multiset(found) == multiset(servers.value)
                  && (forall server :: server in found <==> IsServerOf(dns, reply.extra, reply.records, server))
                  && forall rank :: OfRank(found, ServerRank, rank) == OfRank(servers.value, ServerRank, rank))
  {
    hide IsServerOf;
    var reply := Answer(dns, extra, name);
    if reply.Found? {
      var servers := Servers(dns, reply.extra, reply.records).value;
      var found := Sorted(servers, ServerRank);
      SortedIsStable(servers, ServerRank);
      forall i, j | 0 <= i < j < |found|
        ensures found[i].priority < found[j].priority
             || (found[i].priority == found[j].priority && found[i].weight >= found[j].weight)
      {
        assert !Less(ServerRank(found[j]), ServerRank(found[i]));
      }
      forall server ensures server in found <==> IsServerOf(dns, reply.extra, reply.records, server) {
        ServersOfRecords(dns, reply.extra, reply.records, server);
        assert server in found <==> server in multiset(found);
        assert server in servers <==> server in multiset(servers);
      }
    }
  }

  /** A hop is to a server of some pointer with a service asked for. */
  ghost predicate IsHopOf(dns: Dns, extra: Additional, pointers: seq<Pointer>, services: set<string>, hop: Hop) {
    exists k, server :: 0 <= k < |pointers| && LeadsTo(dns, extra, pointers[k], services, server, hop)
  }

  ghost predicate LeadsTo(
    dns: Dns, extra: Additional, pointer: Pointer, services: set<string>, server: Server, hop: Hop)
  {
    && Lower(pointer.service) in services
    && Services(dns, extra, pointer.replacement).Some? && server in Services(dns, extra, pointer.replacement).value
    && hop == Hop(Lower(pointer.service), pointer.order, pointer.preference, server.port, server.address)
  }

  lemma {:induction false} HopsOfPointers(
    dns: Dns, extra: Additional, pointers: seq<Pointer>, services: set<string>, hop: Hop)
    requires Hops(dns, extra, Offering(pointers, services)).Some?
    ensures hop in Hops(dns, extra, Offering(pointers, services)).value <==>
              IsHopOf(dns, extra, pointers, services, hop)
    decreases |pointers|
  {
    hide Services, Lower;
    if pointers != [] {
      var most, last := pointers[..|pointers| - 1], pointers[|pointers| - 1];
      var offering := Offering(pointers, services);
      if Lower(last.service) in services {
        assert offering[..|offering| - 1] == Offering(most, services) && offering[|offering| - 1] == last;
        HopsOfLast(dns, extra, last, services, hop);
      } else {
        assert offering == Offering(most, services);
      }
      HopsOfPointers(dns, extra, most, services, hop);
      if IsHopOf(dns, extra, most, services, hop) {
        var k, server :| 0 <= k < |most| && LeadsTo(dns, extra, most[k], services, server, hop);
        assert LeadsTo(dns, extra, pointers[k], services, server, hop);
      }
      if k, server :| 0 <= k < |pointers| && LeadsTo(dns, extra, pointers[k], services, server, hop) {
        assert k < |most| ==> LeadsTo(dns, extra, most[k], services, server, hop);
      }
    }
  }

  lemma HopsOfLast(dns: Dns, extra: Additional, pointer: Pointer, services: set<string>, hop: Hop)
    requires Services(dns, extra, pointer.replacement).Some? && Lower(pointer.service) in services
    ensures hop in HopsOf(pointer, Services(dns, extra, pointer.replacement).value) <==>
              exists server :: LeadsTo(dns, extra, pointer, services, server, hop)
  {
    hide Services, Lower;
    var servers := Services(dns, extra, pointer.replacement).value;
    if hop in HopsOf(pointer, servers) {
      var i :| 0 <= i < |servers| && HopsOf(pointer, servers)[i] == hop;
      assert LeadsTo(dns, extra, pointer, services, servers[i], hop);
    }
    if server :| LeadsTo(dns, extra, pointer, services, server, hop) {
      var i :| 0 <= i < |servers| && servers[i] == server;
      assert HopsOf(pointer, servers)[i] == hop;
    }
  }

  lemma {:induction false} HopsTimeOut(dns: Dns, extra: Additional, pointers: seq<Pointer>, services: set<string>)
    ensures Hops(dns, extra, Offering(pointers, services)).None? <==>
              exists k :: 0 <= k < |pointers| && Lower(pointers[k].service) in services
                          && Services(dns, extra, pointers[k].replacement).None?
    decreases |pointers|
  {
    hide Services, Lower;
    if pointers != [] {
      var most, last := pointers[..|pointers| - 1], pointers[|pointers| - 1];
      HopsTimeOut(dns, extra, most, services);
      assert pointers == most + [last];
      var before, offering := Offering(most, services), Offering(pointers, services);
      if Lower(last.service) in services {
        assert offering == before + [last] && offering[..|offering| - 1] == before;
        if Services(dns, extra, last.replacement).None? {
          assert pointers[|pointers| - 1] == last;
        }
      } else {
        assert offering == before;
      }
    }
  }

  /** Looking up pointers times out exactly when the query does, or that of the servers of a pointer with a service
    * asked for; and a query that fails finds none. */
  lemma PointersTimeOut(dns: Dns, domain: string, services: set<string>)
    ensures var reply := dns.naptr(domain);
            && (reply.Failure? ==> Pointers(dns, domain, services) == Some([]))
            && (Pointers(dns, domain, services).None? <==>
                  || reply.Timeout?
                  || (reply.Found? && exists k :: 0 <= k < |reply.records|
                                                  && Lower(reply.records[k].service) in services
                                                  && Services(dns, reply.extra, reply.records[k].replacement).None?))
  {
    hide Services, Hops, Lower;
    if dns.naptr(domain).Found? {
      HopsTimeOut(dns, dns.naptr(domain).extra, dns.naptr(domain).records, services);
    }
  }

  /** The hops found through pointers are by order and then preference, and those of one order and preference keep the
    * order of the pointers and, for each, that of its servers. */
  lemma PointersInOrder(dns: Dns, domain: string, services: set<string>)
    requires dns.naptr(domain).Found?
    requires Pointers(dns, domain, services).Some?
    ensures var reply := dns.naptr(domain);
            var hops := Hops(dns, reply.extra, Offering(reply.records, services));
            var found := Pointers(dns, domain, services).value;
            && hops.Some? && multiset(found) == multiset(hops.value)
            && (forall hop :: hop in found <==> IsHopOf(dns, reply.extra, reply.records, services, hop))
            && (forall i, j :: 0 <= i < j < |found| ==>
                                 || found[i].order < found[j].order
                                 || (found[i].order == found[j].order && found[i].preference <= found[j].preference))
            && forall rank :: OfRank(found, HopRank, rank) == OfRank(hops.value, HopRank, rank)
  {
    hide IsHopOf;
    var reply := dns.naptr(domain);
    var hops := Hops(dns, reply.extra, Offering(reply.records, services)).value;
    SortedIsStable(hops, HopRank);
    var found := Sorted(hops, HopRank);
    forall i, j | 0 <= i < j < |found|
      ensures found[i].order < found[j].order
           || (found[i].order == found[j].order && found[i].preference <= found[j].preference)
    {
      assert !Less(HopRank(found[j]), HopRank(found[i]));
    }
    forall hop ensures hop in found <==> IsHopOf(dns, reply.extra, reply.records, services, hop) {
      HopsOfPointers(dns, reply.extra, reply.records, services, hop);
      assert hop in found <==> hop in multiset(found);
      assert hop in hops <==> hop in multiset(hops);
    }
  }

  lemma {:induction false} HopsOffer(dns: Dns, extra: Additional, pointers: seq<Pointer>, services: set<string>)
    requires Hops(dns, extra, Offering(pointers, services)).Some?
    ensures forall hop :: hop in Hops(dns, extra, Offering(pointers, services)).value ==> hop.service in services
    decreases |pointers|
  {
    if pointers != [] {
      var most, last := pointers[..|pointers| - 1], pointers[|pointers| - 1];
      var offering := Offering(pointers, services);
      if Lower(last.service) in services {
        assert offering[..|offering| - 1] == Offering(most, services) && offering[|offering| - 1] == last;
      } else {
        assert offering == Offering(most, services);
      }
      HopsOffer(dns, extra, most, services);
    }
  }

  lemma PointersOffer(dns: Dns, domain: string, services: set<string>)
    requires Pointers(dns, domain, services).Some?
    ensures forall hop :: hop in Pointers(dns, domain, services).value ==> hop.service in services
  {
    match dns.naptr(domain)
    case Found(records, extra) =>
      HopsOffer(dns, extra, records, services);
      var hops := Hops(dns, extra, Offering(records, services)).value;
      SortedIsStable(hops, HopRank);
      forall hop | hop in Sorted(hops, HopRank) ensures hop in hops {
        assert hop in multiset(hops);
      }
    case _ =>
  }

  // ------------------------------------------------------------------ the lookups

  method LookupAddresses(dns: Dns, hosts: seq<string>, extra: Additional)
      returns (found: Option<map<string, seq<string>>>)
    ensures found.None? <==> exists k :: 0 <= k < |hosts| && Addresses(dns, extra, hosts[k]).None?
    ensures found.Some? ==> forall h :: h in found.value <==> h in hosts
    ensures found.Some? ==> forall h :: h in found.value ==> Addresses(dns, extra, h) == Some(found.value[h])
  {
    var addresses := map[];
    for k := 0 to |hosts|
      invariant forall j :: 0 <= j < k ==> Addresses(dns, extra, hosts[j]).Some?
      invariant forall h :: h in addresses <==> h in hosts[..k]
      invariant forall h :: h in addresses ==> Addresses(dns, extra, h) == Some(addresses[h])
    {
      var host := hosts[k];
      if host in extra.addresses {
        addresses := addresses[host := extra.addresses[host]];
      } else {
        match dns.a(host) {
          case Timeout => return None;
          case Failure => addresses := addresses[host := []];
          case Found(records, _) => addresses := addresses[host := records];
        }
      }
    }
    return Some(addresses);
  }

  method LookupServers(dns: Dns, records: seq<Service>, extra: Additional) returns (found: Option<seq<Server>>)
    ensures found == SortedServers(Servers(dns, extra, records))
  {
    var addresses := LookupAddresses(dns, seq(|records|, k requires 0 <= k < |records| => records[k].target), extra);
    if addresses.None? {
      var k :| 0 <= k < |records| && Addresses(dns, extra, records[k].target).None?;
      NoServers(dns, extra, records, k);
      return None;
    }
    var servers: seq<Server> := [];
    for k := 0 to |records|
      invariant Servers(dns, extra, records[..k]) == Some(servers)
    {
      assert records[..k + 1][..k] == records[..k];
      assert (seq(|records|, j requires 0 <= j < |records| => records[j].target))[k] == records[k].target;
      servers := servers + At(records[k], addresses.value[records[k].target]);
    }
    assert records[..|records|] == records;
    return Some(Sorted(servers, ServerRank));
  }

  lemma {:induction false} NoServers(dns: Dns, extra: Additional, records: seq<Service>, k: nat)
    requires k < |records| && Addresses(dns, extra, records[k].target).None?
    ensures Servers(dns, extra, records).None?
  {
    if k < |records| - 1 {
      NoServers(dns, extra, records[..|records| - 1], k);
    }
  }

  method LookupService(dns: Dns, name: string, extra: Additional) returns (found: Option<seq<Server>>)
    ensures found == Services(dns, extra, name)
  {
    if name in extra.services {
      found := LookupServers(dns, extra.services[name], extra);
    } else {
      match dns.srv(name) {
        case Timeout => return None;
        case Failure => return Some([]);
        case Found(records, more) => found := LookupServers(dns, records, more);
      }
    }
  }

  method LookupPointers(dns: Dns, domain: string, services: set<string>) returns (found: Option<seq<Hop>>)
    ensures found == Pointers(dns, domain, services)
  {
    match dns.naptr(domain)
    case Timeout => return None;
    case Failure => return Some([]);
    case Found(all, extra) =>
      var records := [];
      for k := 0 to |all|
        invariant records == Offering(all[..k], services)
      {
        assert all[..k + 1][..k] == all[..k];
        if Lower(all[k].service) in services {
          records := records + [all[k]];
        }
      }
      assert all[..|all|] == all;
      var hops: seq<Hop> := [];
      for k := 0 to |records|
        invariant Hops(dns, extra, records[..k]) == Some(hops)
      {
        assert records[..k + 1][..k] == records[..k];
        var servers := LookupService(dns, records[k].replacement, extra);
        if servers.None? {
          NoHops(dns, extra, records, k);
          return None;
        }
        hops := hops + HopsOf(records[k], servers.value);
      }
      assert records[..|records|] == records;
      return Some(Sorted(hops, HopRank));
  }

  lemma {:induction false} NoHops(dns: Dns, extra: Additional, pointers: seq<Pointer>, k: nat)
    requires k < |pointers| && Services(dns, extra, pointers[k].replacement).None?
    ensures Hops(dns, extra, pointers).None?
  {
    if k < |pointers| - 1 {
      NoHops(dns, extra, pointers[..|pointers| - 1], k);
    }
  }

  // ------------------------------------------------------------------ the routes to a proxy

  function DefaultPort(transport: string): nat {
    if transport == "tls" then 5061 else 5060
  }

  /** The transport a URI dictates when no service is looked up. */
  function Dictated(uri: Uri): string {
    if uri.secure then "tls" else if uri.transport.Some? then Lower(uri.transport.value) else "udp"
  }

  function RoutesAt(addresses: seq<string>, port: nat, transport: string): seq<Route> {
    seq(|addresses|, i requires 0 <= i < |addresses| => Route(addresses[i], port, transport))
  }

  function RoutesTo(servers: seq<Server>, transport: string): seq<Route> {
    seq(|servers|, i requires 0 <= i < |servers| => Route(servers[i].address, servers[i].port, transport))
  }

  function RoutesBy(hops: seq<Hop>): seq<Route> {
    seq(|hops|, i requires 0 <= i < |hops| => Route(hops[i].address, hops[i].port, TransportOf(hops[i].service)))
  }

  function OrNone(routes: seq<Route>): Result<seq<Route>, Error> {
    if routes == [] then Err(NoRoutes) else Ok(routes)
  }

  function AddressRoutes(dns: Dns, host: string, port: nat, transport: string): Result<seq<Route>, Error> {
    var addresses := Addresses(dns, NOTHING, host);
    if addresses.None? then Err(TimedOut) else OrNone(RoutesAt(addresses.value, port, transport))
  }

  function RecordName(transport: string, host: string): string {
    ServiceName(transport) + "." + host
  }

  /** The routes over each transport in turn, leaving out those whose lookup timed out. */
  function ServiceRoutes(dns: Dns, transports: seq<string>, host: string): seq<Route> {
    if transports == [] then []
    else
      var last := transports[|transports| - 1];
      var servers := Services(dns, NOTHING, RecordName(last, host));
      ServiceRoutes(dns, transports[..|transports| - 1], host)
      + if servers.Some? then RoutesTo(servers.value, last) else []
  }

  function Offered(transports: seq<string>): set<string> {
    set service | service in NAPTR_SERVICES && TransportOf(service) in transports
  }

  /** The full lookup, for a URI with neither port nor transport: pointers, then services, then addresses. */
  function FullRoutes(dns: Dns, uri: Uri, transports: seq<string>): Result<seq<Route>, Error> {
    var pointers := Pointers(dns, uri.host, Offered(transports));
    if pointers.Some? && pointers.value != [] then Ok(RoutesBy(pointers.value))
    else
      var routes := ServiceRoutes(dns, transports, uri.host);
      var transport := if uri.secure then "tls" else "udp";
      if routes != [] then Ok(routes)
      else if transport in transports then AddressRoutes(dns, uri.host, DefaultPort(transport), transport)
      else Err(NoRoutes)
  }

  function TransportRoutes(dns: Dns, uri: Uri, transport: string): Result<seq<Route>, Error> {
    var servers := Services(dns, NOTHING, RecordName(transport, uri.host));
    if servers.None? then Err(TimedOut)
    else if servers.value != [] then Ok(RoutesTo(servers.value, transport))
    else AddressRoutes(dns, uri.host, DefaultPort(transport), transport)
  }

  function SipRoutes(dns: Dns, uri: Uri, supported: seq<string>): Result<seq<Route>, Error> {
    var transports := LowerAll(supported);
    if supported == [] then Err(NoTransports)
    else if exists t :: t in transports && !Known(t) then Err(UnknownTransports)
    else if uri.numeric || uri.port != 0 then
      var transport := Dictated(uri);
      if transport !in transports then Err(TransportNotSupported)
      else if uri.numeric
          then Ok([Route(uri.host, if uri.port != 0 then uri.port else DefaultPort(transport), transport)])
      else AddressRoutes(dns, uri.host, uri.port, transport)
    else if uri.transport.Some? then
      var transport := Lower(uri.transport.value);
      if transport !in transports then Err(TransportNotSupported)
      else if uri.secure && transport != "tls" then Err(NotSecure)
      else TransportRoutes(dns, uri, transport)
    else if uri.secure && "tls" !in transports then Err(TransportNotSupported)
    else FullRoutes(dns, uri, if uri.secure then ["tls"] else transports)
  }

  ghost predicate Over(routes: seq<Route>, transports: seq<string>) {
    forall i :: 0 <= i < |routes| ==> routes[i].transport in transports
  }

  lemma {:induction false} ServiceRoutesOver(dns: Dns, transports: seq<string>, host: string)
    ensures Over(ServiceRoutes(dns, transports, host), transports)
  {
    if transports != [] {
      ServiceRoutesOver(dns, transports[..|transports| - 1], host);
    }
  }

  lemma FullRoutesOver(dns: Dns, uri: Uri, transports: seq<string>)
    requires FullRoutes(dns, uri, transports).Ok?
    ensures FullRoutes(dns, uri, transports).value != []
    ensures Over(FullRoutes(dns, uri, transports).value, transports)
  {
    var pointers := Pointers(dns, uri.host, Offered(transports));
    if pointers.Some? && pointers.value != [] {
      PointersOffer(dns, uri.host, Offered(transports));
      hide Pointers;
      forall i | 0 <= i < |pointers.value| ensures TransportOf(pointers.value[i].service) in transports {
        assert pointers.value[i] in pointers.value;
      }
    } else {
      hide Pointers;
      ServiceRoutesOver(dns, transports, uri.host);
    }
  }

  /** Whatever the DNS answers, a lookup that succeeds gives at least one route, every route uses a transport the
    * application supports, and for a SIPS URI every route uses TLS. */
  lemma RoutesAreAllowed(dns: Dns, uri: Uri, supported: seq<string>)
    requires SipRoutes(dns, uri, supported).Ok?
    ensures var routes := SipRoutes(dns, uri, supported).value;
            && routes != []
            && Over(routes, LowerAll(supported))
            && (uri.secure ==> Over(routes, ["tls"]))
  {
    hide FullRoutes, Lower, LowerAll, Known;
    var transports := LowerAll(supported);
    if !uri.numeric && uri.port == 0 && uri.transport.None? {
      FullRoutesOver(dns, uri, if uri.secure then ["tls"] else transports);
    }
  }

  /** A port or transport in the URI is kept: with a port every route has it, and with a transport, or a port and none,
    * every route of a URI that is not secure uses it. */
  lemma RoutesFollowUri(dns: Dns, uri: Uri, supported: seq<string>)
    requires SipRoutes(dns, uri, supported).Ok?
    ensures var routes := SipRoutes(dns, uri, supported).value;
            && (uri.port != 0 ==> forall i :: 0 <= i < |routes| ==> routes[i].port == uri.port)
            && (uri.transport.Some? && !uri.secure ==> Over(routes, [Lower(uri.transport.value)]))
  {
    hide FullRoutes, Lower, LowerAll, Known;
  }

  // ------------------------------------------------------------------ what a lookup gives, branch by branch

  /** One route for each server, in order. */
  ghost predicate AreRoutesTo(routes: seq<Route>, servers: seq<Server>, transport: string) {
    |routes| == |servers|
    && forall i :: 0 <= i < |routes| ==> routes[i] == Route(servers[i].address, servers[i].port, transport)
  }

  /** The transport that a service of a pointer stands for. */
  ghost predicate StandsFor(service: string, transport: string) {
    || (service == "sips+d2t" && transport == "tls")
    || (service == "sip+d2t" && transport == "tcp")
    || (service == "sip+d2u" && transport == "udp")
  }

  /** One route for each hop, in order. */
  ghost predicate AreRoutesBy(routes: seq<Route>, hops: seq<Hop>) {
    |routes| == |hops|
    && forall i :: 0 <= i < |routes| ==>
                     && routes[i].address == hops[i].address && routes[i].port == hops[i].port
                     && StandsFor(hops[i].service, routes[i].transport)
  }

  /** The name of the service records of a host for a transport. */
  ghost predicate IsRecordName(name: string, transport: string, host: string) {
    || (transport == "udp" && name == "_sip._udp." + host)
    || (transport == "tcp" && name == "_sip._tcp." + host)
    || (transport == "tls" && name == "_sips._tcp." + host)
  }

  /** What looking up the addresses of a host gives: a route to each, in order, or an error. */
  ghost predicate AreAddressRoutes(
    result: Result<seq<Route>, Error>, dns: Dns, host: string, port: nat, transport: string)
  {
    match dns.a(host)
    case Timeout => result == Err(TimedOut)
    case Failure => result == Err(NoRoutes)
    case Found(records, _) =>
      if records == [] then result == Err(NoRoutes)
      else
        && result.Ok? && |result.value| == |records|
        && forall i :: 0 <= i < |records| ==> result.value[i] == Route(records[i], port, transport)
  }

  function Joined(parts: seq<seq<Route>>): seq<Route> {
    if parts == [] then [] else Joined(parts[..|parts| - 1]) + parts[|parts| - 1]
  }

  /** Route after route to the servers for each transport in turn, leaving out those whose lookup timed out. */
  ghost predicate InTurn(dns: Dns, transports: seq<string>, host: string, parts: seq<seq<Route>>) {
    |parts| == |transports|
    && forall i :: 0 <= i < |parts| ==> PartFor(dns, transports[i], host, parts[i])
  }

  ghost predicate PartFor(dns: Dns, transport: string, host: string, part: seq<Route>) {
    exists name :: IsRecordName(name, transport, host) && PartOf(dns, transport, name, part)
  }

  ghost predicate PartOf(dns: Dns, transport: string, name: string, part: seq<Route>) {
    var servers := Services(dns, NOTHING, name);
    if servers.None? then part == [] else AreRoutesTo(part, servers.value, transport)
  }

  lemma NameIsRecordName(transport: string, host: string)
    requires Known(transport)
    ensures IsRecordName(RecordName(transport, host), transport, host)
  {
    assert "_sip._udp" + "." == "_sip._udp.";
    assert "_sip._tcp" + "." == "_sip._tcp.";
    assert "_sips._tcp" + "." == "_sips._tcp.";
  }

  lemma {:induction false} ServicesInTurn(dns: Dns, transports: seq<string>, host: string)
    returns (parts: seq<seq<Route>>)
    requires forall i :: 0 <= i < |transports| ==> Known(transports[i])
    ensures InTurn(dns, transports, host, parts) && ServiceRoutes(dns, transports, host) == Joined(parts)
  {
    hide Services, IsRecordName, Known;
    if transports == [] {
      parts := [];
    } else {
      var most, last := transports[..|transports| - 1], transports[|transports| - 1];
      var servers := Services(dns, NOTHING, RecordName(last, host));
      var part := if servers.Some? then RoutesTo(servers.value, last) else [];
      NameIsRecordName(last, host);
      assert PartOf(dns, last, RecordName(last, host), part);
      assert PartFor(dns, last, host, part);
      assert ServiceRoutes(dns, transports, host) == ServiceRoutes(dns, most, host) + part;
      assert transports == most + [last];
      hide *;
      var before := ServicesInTurn(dns, most, host);
      OneMoreTurn(dns, most, last, host, before, part);
      parts := before + [part];
    }
  }

  lemma OneMoreTurn(dns: Dns, most: seq<string>, last: string, host: string, before: seq<seq<Route>>, part: seq<Route>)
    requires InTurn(dns, most, host, before) && PartFor(dns, last, host, part)
    ensures InTurn(dns, most + [last], host, before + [part])
    ensures Joined(before + [part]) == Joined(before) + part
  {
    hide PartFor;
    assert (before + [part])[..|before|] == before;
  }

  lemma AddressesOfHost(dns: Dns, host: string, port: nat, transport: string)
    ensures AreAddressRoutes(AddressRoutes(dns, host, port, transport), dns, host, port, transport)
  {
  }

  /** The transports accepted and the URIs refused for them: without transports, with an unknown one, with one that the
    * URI dictates or asks for and the application does not support, and a SIPS URI that asks for another than TLS. */
  ghost predicate IsRefused(uri: Uri, transports: seq<string>, error: Error) {
    var dictated := if uri.secure then "tls" else if uri.transport.Some? then Lower(uri.transport.value) else "udp";
    if transports == [] then error == NoTransports
    else if exists i :: 0 <= i < |transports| && transports[i] !in {"udp", "tcp", "tls"} then error == UnknownTransports
    else if uri.numeric || uri.port != 0 then dictated !in transports && error == TransportNotSupported
    else if uri.transport.None? then uri.secure && "tls" !in transports && error == TransportNotSupported
    else if Lower(uri.transport.value) !in transports then error == TransportNotSupported
    else uri.secure && Lower(uri.transport.value) != "tls" && error == NotSecure
  }

  lemma RefusedFirst(dns: Dns, uri: Uri, supported: seq<string>)
    ensures forall error :: IsRefused(uri, LowerAll(supported), error) ==> SipRoutes(dns, uri, supported) == Err(error)
  {
    hide FullRoutes, Lower;
    var transports := LowerAll(supported);
    assert |transports| == |supported|;
    assert forall t :: Known(t) <==> t in {"udp", "tcp", "tls"};
    if i :| 0 <= i < |transports| && transports[i] !in {"udp", "tcp", "tls"} {
      assert transports[i] in transports;
    }
  }

  /** A host that is an address, or a port in the URI: no services are looked up, and the transport is TLS for a SIPS
    * URI, else that of the URI, else UDP. */
  lemma DirectRoutes(dns: Dns, uri: Uri, supported: seq<string>)
    requires forall error :: !IsRefused(uri, LowerAll(supported), error)
    requires uri.numeric || uri.port != 0
    ensures var transport := if uri.secure then "tls"
                             else if uri.transport.Some? then Lower(uri.transport.value) else "udp";
            var port := if uri.port != 0 then uri.port else if transport == "tls" then 5061 else 5060;
            var result := SipRoutes(dns, uri, supported);
            if uri.numeric then result == Ok([Route(uri.host, port, transport)])
            else AreAddressRoutes(result, dns, uri.host, port, transport)
  {
    hide FullRoutes, Lower;
    var transports := LowerAll(supported);
    NotRefused(uri, supported);
    AddressesOfHost(dns, uri.host, uri.port, Dictated(uri));
    hide AreAddressRoutes, AddressRoutes;
  }

  lemma NotRefused(uri: Uri, supported: seq<string>)
    requires forall error :: !IsRefused(uri, LowerAll(supported), error)
    ensures supported != [] && forall t :: t in LowerAll(supported) ==> Known(t)
    ensures uri.numeric || uri.port != 0 ==> Dictated(uri) in LowerAll(supported)
    ensures !uri.numeric && uri.port == 0 && uri.transport.Some? ==>
              Lower(uri.transport.value) in LowerAll(supported)
              && (uri.secure ==> Lower(uri.transport.value) == "tls")
    ensures !uri.numeric && uri.port == 0 && uri.transport.None? && uri.secure ==> "tls" in LowerAll(supported)
  {
    hide Lower, LowerAll;
    var transports := LowerAll(supported);
    assert |transports| == |supported| by { TransportsInAnyCase(supported); }
    assert !IsRefused(uri, transports, NoTransports) && !IsRefused(uri, transports, UnknownTransports);
    assert !IsRefused(uri, transports, TransportNotSupported) && !IsRefused(uri, transports, NotSecure);
  }

  /** The transports an application supports are read in their order, in small or capital letters. */
  lemma TransportsInAnyCase(supported: seq<string>)
    ensures |LowerAll(supported)| == |supported|
    ensures forall i :: 0 <= i < |supported| ==>
              && (LowerAll(supported)[i] == "udp" <==> Spells(supported[i], "udp"))
              && (LowerAll(supported)[i] == "tcp" <==> Spells(supported[i], "tcp"))
              && (LowerAll(supported)[i] == "tls" <==> Spells(supported[i], "tls"))
  {
    forall i | 0 <= i < |supported|
      ensures LowerAll(supported)[i] == "udp" <==> Spells(supported[i], "udp")
      ensures LowerAll(supported)[i] == "tcp" <==> Spells(supported[i], "tcp")
      ensures LowerAll(supported)[i] == "tls" <==> Spells(supported[i], "tls")
    {
      LowerSpells(supported[i], "udp");
      LowerSpells(supported[i], "tcp");
      LowerSpells(supported[i], "tls");
      hide Lower, Spells;
    }
  }

  /** A transport in the URI and neither port nor address: the servers for that transport, and without any the addresses
    * of the host, at port 5061 for TLS and 5060 otherwise. */
  lemma RoutesForTransport(dns: Dns, uri: Uri, supported: seq<string>, name: string)
    requires forall error :: !IsRefused(uri, LowerAll(supported), error)
    requires !uri.numeric && uri.port == 0 && uri.transport.Some?
    requires IsRecordName(name, Lower(uri.transport.value), uri.host)
    ensures var transport, servers := Lower(uri.transport.value), Services(dns, NOTHING, name);
            var result := SipRoutes(dns, uri, supported);
            && (servers.None? ==> result == Err(TimedOut))
            && (servers.Some? && servers.value != [] ==>
                  result.Ok? && AreRoutesTo(result.value, servers.value, transport))
            && (servers == Some([]) ==>
                  AreAddressRoutes(result, dns, uri.host, if transport == "tls" then 5061 else 5060, transport))
  {
    hide FullRoutes, Lower, Services, LowerAll;
    NotRefused(uri, supported);
    var transport := Lower(uri.transport.value);
    NameIsRecordName(transport, uri.host);
    AddressesOfHost(dns, uri.host, DefaultPort(transport), transport);
    hide AreAddressRoutes, AddressRoutes;
  }

  /** The services of pointers that stand for one of the transports. */
  ghost function ServicesFor(transports: seq<string>): set<string> {
    (if "tls" in transports then {"sips+d2t"} else {}) + (if "tcp" in transports then {"sip+d2t"} else {})
    + (if "udp" in transports then {"sip+d2u"} else {})
  }

  lemma OfferedAre(transports: seq<string>)
    ensures Offered(transports) == ServicesFor(transports)
  {
  }

  /** A URI with neither port nor transport: a route for each hop that pointers lead to; without any, those to the
    * servers of each transport in turn; and only without these the addresses of the host. */
  lemma RoutesInFull(dns: Dns, uri: Uri, supported: seq<string>) returns (parts: seq<seq<Route>>)
    requires forall error :: !IsRefused(uri, LowerAll(supported), error)
    requires !uri.numeric && uri.port == 0 && uri.transport.None?
    ensures var transports := if uri.secure then ["tls"] else LowerAll(supported);
            var hops := Pointers(dns, uri.host, ServicesFor(transports));
            var last := if uri.secure then "tls" else "udp";
            var result := SipRoutes(dns, uri, supported);
            && InTurn(dns, transports, uri.host, parts)
            && (hops.Some? && hops.value != [] ==> result.Ok? && AreRoutesBy(result.value, hops.value))
            && (!(hops.Some? && hops.value != []) ==>
                  && (Joined(parts) != [] ==> result == Ok(Joined(parts)))
                  && (Joined(parts) == [] && last in transports ==>
                        AreAddressRoutes(result, dns, uri.host, if uri.secure then 5061 else 5060, last))
                  && (Joined(parts) == [] && last !in transports ==> result == Err(NoRoutes)))
  {
    hide Lower, Services, LowerAll, Pointers, InTurn;
    NotRefused(uri, supported);
    var transports := if uri.secure then ["tls"] else LowerAll(supported);
    OfferedAre(transports);
    var hops := Pointers(dns, uri.host, Offered(transports));
    if hops.Some? {
      PointersOffer(dns, uri.host, Offered(transports));
      RoutesStand(hops.value);
    }
    parts := ServicesInTurn(dns, transports, uri.host);
    var last := if uri.secure then "tls" else "udp";
    AddressesOfHost(dns, uri.host, DefaultPort(last), last);
    hide AreAddressRoutes, AddressRoutes, Joined, ServiceRoutes, AreRoutesBy, ServicesFor, Offered;
  }

  lemma RoutesStand(hops: seq<Hop>)
    requires forall hop :: hop in hops ==> hop.service in NAPTR_SERVICES
    ensures AreRoutesBy(RoutesBy(hops), hops)
  {
    forall i | 0 <= i < |hops| ensures StandsFor(hops[i].service, RoutesBy(hops)[i].transport) {
      assert hops[i] in hops;
    }
  }

  method LookupSipProxy(dns: Dns, uri: Uri, supported: seq<string>) returns (result: Result<seq<Route>, Error>)
    ensures result == SipRoutes(dns, uri, supported)
  {
    if supported == [] {
      return Err(NoTransports);
    }
    var transports := LowerAll(supported);
    if exists t :: t in transports && !Known(t) {
      return Err(UnknownTransports);
    }
    if uri.numeric || uri.port != 0 {
      var transport := Dictated(uri);
      if transport !in transports {
        return Err(TransportNotSupported);
      }
      if uri.numeric {
        return Ok([Route(uri.host, if uri.port != 0 then uri.port else DefaultPort(transport), transport)]);
      }
      result := LookupAt(dns, uri.host, uri.port, transport);
    } else if uri.transport.Some? {
      var transport := Lower(uri.transport.value);
      if transport !in transports {
        return Err(TransportNotSupported);
      }
      if uri.secure && transport != "tls" {
        return Err(NotSecure);
      }
      var servers := LookupService(dns, RecordName(transport, uri.host), NOTHING);
      if servers.None? {
        return Err(TimedOut);
      }
      if servers.value != [] {
        return Ok(RoutesTo(servers.value, transport));
      }
      result := LookupAt(dns, uri.host, DefaultPort(transport), transport);
    } else {
      if uri.secure {
        if "tls" !in transports {
          return Err(TransportNotSupported);
        }
        transports := ["tls"];
      }
      result := FullLookup(dns, uri, transports);
    }
  }

  method LookupAt(dns: Dns, host: string, port: nat, transport: string) returns (result: Result<seq<Route>, Error>)
    ensures result == AddressRoutes(dns, host, port, transport)
  {
    var addresses := LookupAddresses(dns, [host], NOTHING);
    if addresses.None? {
      return Err(TimedOut);
    }
    assert [host][0] == host;
    return OrNone(RoutesAt(addresses.value[host], port, transport));
  }

  method FullLookup(dns: Dns, uri: Uri, transports: seq<string>) returns (result: Result<seq<Route>, Error>)
    ensures result == FullRoutes(dns, uri, transports)
  {
    var pointers := LookupPointers(dns, uri.host, Offered(transports));
    if pointers.Some? && pointers.value != [] {
      return Ok(RoutesBy(pointers.value));
    }
    var routes := [];
    for k := 0 to |transports|
      invariant routes == ServiceRoutes(dns, transports[..k], uri.host)
    {
      assert transports[..k + 1][..k] == transports[..k];
      var servers := LookupService(dns, RecordName(transports[k], uri.host), NOTHING);
      if servers.Some? {
        routes := routes + RoutesTo(servers.value, transports[k]);
      }
    }
    assert transports[..|transports|] == transports;
    if routes != [] {
      return Ok(routes);
    }
    var transport := if uri.secure then "tls" else "udp";
    if transport in transports {
      result := LookupAt(dns, uri.host, DefaultPort(transport), transport);
    } else {
      result := Err(NoRoutes);
    }
  }
}
