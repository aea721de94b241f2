/** Making the local address book equal a remote document (sipsimple/addressbook.py, the reload in
  * `AddressbookManager` and the `_internal_save` and `_internal_delete` of its objects).
  *
  * A contact, group or policy is kept as a card under its id, together with the card it was last saved as. */
module AddressBooks {
  import opened NameOrder
  import opened Wrappers

  type Id = string
  type Account = nat

  /** What is sent to the document of an account. */
  datatype Write<T> = Add(account: Account, id: Id, card: T) | Update(account: Account, id: Id,
      card: T) | Delete(account: Account, id: Id)

  /** `saved` is None for an object that was never saved. */
  datatype Entry<T> = Entry(card: T, saved: Option<T>)

  // ------------------------------------------------------------------ saving and deleting one object

  /** Whom to write to when an object is saved after a change from the document of `origin`: for a new object everyone
    * else; for a changed one everyone else too, and the origin itself when the result is not what its document has. */
  ghost predicate Sends<T>(accounts: seq<Account>, origin: Account, entry: Entry<T>, remote: T, account: Account) {
    && account in accounts
    && entry.saved != Some(entry.card)
    && (account == origin ==> entry.saved.Some? && entry.card != remote)
  }

  method Save<T(==)>(accounts: seq<Account>, origin: Account, id: Id, entry: Entry<T>, remote: T)
    returns (after: Entry<T>, writes: seq<Write<T>>)
    ensures after == Entry(entry.card, Some(entry.card))
    ensures forall w :: w in writes <==>
                          && w.Add? == entry.saved.None? && !w.Delete?
                          && w.id == id && w.card == entry.card
                          && Sends(accounts, origin, entry, remote, w.account)
  {
    writes := [];
    if entry.saved == Some(entry.card) {
      return entry, writes;
    }
    after := Entry(entry.card, Some(entry.card));
    for k := 0 to |accounts|
      invariant forall w :: w in writes <==>
                              && w.Add? == entry.saved.None? && !w.Delete?
                              && w.id == id && w.card == entry.card
                              && w.account in accounts[..k]
                              && (w.account == origin ==> entry.saved.Some? && entry.card != remote)
    {
      if accounts[k] != origin || (entry.saved.Some? && entry.card != remote) {
        writes := writes + [if entry.saved.None? then Add(accounts[k], id, entry.card)
            else Update(accounts[k], id, entry.card)];
      }
      assert accounts[..k + 1] == accounts[..k] + [accounts[k]];
    }
    assert accounts[..|accounts|] == accounts;
  }

  // ------------------------------------------------------------------ one kind of object

  type Store<T> = map<Id, Entry<T>>

  ghost predicate DistinctIds<T>(remote: seq<(Id, T)>) {
    forall i, j :: 0 <= i < j < |remote| ==> remote[i].0 != remote[j].0
  }

  ghost function Ids<T>(remote: seq<(Id, T)>): (ids: set<Id>)
    ensures forall id :: id in ids <==> exists k :: 0 <= k < |remote| && remote[k].0 == id
  {
    set k | 0 <= k < |remote| :: remote[k].0
  }

  function Before<T>(store: Store<T>, id: Id, blank: T): Entry<T> {
    if id in store then store[id] else Entry(blank, None)
  }

  function Merged<T>(store: Store<T>, id: Id, blank: T, merge: (T, T) -> T, remote: T): Entry<T> {
    Before(store, id, blank).(card := merge(Before(store, id, blank).card, remote))
  }

  /** `after` is the store once the first `n` remote objects were taken over; an id that is blocked belongs to some
    * other object and is passed over. */
  ghost predicate TakenOver<T>(
    before: Store<T>, after: Store<T>, remote: seq<(Id, T)>, n: nat, blank: T, merge: (T, T) -> T, blocked: set<Id>)
    requires n <= |remote|
  {
    && (forall k :: 0 <= k < n && (remote[k].0 in before || remote[k].0 !in blocked) ==>
                      var card := Merged(before, remote[k].0, blank, merge, remote[k].1).card;
                      remote[k].0 in after && after[remote[k].0] == Entry(card, Some(card)))
    && (forall id :: id !in Ids(remote[..n]) || (id !in before && id in blocked) ==>
                       (id in after <==> id in before) && (id in before ==> id in after && after[id] == before[id]))
  }

  /** Everything written while the first `n` remote objects are taken over. */
  ghost predicate WrittenFor<T(!new)>(
    before: Store<T>, writes: seq<Write<T>>, remote: seq<(Id, T)>, n: nat, blank: T, merge: (T, T) -> T,
        blocked: set<Id>,
    accounts: seq<Account>, origin: Account)
    requires n <= |remote|
  {
    forall w :: w in writes <==>
                  !w.Delete? && exists k :: 0 <= k < n && (remote[k].0 in before || remote[k].0 !in blocked)
                                            && WriteFor(before, w, remote[k].0, remote[k].1, blank, merge, accounts,
                                                        origin)
  }

  ghost predicate WriteFor<T>(
    before: Store<T>, w: Write<T>, id: Id, remote: T, blank: T, merge: (T, T) -> T, accounts: seq<Account>,
        origin: Account)
  {
    var entry := Merged(before, id, blank, merge, remote);
    && !w.Delete? && w.Add? == entry.saved.None? && w.id == id && w.card == entry.card
    && Sends(accounts, origin, entry, remote, w.account)
  }

  predicate Applies<T>(before: Store<T>, id: Id, blocked: set<Id>) {
    id in before || id !in blocked
  }

  lemma TakeOne<T>(
    before: Store<T>, store: Store<T>, remote: seq<(Id, T)>, k: nat, blank: T, merge: (T, T) -> T, blocked: set<Id>)
    requires DistinctIds(remote) && k < |remote| && TakenOver(before, store, remote, k, blank, merge, blocked)
    ensures remote[k].0 in store <==> remote[k].0 in before
    ensures remote[k].0 in before ==> store[remote[k].0] == before[remote[k].0]
    ensures var card := Merged(before, remote[k].0, blank, merge, remote[k].1).card;
            TakenOver(before, if Applies(before, remote[k].0, blocked)
                then store[remote[k].0 := Entry(card, Some(card))] else store,
                      remote, k + 1, blank, merge, blocked)
  {
    IdsGrow(remote, k);
    hide Merged, Ids, DistinctIds;
  }

  lemma IdsGrow<T>(remote: seq<(Id, T)>, k: nat)
    requires DistinctIds(remote) && k < |remote|
    ensures Ids(remote[..k + 1]) == Ids(remote[..k]) + {remote[k].0} && remote[k].0 !in Ids(remote[..k])
    ensures forall j :: 0 <= j < k ==> remote[j].0 != remote[k].0
  {
    assert remote[..k + 1][k] == remote[k];
    assert forall j :: 0 <= j < k ==> remote[..k][j] == remote[..k + 1][j];
  }

  lemma WriteMore<T(!new)>(
    before: Store<T>, writes: seq<Write<T>>, more: seq<Write<T>>, remote: seq<(Id, T)>, k: nat, blank: T,
    merge: (T, T) -> T, blocked: set<Id>, accounts: seq<Account>, origin: Account)
    requires k < |remote| && WrittenFor(before, writes, remote, k, blank, merge, blocked, accounts, origin)
    requires forall w :: w in more <==> Applies(before, remote[k].0, blocked)
                                        && WriteFor(before, w, remote[k].0, remote[k].1, blank, merge, accounts, origin)
    ensures WrittenFor(before, writes + more, remote, k + 1, blank, merge, blocked, accounts, origin)
  {
  }

  lemma NothingTaken<T(!new)>(
    before: Store<T>, remote: seq<(Id, T)>, blank: T, merge: (T, T) -> T, blocked: set<Id>, accounts: seq<Account>,
        origin: Account)
    ensures TakenOver(before, before, remote, 0, blank, merge, blocked)
    ensures WrittenFor(before, [], remote, 0, blank, merge, blocked, accounts, origin)
  {
    assert remote[..0] == [];
  }

  /** What saving one object writes is what taking it over is said to write. */
  lemma WritesOf<T(!new)>(
    before: Store<T>, more: seq<Write<T>>, id: Id, remote: T, blank: T, merge: (T, T) -> T, blocked: set<Id>,
    accounts: seq<Account>, origin: Account)
    requires !Applies(before, id, blocked) ==> more == []
    requires Applies(before, id, blocked) ==>
               var entry := Merged(before, id, blank, merge, remote);
               forall w :: w in more <==>
                             && w.Add? == entry.saved.None? && !w.Delete? && w.id == id && w.card == entry.card
                             && Sends(accounts, origin, entry, remote, w.account)
    ensures forall w :: w in more <==>
        Applies(before, id, blocked) && WriteFor(before, w, id, remote, blank, merge, accounts, origin)
  {
  }

  method TakeOver<T(==, !new)>(
    before: Store<T>, remote: seq<(Id, T)>, blank: T, merge: (T, T) -> T, blocked: set<Id>, accounts: seq<Account>,
        origin: Account)
    returns (store: Store<T>, writes: seq<Write<T>>)
    requires DistinctIds(remote)
    ensures TakenOver(before, store, remote, |remote|, blank, merge, blocked)
    ensures WrittenFor(before, writes, remote, |remote|, blank, merge, blocked, accounts, origin)
  {
    hide TakenOver, WrittenFor, Ids, DistinctIds, WriteFor;
    store, writes := before, [];
    NothingTaken(before, remote, blank, merge, blocked, accounts, origin);
    for k := 0 to |remote|
      invariant TakenOver(before, store, remote, k, blank, merge, blocked)
      invariant WrittenFor(before, writes, remote, k, blank, merge, blocked, accounts, origin)
    {
      TakeOne(before, store, remote, k, blank, merge, blocked);
      var (id, card) := remote[k];
      var more := [];
      if id in store || id !in blocked {
        var entry := if id in store then store[id] else Entry(blank, None);
        entry := entry.(card := merge(entry.card, card));
        var after;
        after, more := Save(accounts, origin, id, entry, card);
        store := store[id := after];
      }
      WritesOf(before, more, remote[k].0, remote[k].1, blank, merge, blocked, accounts, origin);
      WriteMore(before, writes, more, remote, k, blank, merge, blocked, accounts, origin);
      writes := writes + more;
    }
  }

  /** No write goes to the origin for an object that equals its copy once taken over. */
  lemma OriginIsSpared<T(!new)>(
    before: Store<T>, writes: seq<Write<T>>, remote: seq<(Id, T)>, blank: T, merge: (T, T) -> T, blocked: set<Id>,
    accounts: seq<Account>, origin: Account)
    requires WrittenFor(before, writes, remote, |remote|, blank, merge, blocked, accounts, origin)
    ensures Spared(before, writes, remote, blank, merge, origin)
  {
  }

  /** Each write to the origin updates an object it has, in a way its document does not show. */
  ghost predicate Spared<T>(
    before: Store<T>, writes: seq<Write<T>>, remote: seq<(Id, T)>, blank: T, merge: (T, T) -> T, origin: Account)
  {
    forall w :: w in writes && w.account == origin ==>
                  w.Update? && exists k :: 0 <= k < |remote| && remote[k].0 == w.id
                                           && w.card == Merged(before, w.id, blank, merge,
                                               remote[k].1).card != remote[k].1
  }

  /** The origin hears of an object it has exactly when the object was saved before, changed, and is not what the
    * document has once taken over. */
  lemma OriginHears<T(!new)>(
    before: Store<T>, writes: seq<Write<T>>, remote: seq<(Id, T)>, k: nat, blank: T, merge: (T, T) -> T,
        blocked: set<Id>,
    accounts: seq<Account>, origin: Account)
    requires DistinctIds(remote) && k < |remote| && Applies(before, remote[k].0, blocked)
    requires WrittenFor(before, writes, remote, |remote|, blank, merge, blocked, accounts, origin)
    ensures Hears(writes, origin, remote[k].0) <==>
              var entry := Merged(before, remote[k].0, blank, merge, remote[k].1);
              && origin in accounts && entry.saved.Some? && entry.saved.value != entry.card
              && entry.card != remote[k].1
  {
    var entry := Merged(before, remote[k].0, blank, merge, remote[k].1);
    if Sends(accounts, origin, entry, remote[k].1, origin) {
      assert WriteFor(before, Update(origin, remote[k].0, entry.card), remote[k].0, remote[k].1, blank, merge, accounts,
                      origin);
    }
  }

  ghost predicate Hears<T>(writes: seq<Write<T>>, account: Account, id: Id) {
    exists w :: w in writes && w.account == account && w.id == id
  }

  /** Delete the objects the remote document does not have, writing to everyone but the origin. */
  method Prune<T(==)>(before: Store<T>, keep: set<Id>, accounts: seq<Account>, origin: Account)
    returns (store: Store<T>, writes: seq<Write<T>>)
    ensures store == map id | id in before && id in keep :: before[id]
    ensures forall w :: w in writes <==>
                          w.Delete? && w.id in before && w.id !in keep && w.account in accounts && w.account != origin
  {
    store, writes := before, [];
    var todo := before.Keys - keep;
    while todo != {}
      invariant todo <= before.Keys - keep
      invariant store == map id | id in before && (id in keep || id in todo) :: before[id]
      invariant forall w :: w in writes <==>
                              && w.Delete? && w.id in before && w.id !in keep && w.id !in todo
                              && w.account in accounts && w.account != origin
    {
      var id :| id in todo;
      todo := todo - {id};
      store := store - {id};
      var more := Deletions(id, accounts, origin);
      writes := writes + more;
    }
  }

  method Deletions<T>(id: Id, accounts: seq<Account>, origin: Account) returns (writes: seq<Write<T>>)
    ensures forall w :: w in writes <==> w.Delete? && w.id == id && w.account in accounts && w.account != origin
  {
    writes := [];
    for k := 0 to |accounts|
      invariant forall w :: w in writes <==>
                              w.Delete? && w.id == id && w.account in accounts[..k] && w.account != origin
    {
      if accounts[k] != origin {
        writes := writes + [Delete(accounts[k], id)];
      }
      assert accounts[..k + 1] == accounts[..k] + [accounts[k]];
    }
    assert accounts[..|accounts|] == accounts;
  }

  // ------------------------------------------------------------------ contacts, groups and policies

  type Attributes = map<string, Option<string>>

  datatype Handling = Handling(policy: string, subscribe: bool)
  datatype ContactUri = ContactUri(uri: string, kind: Option<string>, attributes: Attributes)

  /** The addresses of a card, in the order it lists them. */
  datatype Uris = Uris(ids: seq<Id>, cards: map<Id, ContactUri>)

  datatype Contact = Contact(
    name: string, presence: Handling, dialog: Handling, attributes: Attributes, uris: Uris, default: Option<Id>)
  datatype Group = Group(name: string, attributes: Attributes, members: seq<Id>)
  datatype Policy = Policy(uri: string, name: string, presence: Handling, dialog: Handling, attributes: Attributes)

  /** Attributes the remote card does not give keep their local value. */
  function MergeUri(local: ContactUri, remote: ContactUri): ContactUri {
    ContactUri(remote.uri, remote.kind, local.attributes + remote.attributes)
  }

  function LocalUri(local: Uris, id: Id, none: ContactUri): ContactUri {
    if id in local.cards then local.cards[id] else none
  }

  /** `blocked` are the ids of addresses that belong to some other object, `none` an address before it is filled in. A
    * local card lists its addresses by id, whatever the order in the remote document. */
  function MergeUris(local: Uris, remote: Uris, none: ContactUri, blocked: set<Id>): Uris {
    var cards := map id | id in remote.cards && (id in local.cards || id !in blocked) ::
                   MergeUri(LocalUri(local, id, none), remote.cards[id]);
    Uris(SortedNames(cards.Keys), cards)
  }

  function MergeContact(local: Contact, remote: Contact, none: ContactUri, blocked: set<Id>): Contact {
    var uris := MergeUris(local.uris, remote.uris, none, blocked);
    Contact(remote.name, remote.presence, remote.dialog, local.attributes + remote.attributes, uris,
            if remote.default.Some? && remote.default.value in uris.cards then remote.default else None)
  }

  /** A local card lists the members of a group by id as well. */
  function MergeGroup(local: Group, remote: Group): Group {
    Group(remote.name, local.attributes + remote.attributes, SortedNames(Elements(remote.members)))
  }

  function MergePolicy(local: Policy, remote: Policy): Policy {
    Policy(remote.uri, remote.name, remote.presence, remote.dialog, local.attributes + remote.attributes)
  }

  lemma Covered(local: Attributes, remote: Attributes)
    ensures local + remote == remote <==> local.Keys <= remote.Keys
    ensures local + remote + remote == local + remote
  {
    assert (local + remote).Keys == local.Keys + remote.Keys;
  }

  ghost predicate Agrees(merged: Attributes, remote: Attributes) {
    forall n :: n in remote ==> n in merged && merged[n] == remote[n]
  }

  ghost predicate UrisHold(uris: Uris, local: Uris, remote: Uris, blocked: set<Id>) {
    && (forall id :: id in uris.cards <==> id in remote.cards && (id in local.cards || id !in blocked))
    && (forall id :: id in uris.cards ==>
                       && uris.cards[id].uri == remote.cards[id].uri && uris.cards[id].kind == remote.cards[id].kind
                       && Agrees(uris.cards[id].attributes, remote.cards[id].attributes))
    && Elements(uris.ids) == uris.cards.Keys && Ascending(uris.ids)
  }

  /** A contact has what a remote card says: name, handling and attributes, the addresses but those that belong to some
    * other object, by id, and the default if it is one of them. */
  ghost predicate ContactHolds(card: Contact, local: Contact, remote: Contact, blocked: set<Id>) {
    && card.name == remote.name && card.presence == remote.presence && card.dialog == remote.dialog
    && Agrees(card.attributes, remote.attributes)
    && UrisHold(card.uris, local.uris, remote.uris, blocked)
    && card.default ==
       (if remote.default.Some? && remote.default.value in card.uris.cards then remote.default else None)
  }

  ghost predicate GroupHolds(card: Group, remote: Group) {
    && card.name == remote.name && Agrees(card.attributes, remote.attributes)
    && Elements(card.members) == Elements(remote.members) && Ascending(card.members)
  }

  ghost predicate PolicyHolds(card: Policy, remote: Policy) {
    && card.uri == remote.uri && card.name == remote.name
    && card.presence == remote.presence && card.dialog == remote.dialog
    && Agrees(card.attributes, remote.attributes)
  }

  lemma UrisTaken(local: Uris, remote: Uris, none: ContactUri, blocked: set<Id>)
    ensures UrisHold(MergeUris(local, remote, none, blocked), local, remote, blocked)
  {
    hide Elements, Ascending, LessEq, SortedNames;
    var uris := MergeUris(local, remote, none, blocked);
    InOrder(uris.cards.Keys);
    forall id | id in uris.cards
      ensures uris.cards[id].uri == remote.cards[id].uri && uris.cards[id].kind == remote.cards[id].kind
      ensures Agrees(uris.cards[id].attributes, remote.cards[id].attributes)
    {
    }
  }

  lemma InOrder(ids: set<Id>)
    ensures Elements(SortedNames(ids)) == ids && Ascending(SortedNames(ids))
  {
  }

  lemma ContactTaken(local: Contact, remote: Contact, none: ContactUri, blocked: set<Id>)
    ensures ContactHolds(MergeContact(local, remote, none, blocked), local, remote, blocked)
  {
    hide MergeUris, UrisHold;
    UrisTaken(local.uris, remote.uris, none, blocked);
  }

  /** The remote addresses say all that the local ones hold. */
  ghost predicate UrisComplete(local: Uris, remote: Uris, none: ContactUri, blocked: set<Id>) {
    forall id :: id in remote.cards ==>
                   && (id in local.cards || id !in blocked)
                   && LocalUri(local, id, none).attributes.Keys <= remote.cards[id].attributes.Keys
  }

  /** The remote card of a contact says all that the local object holds. */
  ghost predicate ContactComplete(local: Contact, remote: Contact, none: ContactUri, blocked: set<Id>) {
    && local.attributes.Keys <= remote.attributes.Keys
    && (remote.default.Some? ==> remote.default.value in remote.uris.cards)
    && UrisComplete(local.uris, remote.uris, none, blocked)
  }

  lemma UrisMatch(local: Uris, remote: Uris, none: ContactUri, blocked: set<Id>)
    requires Elements(remote.ids) == remote.cards.Keys
    ensures MergeUris(local, remote, none, blocked).cards == remote.cards <==>
              UrisComplete(local, remote, none, blocked)
    ensures MergeUris(local, remote, none, blocked) == remote <==>
              UrisComplete(local, remote, none, blocked) && Ascending(remote.ids)
  {
    hide Elements, Ascending;
    var merged := MergeUris(local, remote, none, blocked);
    SortedIsSame(remote.ids);
    hide SortedNames;
    forall id | id in merged.cards
      ensures merged.cards[id] == remote.cards[id] <==>
              LocalUri(local, id, none).attributes.Keys <= remote.cards[id].attributes.Keys
    {
      Covered(LocalUri(local, id, none).attributes, remote.cards[id].attributes);
    }
    if UrisComplete(local, remote, none, blocked) {
      assert merged.cards == remote.cards;
    }
    if merged.cards == remote.cards {
      forall id | id in remote.cards
        ensures (id in local.cards || id !in blocked)
             && LocalUri(local, id, none).attributes.Keys <= remote.cards[id].attributes.Keys
      {
        assert id in merged.cards && merged.cards[id] == remote.cards[id];
      }
    }
  }

  /** A contact taken over equals the remote contact exactly when that one says all there is and lists its addresses in
    * the order of their ids. */
  lemma ContactMatches(local: Contact, remote: Contact, none: ContactUri, blocked: set<Id>)
    requires Elements(remote.uris.ids) == remote.uris.cards.Keys
    ensures MergeContact(local, remote, none, blocked) == remote <==>
              ContactComplete(local, remote, none, blocked) && Ascending(remote.uris.ids)
  {
    hide MergeUris, UrisComplete, Elements, Ascending;
    Covered(local.attributes, remote.attributes);
    UrisMatch(local.uris, remote.uris, none, blocked);
  }

  /** A group taken over equals the remote group exactly when that one gives every attribute and lists its members in
    * the order of their ids; a policy when it gives every attribute. */
  lemma GroupMatches(local: Group, remote: Group)
    ensures GroupHolds(MergeGroup(local, remote), remote)
    ensures MergeGroup(local, remote) == remote <==>
              local.attributes.Keys <= remote.attributes.Keys && Ascending(remote.members)
  {
    Covered(local.attributes, remote.attributes);
    SortedIsSame(remote.members);
  }

  lemma PolicyMatches(local: Policy, remote: Policy)
    ensures PolicyHolds(MergePolicy(local, remote), remote)
    ensures MergePolicy(local, remote) == remote <==> local.attributes.Keys <= remote.attributes.Keys
  {
    Covered(local.attributes, remote.attributes);
  }

  /** The origin is written to about a saved group that changed unless its document gives every attribute and lists the
    * members in the order of their ids. */
  lemma GroupHeard(
    before: Store<Group>, writes: seq<Write<Group>>, remote: seq<(Id, Group)>, k: nat, blank: Group, blocked: set<Id>,
    accounts: seq<Account>, origin: Account)
    requires DistinctIds(remote) && k < |remote| && remote[k].0 in before
    requires WrittenFor(before, writes, remote, |remote|, blank, MergeGroup, blocked, accounts, origin)
    ensures var entry := before[remote[k].0];
            Hears(writes, origin, remote[k].0) <==>
              && origin in accounts && entry.saved.Some?
              && entry.saved.value != MergeGroup(entry.card, remote[k].1)
              && !(entry.card.attributes.Keys <= remote[k].1.attributes.Keys && Ascending(remote[k].1.members))
  {
    OriginHears(before, writes, remote, k, blank, MergeGroup, blocked, accounts, origin);
    GroupMatches(before[remote[k].0].card, remote[k].1);
  }

  /** The same of a contact, whose card must be complete and list the addresses in the order of their ids. */
  lemma ContactHeard(
    before: Store<Contact>, writes: seq<Write<Contact>>, remote: seq<(Id, Contact)>, k: nat, blank: Contact,
    none: ContactUri, uris: set<Id>, blocked: set<Id>, accounts: seq<Account>, origin: Account)
    requires DistinctIds(remote) && k < |remote| && remote[k].0 in before
    requires Elements(remote[k].1.uris.ids) == remote[k].1.uris.cards.Keys
    requires WrittenFor(before, writes, remote, |remote|, blank, ContactMerge(none, uris), blocked, accounts, origin)
    ensures var entry := before[remote[k].0];
            Hears(writes, origin, remote[k].0) <==>
              && origin in accounts && entry.saved.Some?
              && entry.saved.value != MergeContact(entry.card, remote[k].1, none, uris)
              && !(ContactComplete(entry.card, remote[k].1, none, uris) && Ascending(remote[k].1.uris.ids))
  {
    OriginHears(before, writes, remote, k, blank, ContactMerge(none, uris), blocked, accounts, origin);
    ContactMatches(before[remote[k].0].card, remote[k].1, none, uris);
  }

  /** Order counts: a group that held `a` takes over the members `b` and `a` in this order, all else being equal, and
    * the origin is told of what it listed itself. */
  lemma OrderCounts(writes: seq<Write<Group>>, attributes: Attributes, blank: Group, origin: Account)
    requires var local := Group("friends", attributes, ["a"]);
             WrittenFor(map["g" := Entry(local, Some(local))], writes,
                        [("g", Group("friends", attributes, ["b", "a"]))], 1, blank, MergeGroup, {}, [origin], origin)
    ensures Hears(writes, origin, "g")
  {
    var local := Group("friends", attributes, ["a"]);
    var remote := Group("friends", attributes, ["b", "a"]);
    GroupHeard(map["g" := Entry(local, Some(local))], writes, [("g", remote)], 0, blank, {}, [origin], origin);
    GroupMatches(local, remote);
    assert !LessEq("b", "a");
    assert remote.members[0] == "b" && remote.members[1] == "a";
    assert "b" in Elements(remote.members) && "b" !in Elements(local.members);
  }

  /** Taking the same contact over again changes nothing, and so for groups and policies. */
  lemma MergesOnce(none: ContactUri, blocked: set<Id>)
    ensures Idempotent(ContactMerge(none, blocked)) && Idempotent(MergeGroup) && Idempotent(MergePolicy)
  {
    forall local: Attributes, remote: Attributes ensures local + remote + remote == local + remote {
      Covered(local, remote);
    }
    forall local: Contact, remote: Contact
      ensures MergeContact(MergeContact(local, remote, none, blocked), remote, none, blocked) ==
          MergeContact(local, remote, none, blocked)
    {
      ContactOnce(local, remote, none, blocked);
    }
  }

  lemma ContactOnce(local: Contact, remote: Contact, none: ContactUri, blocked: set<Id>)
    ensures MergeContact(MergeContact(local, remote, none, blocked), remote, none, blocked) ==
        MergeContact(local, remote, none, blocked)
  {
    hide MergeUris;
    Covered(local.attributes, remote.attributes);
    UrisOnce(local.uris, remote.uris, none, blocked);
  }

  lemma UrisOnce(local: Uris, remote: Uris, none: ContactUri, blocked: set<Id>)
    ensures MergeUris(MergeUris(local, remote, none, blocked), remote, none, blocked) ==
        MergeUris(local, remote, none, blocked)
  {
    hide SortedNames;
    var once := MergeUris(local, remote, none, blocked);
    var twice := MergeUris(once, remote, none, blocked);
    forall id | id in once.cards ensures id in twice.cards && twice.cards[id] == once.cards[id] {
      Covered(LocalUri(local, id, none).attributes, remote.cards[id].attributes);
    }
    assert twice.cards == once.cards;
  }

  function ContactMerge(none: ContactUri, blocked: set<Id>): (Contact, Contact) -> Contact {
    (local, remote) => MergeContact(local, remote, none, blocked)
  }

  ghost predicate Idempotent<T(!new)>(merge: (T, T) -> T) {
    forall local: T, remote: T :: merge(merge(local, remote), remote) == merge(local, remote)
  }

  // ------------------------------------------------------------------ the reload

  /** After a reload the store has exactly the remote ids (those blocked aside), each with the remote card taken over
    * and saved. */
  ghost predicate Reloaded<T>(
    before: Store<T>, after: Store<T>, remote: seq<(Id, T)>, blank: T, merge: (T, T) -> T, blocked: set<Id>)
  {
    && (forall id :: id in after <==> id in Ids(remote) && (id in before || id !in blocked))
    && forall k :: 0 <= k < |remote| && remote[k].0 in after ==>
                     var card := Merged(before, remote[k].0, blank, merge, remote[k].1).card;
                     after[remote[k].0] == Entry(card, Some(card))
  }

  lemma PrunedIsReloaded<T>(
    before: Store<T>, taken: Store<T>, remote: seq<(Id, T)>, blank: T, merge: (T, T) -> T, blocked: set<Id>)
    requires DistinctIds(remote) && TakenOver(before, taken, remote, |remote|, blank, merge, blocked)
    ensures Reloaded(before, map id | id in taken && id in Ids(remote) :: taken[id], remote, blank, merge, blocked)
  {
    assert remote[..|remote|] == remote;
    forall id | id in Ids(remote) ensures id in taken <==> id in before || id !in blocked {
      var k :| 0 <= k < |remote| && remote[k].0 == id;
    }
  }

  lemma HasOne<T>(s: seq<T>)
    requires s != []
    ensures exists x :: x in s
  {
    assert s[0] in s;
  }

  /** Running the reconciliation again with the same document changes nothing and writes nothing. */
  lemma SecondReload<T(!new)>(
    before: Store<T>, store: Store<T>, again: Store<T>, writes: seq<Write<T>>, remote: seq<(Id, T)>, blank: T,
    merge: (T, T) -> T, blocked: set<Id>, accounts: seq<Account>, origin: Account)
    requires DistinctIds(remote) && Idempotent(merge)
    requires Reloaded(before, store, remote, blank, merge, blocked)
    requires TakenOver(store, again, remote, |remote|, blank, merge, blocked)
    requires WrittenFor(store, writes, remote, |remote|, blank, merge, blocked, accounts, origin)
    ensures again == store && writes == []
  {
    assert remote[..|remote|] == remote;
    forall k | 0 <= k < |remote| && remote[k].0 in store
      ensures Merged(store, remote[k].0, blank, merge, remote[k].1) == store[remote[k].0]
    {
      var card := Before(before, remote[k].0, blank).card;
      assert merge(merge(card, remote[k].1), remote[k].1) == merge(card, remote[k].1);
    }
    forall k, w | 0 <= k < |remote| && (remote[k].0 in store || remote[k].0 !in blocked)
      ensures !WriteFor(store, w, remote[k].0, remote[k].1, blank, merge, accounts, origin)
    {
      assert remote[k].0 in Ids(remote);
    }
    assert forall w :: w !in writes;
    if writes != [] {
      HasOne(writes);
    }
    forall id ensures id in again <==> id in store {
      if id in Ids(remote) {
        var k :| 0 <= k < |remote| && remote[k].0 == id;
      }
    }
    forall id | id in store ensures again[id] == store[id] {
      var k :| 0 <= k < |remote| && remote[k].0 == id;
    }
  }

  datatype Book = Book(contacts: seq<(Id, Contact)>, groups: seq<(Id, Group)>, policies: seq<(Id, Policy)>)

  /** New objects before anything is set on them, and the ids of objects the manager does not hold. */
  datatype Blanks = Blanks(contact: Contact, uri: ContactUri, group: Group, policy: Policy)
  datatype Blocked = Blocked(contacts: set<Id>, uris: set<Id>, groups: set<Id>, policies: set<Id>)

  datatype Writes = Writes(contacts: seq<Write<Contact>>, groups: seq<Write<Group>>, policies: seq<Write<Policy>>)

  function IdSet<T>(remote: seq<(Id, T)>): (ids: set<Id>)
    ensures ids == Ids(remote)
  {
    set k | 0 <= k < |remote| :: remote[k].0
  }

  lemma SparedToo<T(!new)>(
    before: Store<T>, writes: seq<Write<T>>, deletions: seq<Write<T>>, remote: seq<(Id, T)>, blank: T,
    merge: (T, T) -> T, origin: Account)
    requires Spared(before, writes, remote, blank, merge, origin)
    requires forall w :: w in deletions ==> w.account != origin
    ensures Spared(before, writes + deletions, remote, blank, merge, origin)
  {
  }

  /** The members a group gains. */
  function NewMembers(groups: Store<Group>, remote: (Id, Group)): set<Id> {
    Elements(remote.1.members) - if remote.0 in groups then Elements(groups[remote.0].card.members) else {}
  }

  /** A document lists only its own contacts as members of its groups. */
  ghost predicate ListsOwnContacts(remote: Book) {
    forall k, id :: 0 <= k < |remote.groups| && id in remote.groups[k].1.members ==> id in Ids(remote.contacts)
  }

  /** The members a group gains are contacts once the remote contacts were taken over. */
  ghost predicate MembersFound(
    groups: Store<Group>, contacts: Store<Contact>, remote: seq<(Id, Contact)>, blocked: set<Id>, group: (Id, Group))
  {
    forall id :: id in NewMembers(groups, group) ==> id in contacts || (id in Ids(remote) && id !in blocked)
  }

  lemma TakenIds<T>(
    before: Store<T>, taken: Store<T>, remote: seq<(Id, T)>, blank: T, merge: (T, T) -> T, blocked: set<Id>)
    requires TakenOver(before, taken, remote, |remote|, blank, merge, blocked)
    ensures forall id :: id in taken <==> id in before || (id in Ids(remote) && id !in blocked)
  {
    assert remote[..|remote|] == remote;
    forall id ensures id in taken <==> id in before || (id in Ids(remote) && id !in blocked) {
      if id in Ids(remote) {
        var k :| 0 <= k < |remote| && remote[k].0 == id;
      }
    }
  }

  /** Cards of local objects list their addresses and members by id. */
  ghost predicate ContactsInOrder(contacts: Store<Contact>) {
    forall id :: id in contacts ==>
                   var uris := contacts[id].card.uris;
                   Ascending(uris.ids) && Elements(uris.ids) == uris.cards.Keys
  }

  ghost predicate GroupsInOrder(groups: Store<Group>) {
    forall id :: id in groups ==> Ascending(groups[id].card.members)
  }

  /** No group has a member that the document does not have: a contact that is deleted is taken out of no group. */
  ghost predicate NoStaleMembers(groups: Store<Group>, remote: seq<(Id, Contact)>) {
    forall id, m :: id in groups && m in groups[id].card.members ==> m in Ids(remote)
  }

  lemma ContactsStayInOrder(
    before: Store<Contact>, after: Store<Contact>, remote: seq<(Id, Contact)>, blank: Contact, none: ContactUri,
        uris: set<Id>, blocked: set<Id>)
    requires ContactsInOrder(before)
    requires TakenOver(before, after, remote, |remote|, blank, ContactMerge(none, uris), blocked)
    ensures ContactsInOrder(after)
  {
    assert remote[..|remote|] == remote;
    hide Ascending, Elements, MergeContact;
    forall id | id in after
      ensures Ascending(after[id].card.uris.ids)
      ensures Elements(after[id].card.uris.ids) == after[id].card.uris.cards.Keys
    {
      if id in Ids(remote) && Applies(before, id, blocked) {
        var k :| 0 <= k < |remote| && remote[k].0 == id;
        ContactTaken(Before(before, id, blank).card, remote[k].1, none, uris);
      }
    }
  }

  lemma GroupsAfterReload(
    before: Store<Group>, after: Store<Group>, remote: Book, blank: Group, blocked: set<Id>)
    requires Reloaded(before, after, remote.groups, blank, MergeGroup, blocked) && ListsOwnContacts(remote)
    ensures GroupsInOrder(after) && NoStaleMembers(after, remote.contacts)
  {
    hide Ascending, Elements;
    forall id | id in after
      ensures Ascending(after[id].card.members)
      ensures forall m :: m in after[id].card.members ==> m in Ids(remote.contacts)
    {
      var k :| 0 <= k < |remote.groups| && remote.groups[k].0 == id;
      GroupMatches(Before(before, id, blank).card, remote.groups[k].1);
      SameElements(after[id].card.members, remote.groups[k].1.members);
    }
  }

  lemma SameElements(a: seq<Id>, b: seq<Id>)
    requires Elements(a) == Elements(b)
    ensures forall x :: x in a <==> x in b
  {
    assert forall x :: x in a <==> x in Elements(a);
    assert forall x :: x in b <==> x in Elements(b);
  }

  /** All that is written: what taking over each remote object writes, and to every account but the origin a deletion of
    * each object that the document does not have. */
  ghost predicate Told<T(!new)>(
    before: Store<T>, writes: seq<Write<T>>, remote: seq<(Id, T)>, blank: T, merge: (T, T) -> T, blocked: set<Id>,
    accounts: seq<Account>, origin: Account)
  {
    forall w :: w in writes <==> ToldOf(before, w, remote, blank, merge, blocked, accounts, origin)
  }

  ghost predicate ToldOf<T(!new)>(
    before: Store<T>, w: Write<T>, remote: seq<(Id, T)>, blank: T, merge: (T, T) -> T, blocked: set<Id>,
    accounts: seq<Account>, origin: Account)
  {
    || (exists k :: 0 <= k < |remote| && Applies(before, remote[k].0, blocked)
                    && WriteFor(before, w, remote[k].0, remote[k].1, blank, merge, accounts, origin))
    || (w.Delete? && w.id in before && w.id !in Ids(remote) && w.account in accounts && w.account != origin)
  }

  lemma AllIsTold<T(!new)>(
    before: Store<T>, taken: Store<T>, writes: seq<Write<T>>, deletions: seq<Write<T>>, remote: seq<(Id, T)>, blank: T,
    merge: (T, T) -> T, blocked: set<Id>, accounts: seq<Account>, origin: Account)
    requires TakenOver(before, taken, remote, |remote|, blank, merge, blocked)
    requires WrittenFor(before, writes, remote, |remote|, blank, merge, blocked, accounts, origin)
    requires forall w :: w in deletions <==>
               w.Delete? && w.id in taken && w.id !in Ids(remote) && w.account in accounts && w.account != origin
    ensures Told(before, writes + deletions, remote, blank, merge, blocked, accounts, origin)
  {
    TakenIds(before, taken, remote, blank, merge, blocked);
    hide TakenOver, Ids, Merged, Sends;
    forall w ensures w in writes + deletions <==> ToldOf(before, w, remote, blank, merge, blocked, accounts, origin) {
      assert w in deletions <==>
        w.Delete? && w.id in before && w.id !in Ids(remote) && w.account in accounts && w.account != origin;
    }
  }

  /** Every account but the origin is told of every object that is new, changed or gone. */
  lemma EveryoneElseIsTold<T(!new)>(
    before: Store<T>, writes: seq<Write<T>>, remote: seq<(Id, T)>, blank: T, merge: (T, T) -> T, blocked: set<Id>,
    accounts: seq<Account>, origin: Account, account: Account)
    requires Told(before, writes, remote, blank, merge, blocked, accounts, origin)
    requires account in accounts && account != origin
    ensures forall k :: 0 <= k < |remote| && remote[k].0 !in before && remote[k].0 !in blocked ==>
                          Add(account, remote[k].0, merge(blank, remote[k].1)) in writes
    ensures forall k :: 0 <= k < |remote| && remote[k].0 in before ==>
              var entry, card := before[remote[k].0], merge(before[remote[k].0].card, remote[k].1);
              && (entry.saved.None? ==> Add(account, remote[k].0, card) in writes)
              && (entry.saved.Some? && entry.saved.value != card ==> Update(account, remote[k].0, card) in writes)
    ensures forall id :: id in before && id !in Ids(remote) ==> Delete(account, id) in writes
  {
    hide Ids;
    forall k | 0 <= k < |remote| && remote[k].0 !in before && remote[k].0 !in blocked
      ensures Add(account, remote[k].0, merge(blank, remote[k].1)) in writes
    {
      var w := Add(account, remote[k].0, merge(blank, remote[k].1));
      assert WriteFor(before, w, remote[k].0, remote[k].1, blank, merge, accounts, origin);
      assert ToldOf(before, w, remote, blank, merge, blocked, accounts, origin);
    }
    forall k | 0 <= k < |remote| && remote[k].0 in before
      ensures var entry, card := before[remote[k].0], merge(before[remote[k].0].card, remote[k].1);
              && (entry.saved.None? ==> Add(account, remote[k].0, card) in writes)
              && (entry.saved.Some? && entry.saved.value != card ==> Update(account, remote[k].0, card) in writes)
    {
      var entry, card := before[remote[k].0], merge(before[remote[k].0].card, remote[k].1);
      var w := if entry.saved.None? then Add(account, remote[k].0, card) else Update(account, remote[k].0, card);
      if entry.saved != Some(card) {
        assert WriteFor(before, w, remote[k].0, remote[k].1, blank, merge, accounts, origin);
        assert ToldOf(before, w, remote, blank, merge, blocked, accounts, origin);
      }
    }
    forall id | id in before && id !in Ids(remote) ensures Delete(account, id) in writes {
      assert ToldOf(before, Delete(account, id), remote, blank, merge, blocked, accounts, origin);
    }
  }

  /** After a reload the contacts, groups and policies hold what the document says of them, and are saved as they
    * are. */
  ghost predicate HoldsBook(
    before: Store<Contact>, contacts: Store<Contact>, groups: Store<Group>, policies: Store<Policy>, remote: Book,
    blanks: Blanks, blocked: Blocked)
  {
    && (forall k :: 0 <= k < |remote.contacts| && remote.contacts[k].0 in contacts ==>
                      var (id, card) := remote.contacts[k];
                      && contacts[id].saved == Some(contacts[id].card)
                      && ContactHolds(contacts[id].card, Before(before, id, blanks.contact).card, card, blocked.uris))
    && (forall k :: 0 <= k < |remote.groups| && remote.groups[k].0 in groups ==>
                      var (id, card) := remote.groups[k];
                      groups[id].saved == Some(groups[id].card) && GroupHolds(groups[id].card, card))
    && (forall k :: 0 <= k < |remote.policies| && remote.policies[k].0 in policies ==>
                      var (id, card) := remote.policies[k];
                      policies[id].saved == Some(policies[id].card) && PolicyHolds(policies[id].card, card))
  }

  lemma ReloadedHolds(
    contacts0: Store<Contact>, groups0: Store<Group>, policies0: Store<Policy>, contacts: Store<Contact>,
    groups: Store<Group>, policies: Store<Policy>, remote: Book, blanks: Blanks, blocked: Blocked)
    requires Reloaded(contacts0, contacts, remote.contacts, blanks.contact, ContactMerge(blanks.uri, blocked.uris),
                      blocked.contacts)
    requires Reloaded(groups0, groups, remote.groups, blanks.group, MergeGroup, blocked.groups)
    requires Reloaded(policies0, policies, remote.policies, blanks.policy, MergePolicy, blocked.policies)
    ensures HoldsBook(contacts0, contacts, groups, policies, remote, blanks, blocked)
  {
    hide ContactHolds, GroupHolds, PolicyHolds, Ids, MergeContact;
    forall k | 0 <= k < |remote.contacts| && remote.contacts[k].0 in contacts
      ensures var (id, card) := remote.contacts[k];
              && contacts[id].saved == Some(contacts[id].card)
              && ContactHolds(contacts[id].card, Before(contacts0, id, blanks.contact).card, card, blocked.uris)
    {
      ContactTaken(Before(contacts0, remote.contacts[k].0, blanks.contact).card, remote.contacts[k].1, blanks.uri,
                   blocked.uris);
    }
    forall k | 0 <= k < |remote.groups| && remote.groups[k].0 in groups
      ensures var (id, card) := remote.groups[k];
              groups[id].saved == Some(groups[id].card) && GroupHolds(groups[id].card, card)
    {
      GroupMatches(Before(groups0, remote.groups[k].0, blanks.group).card, remote.groups[k].1);
    }
    forall k | 0 <= k < |remote.policies| && remote.policies[k].0 in policies
      ensures var (id, card) := remote.policies[k];
              policies[id].saved == Some(policies[id].card) && PolicyHolds(policies[id].card, card)
    {
      PolicyMatches(Before(policies0, remote.policies[k].0, blanks.policy).card, remote.policies[k].1);
    }
  }

  class AddressbookManager {
    var contacts: Store<Contact>
    var groups: Store<Group>
    var policies: Store<Policy>
    var book: Option<Book>

    ghost predicate Valid()
      reads this
    {
      ContactsInOrder(contacts) && GroupsInOrder(groups)
    }

    /** Make the local objects equal those of `remote`, the document of the account `origin`.  `done` is false when a
      * group names a contact that is not there, which is an error. */
    method Reload(remote: Book, blanks: Blanks, blocked: Blocked, accounts: seq<Account>, origin: Account)
      returns (done: bool, writes: Writes)
      requires DistinctIds(remote.contacts) && DistinctIds(remote.groups) && DistinctIds(remote.policies)
      requires ListsOwnContacts(remote) && Valid()
      modifies this
      ensures Valid()
      ensures book == Some(remote)
      ensures old(book) == Some(remote) ==>
                done && writes == Writes([], [], [])
                && contacts == old(contacts) && groups == old(groups) && policies == old(policies)
      ensures old(book) != Some(remote) ==>
                (done <==> forall k :: 0 <= k < |remote.groups| ==>
                                         MembersFound(old(groups), old(contacts), remote.contacts, blocked.contacts,
                                             remote.groups[k]))
      ensures old(book) != Some(remote) && done ==>
                && Spared(old(contacts), writes.contacts, remote.contacts, blanks.contact,
                          ContactMerge(blanks.uri, blocked.uris), origin)
                && Spared(old(groups), writes.groups, remote.groups, blanks.group, MergeGroup, origin)
                && Spared(old(policies), writes.policies, remote.policies, blanks.policy, MergePolicy, origin)
      ensures old(book) != Some(remote) && done ==>
                && Reloaded(old(contacts), contacts, remote.contacts, blanks.contact,
                    ContactMerge(blanks.uri, blocked.uris), blocked.contacts)
                && Reloaded(old(groups), groups, remote.groups, blanks.group, MergeGroup, blocked.groups)
                && Reloaded(old(policies), policies, remote.policies, blanks.policy, MergePolicy, blocked.policies)
                && NoStaleMembers(groups, remote.contacts)
                && HoldsBook(old(contacts), contacts, groups, policies, remote, blanks, blocked)
      ensures old(book) != Some(remote) && done ==>
                && Told(old(contacts), writes.contacts, remote.contacts, blanks.contact,
                        ContactMerge(blanks.uri, blocked.uris), blocked.contacts, accounts, origin)
                && Told(old(groups), writes.groups, remote.groups, blanks.group, MergeGroup, blocked.groups,
                        accounts, origin)
                && Told(old(policies), writes.policies, remote.policies, blanks.policy, MergePolicy, blocked.policies,
                        accounts, origin)
    {
      hide TakenOver, WrittenFor, Spared, Reloaded, Ids, DistinctIds, ListsOwnContacts, Told, HoldsBook;
      if book == Some(remote) {
        return true, Writes([], [], []);
      }
      book := Some(remote);
      var merge := ContactMerge(blanks.uri, blocked.uris);
      var c1, cw := TakeOver(contacts, remote.contacts, blanks.contact, merge, blocked.contacts, accounts, origin);
      PrunedIsReloaded(contacts, c1, remote.contacts, blanks.contact, merge, blocked.contacts);
      TakenIds(contacts, c1, remote.contacts, blanks.contact, merge, blocked.contacts);
      OriginIsSpared(contacts, cw, remote.contacts, blanks.contact, merge, blocked.contacts, accounts, origin);
      ContactsStayInOrder(contacts, c1, remote.contacts, blanks.contact, blanks.uri, blocked.uris, blocked.contacts);
      contacts := c1;
      if exists k :: 0 <= k < |remote.groups| && !(NewMembers(groups, remote.groups[k]) <= contacts.Keys) {
        return false, Writes(cw, [], []);
      }
      var g1, gw := TakeOver(groups, remote.groups, blanks.group, MergeGroup, blocked.groups, accounts, origin);
      PrunedIsReloaded(groups, g1, remote.groups, blanks.group, MergeGroup, blocked.groups);
      OriginIsSpared(groups, gw, remote.groups, blanks.group, MergeGroup, blocked.groups, accounts, origin);
      var p1, pw := TakeOver(policies, remote.policies, blanks.policy, MergePolicy, blocked.policies, accounts, origin);
      PrunedIsReloaded(policies, p1, remote.policies, blanks.policy, MergePolicy, blocked.policies);
      OriginIsSpared(policies, pw, remote.policies, blanks.policy, MergePolicy, blocked.policies, accounts, origin);
      var pd, gd, cd;
      policies, pd := Prune(p1, IdSet(remote.policies), accounts, origin);
      groups, gd := Prune(g1, IdSet(remote.groups), accounts, origin);
      GroupsAfterReload(old(groups), groups, remote, blanks.group, blocked.groups);
      contacts, cd := Prune(contacts, IdSet(remote.contacts), accounts, origin);
      AllIsTold(old(contacts), c1, cw, cd, remote.contacts, blanks.contact, merge, blocked.contacts, accounts, origin);
      AllIsTold(old(groups), g1, gw, gd, remote.groups, blanks.group, MergeGroup, blocked.groups, accounts, origin);
      AllIsTold(old(policies), p1, pw, pd, remote.policies, blanks.policy, MergePolicy, blocked.policies, accounts,
          origin);
      ReloadedHolds(old(contacts), old(groups), old(policies), contacts, groups, policies, remote, blanks, blocked);
      SparedToo(old(contacts), cw, cd, remote.contacts, blanks.contact, merge, origin);
      SparedToo(old(groups), gw, gd, remote.groups, blanks.group, MergeGroup, origin);
      SparedToo(old(policies), pw, pd, remote.policies, blanks.policy, MergePolicy, origin);
      return true, Writes(cw + cd, gw + gd, pw + pd);
    }
  }
}
