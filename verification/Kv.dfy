/** The key/value store that a machine and its manager share, on the bytes that the engine stores. */
module Kv {
  import opened Types
  import opened Docs
  import opened Keys
  import opened Vending
  import opened VendingInvariant
  import Claims

  datatype Role = ManagerRole | MachineRole

  datatype KvEntry = KvEntry(key: Bytes, value: Bytes, author: Role, timestamp: nat)

  // ---------------------------------------------------------------------------------------------
  // Queries on bytes
  // ---------------------------------------------------------------------------------------------

  datatype Found = Found(author: Device, e: Entry)

  function RawAtKey(r: RawReplica, key: Bytes): Versions {
    map a | a in (set s | s in r && s.key == key :: s.author) :: r[RawSlot(a, key)]
  }

  /** The latest entry of one byte key across authors, unless it is empty. */
  function Query(r: RawReplica, key: Bytes): Option<Found> {
    var v := RawAtKey(r, key);
    var winner := Winner(v);
    if winner.None? || v[winner.value].value.IsEmpty() then None
    else Some(Found(winner.value, v[winner.value]))
  }

  /** Key/value data stands under its prefix. */
  predicate WellKept(r: RawReplica) {
    forall s :: s in r && KV_PREFIX <= s.key ==> r[s].value.KvValue?
  }

  lemma QueryFacts(r: RawReplica, key: Bytes)
    requires WellKept(r) && KV_PREFIX <= key
    ensures
      var o := Query(r, key);
      o.Some? ==>
        && RawSlot(o.value.author, key) in r && r[RawSlot(o.value.author, key)] == o.value.e
        && o.value.e.value.KvValue? && o.value.e.value.bytes != []
  {
  }

  // ---------------------------------------------------------------------------------------------
  // Lookup and scan
  // ---------------------------------------------------------------------------------------------

  /** `KvEntry::from_iroh_entry`: strip the prefix if it is there, and take any author but oneself for the
      other role. */
  function FromEntry(key: Bytes, found: Found, reader: Role, self: Device): KvEntry
    requires found.e.value.KvValue?
  {
    var userKey := if KV_PREFIX <= key then key[|KV_PREFIX|..] else key;
    var role := if found.author == self then reader else OtherRole(reader);
    KvEntry(userKey, found.e.value.bytes, role, found.e.ts)
  }

  lemma PrefixStrips(key: Bytes)
    ensures KV_PREFIX <= KV_PREFIX + key && (KV_PREFIX + key)[|KV_PREFIX|..] == key
    ensures KV_PREFIX <= key ==> KV_PREFIX + key[|KV_PREFIX|..] == key
  {
  }

  /** `get_kv_value`: query the exact bytes of the prefixed key. */
  function GetKvValue(r: RawReplica, user: Bytes, reader: Role, self: Device): Option<KvEntry>
    requires WellKept(r)
  {
    var o := Query(r, KV_PREFIX + user);
    QueryFacts(r, KV_PREFIX + user);
    if o.None? then None else Some(FromEntry(KV_PREFIX + user, o.value, reader, self))
  }

  /** This author's entry is the latest one of the user's key, and not empty. */
  predicate HoldsLatest(r: RawReplica, user: Bytes, a: Device) {
    var v := RawAtKey(r, KV_PREFIX + user);
    Wins(v, a) && !v[a].value.IsEmpty()
  }

  lemma OneLatest(v: Versions, a: Device, b: Device)
    requires Wins(v, a) && Wins(v, b)
    ensures a == b
  {
    assert NotLater(a, v[a].ts, b, v[b].ts) && NotLater(b, v[b].ts, a, v[a].ts);
  }

  function OtherRole(role: Role): Role {
    if role.MachineRole? then ManagerRole else MachineRole
  }

  /** A lookup answers exactly when the latest entry of the key, whoever wrote it, is not empty; and its
      answer is that entry. */
  lemma LookupIsLatest(r: RawReplica, user: Bytes, reader: Role, self: Device)
    requires WellKept(r)
    ensures GetKvValue(r, user, reader, self).Some? <==> exists a :: HoldsLatest(r, user, a)
    ensures
      forall a :: HoldsLatest(r, user, a) ==>
        var e := r[RawSlot(a, KV_PREFIX + user)];
        && e.value.KvValue?
        && GetKvValue(r, user, reader, self) ==
             Some(KvEntry(user, e.value.bytes, if a == self then reader else OtherRole(reader), e.ts))
  {
    PrefixStrips(user);
    QueryFacts(r, KV_PREFIX + user);
    var v := RawAtKey(r, KV_PREFIX + user);
    var winner := Winner(v);
    forall a | HoldsLatest(r, user, a) ensures winner == Some(a) {
      OneLatest(v, a, winner.value);
    }
    if GetKvValue(r, user, reader, self).Some? {
      assert HoldsLatest(r, user, winner.value);
    }
  }

  /** The key and value come through, and between a machine and its manager the role is the true one. */
  lemma EntryIsTrue(r: RawReplica, user: Bytes, m: MachineId, g: ManagerId, reader: Role)
    requires WellKept(r)
    requires forall s :: s in r && KV_PREFIX <= s.key ==> s.author == Machine(m) || s.author == Manager(g)
    ensures
      var self := if reader.MachineRole? then Machine(m) else Manager(g);
      var o := GetKvValue(r, user, reader, self);
      o.Some? ==>
        && o.value.key == user && o.value.value != []
        && var author := if o.value.author.MachineRole? then Machine(m) else Manager(g);
           && Wins(RawAtKey(r, KV_PREFIX + user), author)
           && r[RawSlot(author, KV_PREFIX + user)] == Entry(o.value.timestamp, KvValue(o.value.value))
  {
    PrefixStrips(user);
    QueryFacts(r, KV_PREFIX + user);
  }

  predicate DistinctKeys(entries: seq<KvEntry>) {
    forall i, j :: 0 <= i < j < |entries| ==> entries[i].key != entries[j].key
  }

  /** A list has an entry exactly when looking its key up returns that entry. */
  ghost predicate Lists(r: RawReplica, entries: seq<KvEntry>, reader: Role, self: Device)
    requires WellKept(r)
  {
    forall e: KvEntry :: e in entries <==> GetKvValue(r, e.key, reader, self) == Some(e)
  }

  /** The same, of the byte keys seen so far. */
  ghost predicate ListsSeen(r: RawReplica, entries: seq<KvEntry>, seen: set<Bytes>, reader: Role, self: Device)
    requires WellKept(r)
  {
    forall e: KvEntry ::
      e in entries <==> KV_PREFIX + e.key in seen && GetKvValue(r, e.key, reader, self) == Some(e)
  }

  lemma LookupKeepsKey(r: RawReplica, user: Bytes, reader: Role, self: Device)
    requires WellKept(r)
    ensures
      var o := GetKvValue(r, user, reader, self);
      o.Some? ==> o.value.key == user && exists s :: s in r && s.key == KV_PREFIX + user
  {
    PrefixStrips(user);
    QueryFacts(r, KV_PREFIX + user);
  }

  /** What the stream yields for a byte key is what looking up the stripped key returns. */
  lemma StreamedIsLookedUp(r: RawReplica, key: Bytes, reader: Role, self: Device)
    requires WellKept(r) && KV_PREFIX <= key
    ensures
      var o, user := Query(r, key), key[|KV_PREFIX|..];
      && (o.Some? ==> o.value.e.value.KvValue?)
      && GetKvValue(r, user, reader, self) == if o.Some? then Some(FromEntry(key, o.value, reader, self)) else None
  {
    PrefixStrips(key);
    QueryFacts(r, key);
  }

  /** Push what the stream yields for one byte key. */
  method PushEntry(
    r: RawReplica, entries: seq<KvEntry>, ghost seen: set<Bytes>, key: Bytes, reader: Role, self: Device)
    returns (more: seq<KvEntry>)
    requires WellKept(r) && KV_PREFIX <= key && key !in seen && DistinctKeys(entries)
    requires ListsSeen(r, entries, seen, reader, self)
    ensures DistinctKeys(more) && ListsSeen(r, more, seen + {key}, reader, self)
  {
    hide GetKvValue, Query, WellKept, FromEntry, DistinctKeys, ListsSeen;
    StreamedIsLookedUp(r, key, reader, self);
    var o := Query(r, key);
    more := entries;
    if o.Some? {
      more := more + [FromEntry(key, o.value, reader, self)];
    }
    assert o.None? ==> entries + [] == entries;
    Streamed(r, entries, more, seen, key, reader, self);
  }

  /** `get_kv_entries`: the prefix query streams, in any order, the latest non-empty entry of each byte key
      that starts with the prefix. The scan lists an entry exactly when looking its key up returns it. */
  method GetKvEntries(r: RawReplica, reader: Role, self: Device) returns (entries: seq<KvEntry>)
    requires WellKept(r)
    ensures DistinctKeys(entries)
    ensures Lists(r, entries, reader, self)
  {
    hide GetKvValue, WellKept, DistinctKeys, ListsSeen, Lists;
    entries := [];
    var keys := PrefixedKeys(r);
    var todo := keys;
    NothingSeen(r, reader, self);
    assert {} == keys - todo;
    while todo != {}
      invariant todo <= keys && DistinctKeys(entries)
      invariant ListsSeen(r, entries, keys - todo, reader, self)
      decreases |todo|
    {
      var key :| key in todo;
      entries := PushEntry(r, entries, keys - todo, key, reader, self);
      assert keys - (todo - {key}) == keys - todo + {key};
      todo := todo - {key};
    }
    assert keys - todo == keys;
    AllSeen(r, entries, reader, self);
  }

  /** The byte keys that a prefix query meets. */
  function PrefixedKeys(r: RawReplica): set<Bytes> {
    set s | s in r && KV_PREFIX <= s.key :: s.key
  }

  lemma NothingSeen(r: RawReplica, reader: Role, self: Device)
    requires WellKept(r)
    ensures DistinctKeys([]) && ListsSeen(r, [], {}, reader, self)
  {
  }

  lemma AllSeen(r: RawReplica, entries: seq<KvEntry>, reader: Role, self: Device)
    requires WellKept(r) && ListsSeen(r, entries, PrefixedKeys(r), reader, self)
    ensures Lists(r, entries, reader, self)
  {
    hide GetKvValue, WellKept;
    forall e: KvEntry | GetKvValue(r, e.key, reader, self) == Some(e) ensures KV_PREFIX + e.key in PrefixedKeys(r) {
      LookupKeepsKey(r, e.key, reader, self);
      PrefixStrips(e.key);
    }
  }

  lemma Streamed(
    r: RawReplica, before: seq<KvEntry>, entries: seq<KvEntry>, seen: set<Bytes>, key: Bytes, reader: Role,
    self: Device)
    requires WellKept(r) && KV_PREFIX <= key && key !in seen && DistinctKeys(before)
    requires ListsSeen(r, before, seen, reader, self)
    requires
      var o := GetKvValue(r, key[|KV_PREFIX|..], reader, self);
      entries == before + (if o.Some? then [o.value] else [])
    ensures ListsSeen(r, entries, seen + {key}, reader, self) && DistinctKeys(entries)
  {
    hide GetKvValue, WellKept;
    var user := key[|KV_PREFIX|..];
    PrefixStrips(key);
    LookupKeepsKey(r, user, reader, self);
    forall e: KvEntry | e in before ensures e.key != user {}
    forall e: KvEntry ensures KV_PREFIX + e.key == key <==> e.key == user {
      PrefixStrips(e.key);
    }
  }

  // ---------------------------------------------------------------------------------------------
  // Both devices
  // ---------------------------------------------------------------------------------------------

  lemma OnlyTwoAuthors(s: State, d: Device, doc: DocId, m: MachineId, g: ManagerId)
    requires EntriesOk(s) && doc in s.claims.makers && s.claims.makers[doc] == m && OwnedBy(s, m, g)
    ensures forall slot :: slot in Rep(s, d, doc) ==> slot.author == Machine(m) || slot.author == Manager(g)
    ensures forall slot :: slot in Rep(s, d, doc) && slot.key.KvKey? ==> Rep(s, d, doc)[slot].value.KvValue?
  {
    var r := Rep(s, d, doc);
    forall slot | slot in r
      ensures slot.author == Machine(m) || slot.author == Manager(g)
      ensures slot.key.KvKey? ==> r[slot].value.KvValue?
    {
      assert EntryOk(s, doc, slot, r[slot]);
    }
  }

  /** The two replicas of a machine's doc never hold different entries with one timestamp. */
  lemma ReplicasAreCompatible(s: State, doc: DocId, m: MachineId, g: ManagerId)
    requires EntriesOk(s) && ClocksOk(s) && doc in s.claims.makers && s.claims.makers[doc] == m && OwnedBy(s, m, g)
    ensures Compatible(Rep(s, Machine(m), doc), Rep(s, Manager(g), doc))
  {
    var a, b := Rep(s, Machine(m), doc), Rep(s, Manager(g), doc);
    OnlyTwoAuthors(s, Machine(m), doc, m, g);
    forall slot | slot in a && slot in b && a[slot].ts == b[slot].ts ensures a[slot] == b[slot] {
      assert NotAhead(s, doc, slot, a[slot]) && NotAhead(s, doc, slot, b[slot]);
    }
  }

  /** A replica that only the two devices wrote. */
  predicate OfTwo(r: Replica, m: MachineId, g: ManagerId) {
    forall slot :: slot in r ==>
      && (slot.author == Machine(m) || slot.author == Manager(g))
      && (slot.key.KvKey? ==> r[slot].value.KvValue?)
  }

  /** Its stored bytes are in order. */
  lemma StoredIsWellKept(r: Replica, m: MachineId, g: ManagerId)
    requires OfTwo(r, m, g)
    ensures WellKept(Stored(r))
    ensures forall raw :: raw in Stored(r) ==> raw.author == Machine(m) || raw.author == Manager(g)
  {
    forall raw | raw in Stored(r)
      ensures raw.author == Machine(m) || raw.author == Manager(g)
      ensures KV_PREFIX <= raw.key ==> Stored(r)[raw].value.KvValue?
    {
      StoredIsEncoded(r, raw);
      ScansSelectNamespaces(Decode(raw.key).value);
    }
  }

  // ---------------------------------------------------------------------------------------------
  // Setting and reading
  // ---------------------------------------------------------------------------------------------

  function DeviceIn(role: Role, m: MachineId, g: ManagerId): Device {
    if role.MachineRole? then Machine(m) else Manager(g)
  }

  /** `set_kv_value` on the device in this role. */
  function SetsKv(role: Role, m: MachineId, g: ManagerId, user: Bytes, bytes: Bytes, ts: nat): Step {
    if role.MachineRole? then MachineSetsKv(m, user, bytes, ts) else ManagerSetsKv(g, m, user, bytes, ts)
  }

  /** Every entry of the key in this replica is older. */
  predicate AllOlder(r: Replica, user: Bytes, ts: nat) {
    forall slot :: slot in r && slot.key == KvKey(user) ==> r[slot].ts < ts
  }

  /** What a lookup has to answer after this device has set the key. */
  function Answer(user: Bytes, bytes: Bytes, writer: Role, ts: nat): Option<KvEntry> {
    if bytes == [] then None else Some(KvEntry(user, bytes, writer, ts))
  }

  /** A replica with one entry of a key that is newer than the others looks up as that entry. */
  lemma NewestIsRead(
    r: Replica, m: MachineId, g: ManagerId, writer: Role, reader: Role, user: Bytes, bytes: Bytes, ts: nat)
    requires OfTwo(r, m, g)
    requires
      var mine := Slot(DeviceIn(writer, m, g), KvKey(user));
      && mine in r && r[mine] == Entry(ts, KvValue(bytes))
      && forall slot :: slot in r && slot.key == KvKey(user) && slot != mine ==> r[slot].ts < ts
    ensures
      && WellKept(Stored(r))
      && GetKvValue(Stored(r), user, reader, DeviceIn(reader, m, g)) == Answer(user, bytes, writer, ts)
  {
    hide GetKvValue, Stored, Encode, Decode;
    StoredIsWellKept(r, m, g);
    var key, author := KV_PREFIX + user, DeviceIn(writer, m, g);
    assert key == Encode(KvKey(user)) by {
      KvKeyBytes(user);
    }
    StoredSlot(r, Slot(author, KvKey(user)));
    var v := RawAtKey(Stored(r), key);
    forall a | a in v ensures a == author || v[a].ts < ts {
      StoredSlot(r, Slot(a, KvKey(user)));
    }
    LookupIsLatest(Stored(r), user, reader, DeviceIn(reader, m, g));
    assert Wins(v, author);
    forall a | HoldsLatest(Stored(r), user, a) ensures a == author {
      OneLatest(v, a, author);
    }
    assert HoldsLatest(Stored(r), user, author) <==> bytes != [];
  }

  lemma KvKeyBytes(user: Bytes)
    ensures Encode(KvKey(user)) == KV_PREFIX + user
  {
  }

  lemma ReplicaIsOfTwo(s: State, d: Device, m: MachineId, g: ManagerId)
    requires Inv(s) && m in Tickets(s, g)
    ensures OfTwo(Rep(s, d, Tickets(s, g)[m]), m, g)
  {
    hide Inv, Claims.Inv, EntriesOk;
    InvParts(s);
    TicketFacts(s, m, g);
    OnlyTwoAuthors(s, d, Tickets(s, g)[m], m, g);
  }

  /** A device that sets a key with a stamp newer than its replica's other entries reads back what it set, or
      nothing after setting it empty. */
  lemma SetIsRead(s: State, m: MachineId, g: ManagerId, writer: Role, user: Bytes, bytes: Bytes, ts: nat)
    requires Inv(s) && m in Tickets(s, g) && AllOlder(Rep(s, DeviceIn(writer, m, g), Tickets(s, g)[m]), user, ts)
    ensures Enabled(s, SetsKv(writer, m, g, user, bytes, ts))
    ensures
      var d, doc := DeviceIn(writer, m, g), Tickets(s, g)[m];
      var r := Rep(Apply(s, SetsKv(writer, m, g, user, bytes, ts)), d, doc);
      WellKept(Stored(r)) && GetKvValue(Stored(r), user, writer, d) == Answer(user, bytes, writer, ts)
  {
    hide Inv, WellKept, GetKvValue, Stored, Answer;
    var doc, step := Tickets(s, g)[m], SetsKv(writer, m, g, user, bytes, ts);
    SettingEnabled(s, m, g, writer, user, bytes, ts);
    SettingPuts(s, m, g, writer, user, bytes, ts);
    StepKeepsInv(s, step);
    ReplicaIsOfTwo(Apply(s, step), DeviceIn(writer, m, g), m, g);
    NewestIsRead(Rep(Apply(s, step), DeviceIn(writer, m, g), doc), m, g, writer, writer, user, bytes, ts);
  }

  lemma SettingEnabled(s: State, m: MachineId, g: ManagerId, writer: Role, user: Bytes, bytes: Bytes, ts: nat)
    requires Inv(s) && m in Tickets(s, g) && AllOlder(Rep(s, DeviceIn(writer, m, g), Tickets(s, g)[m]), user, ts)
    ensures Enabled(s, SetsKv(writer, m, g, user, bytes, ts))
  {
    hide Inv, Claims.Inv, Claims.Enabled, Visible;
    InvHasClaims(s);
    TicketFacts(s, m, g);
  }

  lemma SettingPuts(s: State, m: MachineId, g: ManagerId, writer: Role, user: Bytes, bytes: Bytes, ts: nat)
    requires Inv(s) && m in Tickets(s, g) && Enabled(s, SetsKv(writer, m, g, user, bytes, ts))
    ensures
      var d, doc, s' := DeviceIn(writer, m, g), Tickets(s, g)[m], Apply(s, SetsKv(writer, m, g, user, bytes, ts));
      && s' == PutEntry(s, d, doc, Slot(d, KvKey(user)), Entry(ts, KvValue(bytes)))
      && Tickets(s', g) == Tickets(s, g)
  {
    hide Inv, Claims.Inv, Claims.Enabled, Claims.Apply, Visible;
    InvHasClaims(s);
    TicketFacts(s, m, g);
  }

  /** And when that entry reaches the other device, and is newer than that replica's other entries, so does
      the other device, with the writer's role. */
  lemma SetIsReadByOther(s: State, m: MachineId, g: ManagerId, writer: Role, user: Bytes, bytes: Bytes, ts: nat)
    requires Inv(s) && m in Tickets(s, g) && Enabled(s, SetsKv(writer, m, g, user, bytes, ts))
    requires AllOlder(Rep(s, DeviceIn(OtherRole(writer), m, g), Tickets(s, g)[m]), user, ts)
    ensures
      var doc, d, d' := Tickets(s, g)[m], DeviceIn(writer, m, g), DeviceIn(OtherRole(writer), m, g);
      var s1 := Apply(s, SetsKv(writer, m, g, user, bytes, ts));
      && Enabled(s1, Sync(d, d', doc, Slot(d, KvKey(user))))
      && var r := Rep(Apply(s1, Sync(d, d', doc, Slot(d, KvKey(user)))), d', doc);
         && WellKept(Stored(r))
         && GetKvValue(Stored(r), user, OtherRole(writer), d') == Answer(user, bytes, writer, ts)
  {
    hide Inv, Claims.Inv, WellKept, GetKvValue, Stored, Answer, Apply, Enabled, OfTwo;
    var doc, d, d' := Tickets(s, g)[m], DeviceIn(writer, m, g), DeviceIn(OtherRole(writer), m, g);
    var step, slot := SetsKv(writer, m, g, user, bytes, ts), Slot(d, KvKey(user));
    InvHasClaims(s);
    TicketFacts(s, m, g);
    SettingPuts(s, m, g, writer, user, bytes, ts);
    var s1 := Apply(s, step);
    StepKeepsInv(s, step);
    SyncIs(s1, d, d', doc, slot);
    var s2 := Apply(s1, Sync(d, d', doc, slot));
    StepKeepsInv(s1, Sync(d, d', doc, slot));
    ReplicaIsOfTwo(s2, d', m, g);
    assert Rep(s1, d', doc) == Rep(s, d', doc) && Rep(s1, d, doc)[slot] == Entry(ts, KvValue(bytes));
    NewestIsRead(Rep(s2, d', doc), m, g, writer, OtherRole(writer), user, bytes, ts);
  }

  /** In every reachable state, once a machine and its manager have delivered all their entries to each
      other, in any order, their replicas are the same; so every key looks up the same on both, with
      the same value, timestamp and author. */
  lemma ExchangeMakesAgree(s: State, m: MachineId, g: ManagerId, toManager: seq<Slot>, toMachine: seq<Slot>)
    requires Inv(s) && m in Tickets(s, g)
    requires forall t :: t in toManager <==> t in Rep(s, Machine(m), Tickets(s, g)[m])
    requires forall t :: t in toMachine <==> t in Rep(s, Manager(g), Tickets(s, g)[m])
    ensures
      var a, b := Rep(s, Machine(m), Tickets(s, g)[m]), Rep(s, Manager(g), Tickets(s, g)[m]);
      var a', b' := DeliverAll(a, b, toMachine), DeliverAll(b, a, toManager);
      && a' == b' && OfTwo(a', m, g) && WellKept(Stored(a'))
      && forall user ::
           GetKvValue(Stored(a'), user, MachineRole, Machine(m)) ==
             GetKvValue(Stored(b'), user, ManagerRole, Manager(g))
  {
    hide Inv, EntriesOk, ClocksOk, Claims.Inv, LatestSlot, MachinesOk, ManagersOk, LedgerOk, GetKvValue, Stored;
    InvParts(s);
    TicketFacts(s, m, g);
    var doc := Tickets(s, g)[m];
    var a, b := Rep(s, Machine(m), doc), Rep(s, Manager(g), doc);
    DeliveryIsMerge(a, b, toMachine);
    DeliveryIsMerge(b, a, toManager);
    ReplicasAreCompatible(s, doc, m, g);
    MergeIsCommutative(a, b);
    OnlyTwoAuthors(s, Machine(m), doc, m, g);
    OnlyTwoAuthors(s, Manager(g), doc, m, g);
    StoredIsWellKept(Merge(a, b), m, g);
    forall user
      ensures
        GetKvValue(Stored(Merge(a, b)), user, MachineRole, Machine(m))
          == GetKvValue(Stored(Merge(a, b)), user, ManagerRole, Manager(g))
    {
      SameLookup(Stored(Merge(a, b)), user, m, g);
    }
  }

  lemma SameLookup(r: RawReplica, user: Bytes, m: MachineId, g: ManagerId)
    requires WellKept(r) && forall raw :: raw in r ==> raw.author == Machine(m) || raw.author == Manager(g)
    ensures GetKvValue(r, user, MachineRole, Machine(m)) == GetKvValue(r, user, ManagerRole, Manager(g))
  {
    PrefixStrips(user);
    QueryFacts(r, KV_PREFIX + user);
  }

  /** So the two devices' scans, whatever order each stream had, list the same entries, each once. */
  lemma ScansAgree(r: RawReplica, m: MachineId, g: ManagerId, mine: seq<KvEntry>, theirs: seq<KvEntry>)
    requires WellKept(r) && forall raw :: raw in r ==> raw.author == Machine(m) || raw.author == Manager(g)
    requires DistinctKeys(mine) && Lists(r, mine, MachineRole, Machine(m))
    requires DistinctKeys(theirs) && Lists(r, theirs, ManagerRole, Manager(g))
    ensures multiset(mine) == multiset(theirs)
  {
    hide GetKvValue, WellKept;
    forall e: KvEntry ensures multiset(mine)[e] == multiset(theirs)[e] {
      SameLookup(r, e.key, m, g);
      CountsOnce(mine, e);
      CountsOnce(theirs, e);
    }
  }

  lemma {:induction false} CountsOnce(entries: seq<KvEntry>, e: KvEntry)
    requires DistinctKeys(entries)
    ensures multiset(entries)[e] == if e in entries then 1 else 0
    decreases |entries|
  {
    if entries != [] {
      var front, last := entries[..|entries| - 1], entries[|entries| - 1];
      CountsOnce(front, e);
      assert entries == front + [last];
      forall i | 0 <= i < |front| ensures front[i] != last {
        assert entries[i].key != entries[|entries| - 1].key;
      }
    }
  }
}
