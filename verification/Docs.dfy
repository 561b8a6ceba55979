/**
 One replica of a machine doc. The replication engine is foreign code, so this module is its
 assumed behaviour: a replica holds at most one entry for each (author, key) slot, a write is
 accepted only when it is newer than the author's own entry there, and merging keeps the newer
 entry of every slot. Reads take the latest entry of a key across authors and then hide it when
 it is empty.
 */
module Docs {
  import opened Types

  datatype Value =
    | Empty
    | ContractValue(contract: Contract)
    | ConfigValue(config: MachineConfig)
    | KvValue(bytes: Bytes)
  {
    predicate IsEmpty() {
      this == Empty || this == KvValue([])
    }
  }

  datatype Slot = Slot(author: Device, key: DocKey)
  datatype Entry = Entry(ts: nat, value: Value)

  type Replica = map<Slot, Entry>

  /** A total order on authors; it only breaks ties between equal timestamps. */
  function Rank(d: Device): nat {
    match d
    case Machine(m) => 2 * m
    case Manager(g) => 2 * g + 1
  }

  /** A timestamp the engine accepts for a local write to this slot. */
  predicate Acceptable(r: Replica, s: Slot, ts: nat) {
    s in r ==> r[s].ts < ts
  }

  /** Receiving one entry from a peer keeps whichever of the two is newer. */
  function Deliver(r: Replica, s: Slot, e: Entry): Replica {
    if Acceptable(r, s, e.ts) then r[s := e] else r
  }

  function Merge(a: Replica, b: Replica): Replica {
    map s | s in a.Keys + b.Keys :: if s in b && Acceptable(a, s, b[s].ts) then b[s] else a[s]
  }

  /** Equal timestamps in one slot mean equal entries: no author stamps two entries alike. */
  predicate Compatible(a: Replica, b: Replica) {
    forall s :: s in a && s in b && a[s].ts == b[s].ts ==> a[s] == b[s]
  }

  lemma MergeIsCommutative(a: Replica, b: Replica)
    requires Compatible(a, b)
    ensures Merge(a, b) == Merge(b, a)
  {
    forall s | s in Merge(a, b).Keys + Merge(b, a).Keys ensures Merge(a, b)[s] == Merge(b, a)[s] {}
    assert Merge(a, b).Keys == Merge(b, a).Keys;
  }

  /** Receive some of a peer's entries, one after the other. */
  function DeliverAll(a: Replica, b: Replica, order: seq<Slot>): Replica
    requires forall s :: s in order ==> s in b
    decreases |order|
  {
    if order == [] then a else DeliverAll(Deliver(a, order[0], b[order[0]]), b, order[1..])
  }

  lemma {:induction false} SlotAfterDelivery(a: Replica, b: Replica, order: seq<Slot>, s: Slot)
    requires forall t :: t in order ==> t in b
    ensures
      var r := DeliverAll(a, b, order);
      (s in r <==> s in a || s in order)
      && (s in r ==> r[s] == if s in order && Acceptable(a, s, b[s].ts) then b[s] else a[s])
    decreases |order|
  {
    if order != [] {
      SlotAfterDelivery(Deliver(a, order[0], b[order[0]]), b, order[1..], s);
    }
  }

  /** Delivering every entry of a peer, in any order and however often, amounts to merging. */
  lemma DeliveryIsMerge(a: Replica, b: Replica, order: seq<Slot>)
    requires forall s :: s in order <==> s in b
    ensures DeliverAll(a, b, order) == Merge(a, b)
  {
    var r := DeliverAll(a, b, order);
    forall s ensures (s in r <==> s in Merge(a, b)) && (s in r ==> r[s] == Merge(a, b)[s]) {
      SlotAfterDelivery(a, b, order, s);
    }
  }

  // ---------------------------------------------------------------------------------------------
  // Queries
  // ---------------------------------------------------------------------------------------------

  /** The entries that one key has, by author. */
  type Versions = map<Device, Entry>

  /** What one author wrote at one time is not later than what another wrote at another. */
  predicate NotLater(a: Device, ts: nat, b: Device, ts': nat) {
    ts < ts' || (ts == ts' && Rank(a) <= Rank(b))
  }

  predicate Wins(v: Versions, a: Device) {
    a in v && forall b :: b in v ==> NotLater(b, v[b].ts, a, v[a].ts)
  }

  lemma {:induction false} WinnerExists(v: Versions, among: set<Device>)
    requires among <= v.Keys && among != {}
    ensures exists a :: a in among && forall b :: b in among ==> NotLater(b, v[b].ts, a, v[a].ts)
    decreases |among|
  {
    hide Rank;
    var x :| x in among;
    var rest := among - {x};
    if rest == {} {
      assert among == {x};
      assert NotLater(x, v[x].ts, x, v[x].ts);
    } else {
      WinnerExists(v, rest);
      var y :| y in rest && forall b :: b in rest ==> NotLater(b, v[b].ts, y, v[y].ts);
      var a := if NotLater(x, v[x].ts, y, v[y].ts) then y else x;
      forall b | b in among ensures NotLater(b, v[b].ts, a, v[a].ts) {
        if b != x {
          assert NotLater(b, v[b].ts, y, v[y].ts);
        }
      }
    }
  }

  /** The author of the latest entry. */
  function Winner(v: Versions): (o: Option<Device>)
    ensures o.Some? ==> Wins(v, o.value)
    ensures o.None? <==> v == map[]
  {
    if v == map[] then None
    else
      WinnerExists(v, v.Keys);
      var a :| a in v && forall b :: b in v.Keys ==> NotLater(b, v[b].ts, a, v[a].ts);
      Some(a)
  }

  function AtKey(r: Replica, k: DocKey): Versions {
    map a | a in (set s | s in r && s.key == k :: s.author) :: r[Slot(a, k)]
  }

  /** Entry s is not later than entry t. */
  predicate Behind(r: Replica, s: Slot, t: Slot)
    requires s in r && t in r
  {
    NotLater(s.author, r[s].ts, t.author, r[t].ts)
  }

  predicate IsLatest(r: Replica, t: Slot) {
    t in r && forall s :: s in r && s.key == t.key ==> Behind(r, s, t)
  }

  function LatestSlot(r: Replica, k: DocKey): (o: Option<Slot>)
    ensures o.Some? ==> o.value.key == k && IsLatest(r, o.value)
    ensures o.None? ==> forall s :: s in r ==> s.key != k
  {
    var v := AtKey(r, k);
    assert forall s :: s in r && s.key == k ==> s.author in v && v[s.author] == r[s];
    var o := Winner(v);
    if o.None? then None else Some(Slot(o.value, k))
  }

  /** What a query for one key returns: the latest entry across authors unless it is empty. */
  function Visible(r: Replica, k: DocKey): Option<Value> {
    var o := LatestSlot(r, k);
    if o.Some? && !r[o.value].value.IsEmpty() then Some(r[o.value].value) else None
  }

  /** When one author writes values at a key and another only empties it, the key is hidden exactly
      when the second is the later. */
  lemma HiddenByOther(r: Replica, p: Slot, t: Slot)
    requires p in r && !r[p].value.IsEmpty() && t.key == p.key && t.author != p.author
    requires t in r ==> r[t].value.IsEmpty()
    requires forall s :: s in r && s.key == p.key ==> s == p || s == t
    ensures Visible(r, p.key).None? <==> t in r && Behind(r, p, t)
  {
    var latest := LatestSlot(r, p.key).value;
    assert Behind(r, p, latest) && (t in r ==> Behind(r, t, latest));
  }

  /** A query for one key looks at nothing but that key's entries. */
  lemma VisibleIsLocal(r: Replica, r': Replica, k: DocKey)
    requires forall s: Slot :: s.key == k ==> (s in r <==> s in r') && (s in r ==> r[s] == r'[s])
    ensures Visible(r, k) == Visible(r', k)
  {
    var o, o' := LatestSlot(r, k), LatestSlot(r', k);
    if o.Some? && o'.Some? {
      assert Behind(r, o'.value, o.value) && Behind(r', o.value, o'.value);
    }
  }
}
