/** Deleting listed payments: grouped by machine as coded, and one by one in input order. */
module Deletion {
  import opened Types
  import opened Docs
  import opened Vending

  /** One payment to delete, and the stamp that its tombstone gets. */
  datatype Deletion = Deletion(item: Item, ts: nat)

  /** The items of one machine, in input order. */
  function OfMachine(items: seq<Item>, m: MachineId): seq<Item> {
    if items == [] then []
    else
      var front := OfMachine(items[..|items| - 1], m);
      var last := items[|items| - 1];
      if last.machine == m then front + [last] else front
  }

  function Machines(items: seq<Item>): set<MachineId> {
    set item | item in items :: item.machine
  }

  lemma {:induction false} OfMachineHas(items: seq<Item>, m: MachineId, item: Item)
    ensures item in OfMachine(items, m) <==> item in items && item.machine == m
    decreases |items|
  {
    if items != [] {
      var front, last := items[..|items| - 1], items[|items| - 1];
      OfMachineHas(front, m, item);
      assert items == front + [last];
    }
  }

  /** The fold into a map from machine to its contracts. */
  method GroupByMachine(items: seq<Item>) returns (groups: map<MachineId, seq<Item>>)
    ensures groups.Keys == Machines(items)
    ensures forall m :: m in groups ==> groups[m] == OfMachine(items, m)
  {
    groups := map[];
    for i := 0 to |items|
      invariant groups.Keys == Machines(items[..i])
      invariant forall m :: m in groups ==> groups[m] == OfMachine(items[..i], m)
      invariant forall m :: m !in groups ==> OfMachine(items[..i], m) == []
    {
      var item := items[i];
      assert items[..i + 1] == items[..i] + [item] && items[..i + 1][..i] == items[..i];
      var sofar := if item.machine in groups then groups[item.machine] else [];
      groups := groups[item.machine := sofar + [item]];
    }
    assert items[..|items|] == items;
  }

  // ---------------------------------------------------------------------------------------------
  // What deleting does
  // ---------------------------------------------------------------------------------------------

  function Items(ds: seq<Deletion>): seq<Item> {
    if ds == [] then [] else Items(ds[..|ds| - 1]) + [ds[|ds| - 1].item]
  }

  function DeletionsOf(ds: seq<Deletion>, m: MachineId): seq<Deletion> {
    if ds == [] then []
    else
      var front := DeletionsOf(ds[..|ds| - 1], m);
      var last := ds[|ds| - 1];
      if last.item.machine == m then front + [last] else front
  }

  /** One deletion in the doc of its machine; like any write it is accepted only when it is newer than
      the manager's own entry there. */
  function DeleteOne(r: Replica, g: ManagerId, d: Deletion): Replica {
    Deliver(r, Slot(Manager(g), ContractKey(d.item.Pay())), Entry(d.ts, Empty))
  }

  function DeleteDoc(r: Replica, g: ManagerId, ds: seq<Deletion>): Replica {
    if ds == [] then r else DeleteOne(DeleteDoc(r, g, ds[..|ds| - 1]), g, ds[|ds| - 1])
  }

  type MachineDocs = map<MachineId, Replica>

  /** All deletions, one after the other, each in its machine's doc. */
  function DeleteAll(docs: MachineDocs, g: ManagerId, ds: seq<Deletion>): MachineDocs {
    if ds == [] then docs
    else
      var before, d := DeleteAll(docs, g, ds[..|ds| - 1]), ds[|ds| - 1];
      if d.item.machine in before then before[d.item.machine := DeleteOne(before[d.item.machine], g, d)] else before
  }

  /** A doc depends on nothing but its own machine's deletions, in their order. */
  lemma {:induction false} DocAfter(docs: MachineDocs, g: ManagerId, ds: seq<Deletion>, m: MachineId)
    ensures m in DeleteAll(docs, g, ds) <==> m in docs
    ensures m in docs ==> DeleteAll(docs, g, ds)[m] == DeleteDoc(docs[m], g, DeletionsOf(ds, m))
    decreases |ds|
  {
    if ds != [] {
      var front, last := ds[..|ds| - 1], ds[|ds| - 1];
      DocAfter(docs, g, front, m);
      DocAfter(docs, g, front, last.item.machine);
      if last.item.machine == m {
        DeleteDocAppends(if m in docs then docs[m] else map[], g, DeletionsOf(front, m), last);
      }
    }
  }

  lemma DeleteDocAppends(r: Replica, g: ManagerId, ds: seq<Deletion>, d: Deletion)
    ensures DeleteDoc(r, g, ds + [d]) == DeleteOne(DeleteDoc(r, g, ds), g, d)
  {
    assert (ds + [d])[..|ds|] == ds;
  }

  lemma DeletionsOfAppends(ds: seq<Deletion>, d: Deletion, m: MachineId)
    ensures DeletionsOf(ds + [d], m) == DeletionsOf(ds, m) + if d.item.machine == m then [d] else []
    ensures Items(ds + [d]) == Items(ds) + [d.item]
  {
    assert (ds + [d])[..|ds|] == ds;
  }

  // ---------------------------------------------------------------------------------------------
  // Grouping
  // ---------------------------------------------------------------------------------------------

  /** Visiting the machines one after the other, each with its own deletions. */
  function Grouped(ds: seq<Deletion>, order: seq<MachineId>): seq<Deletion> {
    if order == [] then [] else DeletionsOf(ds, order[0]) + Grouped(ds, order[1..])
  }

  predicate Distinct(order: seq<MachineId>) {
    forall i, j :: 0 <= i < j < |order| ==> order[i] != order[j]
  }

  lemma {:induction false} DeletionsOfConcat(a: seq<Deletion>, b: seq<Deletion>, m: MachineId)
    ensures DeletionsOf(a + b, m) == DeletionsOf(a, m) + DeletionsOf(b, m)
    decreases |b|
  {
    if b == [] {
      assert a + b == a;
    } else {
      var front := b[..|b| - 1];
      DeletionsOfConcat(a, front, m);
      assert (a + b)[..|a + b| - 1] == a + front;
    }
  }

  lemma {:induction false} DeletionsOfTwice(ds: seq<Deletion>, n: MachineId, m: MachineId)
    ensures DeletionsOf(DeletionsOf(ds, n), m) == if m == n then DeletionsOf(ds, n) else []
    decreases |ds|
  {
    if ds != [] {
      var front, last := ds[..|ds| - 1], ds[|ds| - 1];
      DeletionsOfTwice(front, n, m);
      DeletionsOfAppends(DeletionsOf(front, n), last, m);
    }
  }

  /** Grouping keeps each machine's own deletions, in their order. */
  lemma {:induction false} GroupOf(ds: seq<Deletion>, order: seq<MachineId>, m: MachineId)
    requires Distinct(order)
    ensures DeletionsOf(Grouped(ds, order), m) == if m in order then DeletionsOf(ds, m) else []
    decreases |order|
  {
    if order != [] {
      GroupOf(ds, order[1..], m);
      DeletionsOfConcat(DeletionsOf(ds, order[0]), Grouped(ds, order[1..]), m);
      DeletionsOfTwice(ds, order[0], m);
      assert m in order <==> m == order[0] || m in order[1..];
    }
  }

  lemma {:induction false} NoneOfOthers(ds: seq<Deletion>, m: MachineId)
    ensures m !in Machines(Items(ds)) ==> DeletionsOf(ds, m) == []
    decreases |ds|
  {
    if ds != [] {
      var front, last := ds[..|ds| - 1], ds[|ds| - 1];
      NoneOfOthers(front, m);
      assert last.item in Items(ds) && forall item :: item in Items(front) ==> item in Items(ds);
    }
  }

  /** Grouped deletion, whatever order the machines come in and whatever the clocks read, leaves exactly
      the docs that deleting in input order leaves. */
  lemma GroupedRefinesInOrder(docs: MachineDocs, g: ManagerId, ds: seq<Deletion>, order: seq<MachineId>)
    requires Distinct(order) && forall m :: m in order <==> m in Machines(Items(ds))
    ensures DeleteAll(docs, g, Grouped(ds, order)) == DeleteAll(docs, g, ds)
  {
    var a, b := DeleteAll(docs, g, Grouped(ds, order)), DeleteAll(docs, g, ds);
    forall m ensures (m in a <==> m in b) && (m in a ==> a[m] == b[m]) {
      DocAfter(docs, g, ds, m);
      DocAfter(docs, g, Grouped(ds, order), m);
      GroupOf(ds, order, m);
      NoneOfOthers(ds, m);
    }
  }

  /** Grouping the items and then deleting is grouping the deletions. */
  lemma {:induction false} ItemsOfMachine(ds: seq<Deletion>, m: MachineId)
    ensures Items(DeletionsOf(ds, m)) == OfMachine(Items(ds), m)
    decreases |ds|
  {
    if ds != [] {
      var front, last := ds[..|ds| - 1], ds[|ds| - 1];
      ItemsOfMachine(front, m);
      DeletionsOfAppends(DeletionsOf(front, m), last, m);
      assert Items(ds)[..|Items(ds)| - 1] == Items(front);
    }
  }

  lemma {:induction false} DeletionsCount(ds: seq<Deletion>, m: MachineId, d: Deletion)
    ensures multiset(DeletionsOf(ds, m))[d] == if d.item.machine == m then multiset(ds)[d] else 0
    decreases |ds|
  {
    if ds != [] {
      var front, last := ds[..|ds| - 1], ds[|ds| - 1];
      DeletionsCount(front, m, d);
      assert ds == front + [last];
    }
  }

  lemma {:induction false} GroupedCounts(ds: seq<Deletion>, order: seq<MachineId>, d: Deletion)
    requires Distinct(order)
    ensures multiset(Grouped(ds, order))[d] == if d.item.machine in order then multiset(ds)[d] else 0
    decreases |order|
  {
    if order != [] {
      DeletionsCount(ds, order[0], d);
      GroupedCounts(ds, order[1..], d);
      assert d.item.machine in order <==> d.item.machine == order[0] || d.item.machine in order[1..];
    }
  }

  lemma {:induction false} HasItsMachine(ds: seq<Deletion>, d: Deletion)
    requires d in ds
    ensures d.item.machine in Machines(Items(ds))
    decreases |ds|
  {
    var front, last := ds[..|ds| - 1], ds[|ds| - 1];
    assert last.item in Items(ds) && forall item :: item in Items(front) ==> item in Items(ds);
    if d != last {
      assert d in front;
      HasItsMachine(front, d);
    }
  }

  /** Grouping loses, adds and repeats nothing, whatever order the map is iterated in. */
  lemma GroupedIsPermutation(ds: seq<Deletion>, order: seq<MachineId>)
    requires Distinct(order) && forall m :: m in order <==> m in Machines(Items(ds))
    ensures multiset(Grouped(ds, order)) == multiset(ds)
  {
    forall d ensures multiset(Grouped(ds, order))[d] == multiset(ds)[d] {
      GroupedCounts(ds, order, d);
      if d in ds {
        HasItsMachine(ds, d);
      }
    }
  }

  // ---------------------------------------------------------------------------------------------
  // What shows afterwards
  // ---------------------------------------------------------------------------------------------

  /** The manager's own entry at a payment's key. */
  function TombIn(r: Replica, g: ManagerId, pay: PayId): Option<Entry> {
    var slot := Slot(Manager(g), ContractKey(pay));
    if slot in r then Some(r[slot]) else None
  }

  /** The manager writes nothing but tombstones at contract keys. */
  predicate OnlyTombs(r: Replica, g: ManagerId) {
    forall s :: s in r && s.author == Manager(g) && s.key.ContractKey? ==> r[s].value == Empty
  }

  /** The stamp is later than every entry that somebody else has in this doc. */
  ghost predicate Late(r: Replica, g: ManagerId, ts: nat) {
    forall s :: s in r && s.author != Manager(g) ==> r[s].ts < ts
  }

  predicate Names(ds: seq<Deletion>, k: DocKey) {
    exists i :: 0 <= i < |ds| && ContractKey(ds[i].item.Pay()) == k
  }

  /** Slot by slot: a named contract has a tombstone no older than the stamps it was deleted with, the
      rest is untouched. */
  lemma {:induction false} SlotAfterDeletion(r: Replica, g: ManagerId, ds: seq<Deletion>, slot: Slot)
    ensures
      var r' := DeleteDoc(r, g, ds);
      if slot.author == Manager(g) && Names(ds, slot.key) then
        && slot in r' && (slot in r ==> r[slot].ts <= r'[slot].ts)
        && (r'[slot].value == Empty || (slot in r && r'[slot] == r[slot]))
        && (forall i :: 0 <= i < |ds| && ContractKey(ds[i].item.Pay()) == slot.key ==> ds[i].ts <= r'[slot].ts)
      else
        (slot in r' <==> slot in r) && (slot in r ==> r'[slot] == r[slot])
    decreases |ds|
  {
    if ds != [] {
      var front, last := ds[..|ds| - 1], ds[|ds| - 1];
      SlotAfterDeletion(r, g, front, slot);
      assert Names(ds, slot.key) <==> Names(front, slot.key) || ContractKey(last.item.Pay()) == slot.key by {
        if i :| 0 <= i < |front| && ContractKey(front[i].item.Pay()) == slot.key {
          assert ds[i] == front[i];
        }
        assert ds[|ds| - 1] == last;
      }
      forall i | 0 <= i < |ds| - 1 ensures ds[i] == front[i] {}
    }
  }

  /** With late clocks, exactly the named contracts are hidden, and every other query answers as before. */
  lemma AfterDeletion(r: Replica, g: ManagerId, ds: seq<Deletion>, k: DocKey)
    requires OnlyTombs(r, g) && forall i :: 0 <= i < |ds| ==> Late(r, g, ds[i].ts)
    ensures
      var r' := DeleteDoc(r, g, ds);
      if Names(ds, k) then Visible(r', k).None? else Visible(r', k) == Visible(r, k)
  {
    var r' := DeleteDoc(r, g, ds);
    if Names(ds, k) {
      var i :| 0 <= i < |ds| && ContractKey(ds[i].item.Pay()) == k;
      TombstoneWins(r, g, ds, i);
    } else {
      forall slot: Slot | slot.key == k
        ensures slot in r' <==> slot in r
        ensures slot in r ==> r'[slot] == r[slot]
      {
        SlotAfterDeletion(r, g, ds, slot);
      }
      VisibleIsLocal(r', r, k);
    }
  }

  lemma TombstoneWins(r: Replica, g: ManagerId, ds: seq<Deletion>, i: nat)
    requires i < |ds| && OnlyTombs(r, g) && Late(r, g, ds[i].ts)
    ensures Visible(DeleteDoc(r, g, ds), ContractKey(ds[i].item.Pay())).None?
  {
    var r', k := DeleteDoc(r, g, ds), ContractKey(ds[i].item.Pay());
    var tombstone := Slot(Manager(g), k);
    SlotAfterDeletion(r, g, ds, tombstone);
    var latest := LatestSlot(r', k).value;
    SlotAfterDeletion(r, g, ds, latest);
    assert Behind(r', tombstone, latest);
  }
}
