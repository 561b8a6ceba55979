/** The manager's sweeping pass, run like the machine's against an arbitrary environment. */
module ManagerSyncer {
  import opened Types
  import opened Docs
  import opened Vending
  import opened VendingInvariant
  import opened VendingTheorems
  import opened Runtimes
  import opened Deletion
  import opened Quiescence
  import Claims

  /** The manager's replica of the doc of a machine it lists. */
  function ReplicaOf(s: State, g: ManagerId, m: MachineId): Replica {
    if m in Tickets(s, g) then Rep(s, Manager(g), Tickets(s, g)[m]) else map[]
  }

  /** The manager's own tombstone for a payment in that doc. */
  function Tomb(s: State, g: ManagerId, m: MachineId, pay: PayId): Option<Entry> {
    TombIn(ReplicaOf(s, g, m), g, pay)
  }

  /** The machine's payment has reached the manager's replica. */
  predicate Arrived(s: State, g: ManagerId, m: MachineId, pay: PayId) {
    Slot(Machine(m), ContractKey(pay)) in ReplicaOf(s, g, m)
  }

  function ArrivedTs(s: State, g: ManagerId, m: MachineId, pay: PayId): nat
    requires Arrived(s, g, m, pay)
  {
    ReplicaOf(s, g, m)[Slot(Machine(m), ContractKey(pay))].ts
  }

  /** There is a tombstone, and it hides any entry that the machine made up to this time. */
  predicate Covers(s: State, g: ManagerId, m: MachineId, pay: PayId, ts: nat) {
    Tomb(s, g, m, pay).Some? && NotLater(Machine(m), ts, Manager(g), Tomb(s, g, m, pay).value.ts)
  }

  lemma TicketsKept(s: State, s': State, g: ManagerId, m: MachineId)
    requires Claims.Inv(s.claims) && Claims.Inv(s'.claims) && Grows(s, s') && m in Tickets(s, g)
    ensures m in Tickets(s', g) && Tickets(s', g)[m] == Tickets(s, g)[m]
  {
    assert Claims.KeepsDocs(Claims.ManagerOf(s.claims, g), Claims.ManagerOf(s'.claims, g));
    OwnerKept(s, s', m);
    TicketFacts(s, m, g);
    TicketFacts(s', m, g);
  }

  /** What a manager lists, and what is in its replicas, it keeps, or has newer entries for. */
  lemma ReplicaKept(s: State, s': State, g: ManagerId, m: MachineId, slot: Slot)
    requires Claims.Inv(s.claims) && Claims.Inv(s'.claims) && Grows(s, s') && slot in ReplicaOf(s, g, m)
    ensures slot in ReplicaOf(s', g, m) && ReplicaOf(s, g, m)[slot].ts <= ReplicaOf(s', g, m)[slot].ts
  {
    TicketsKept(s, s', g, m);
    var doc := Tickets(s, g)[m];
    assert SlotGrows(Rep(s, Manager(g), doc), Rep(s', Manager(g), doc), slot);
  }

  lemma CoversKept(s: State, s': State, g: ManagerId, m: MachineId, pay: PayId, ts: nat)
    requires Claims.Inv(s.claims) && Claims.Inv(s'.claims) && Grows(s, s') && Covers(s, g, m, pay, ts)
    ensures Covers(s', g, m, pay, ts)
  {
    hide Claims.Inv, Grows;
    ReplicaKept(s, s', g, m, Slot(Manager(g), ContractKey(pay)));
  }

  lemma ArrivedFacts(s: State, g: ManagerId, m: MachineId, pay: PayId)
    requires Claims.Inv(s.claims) && EntriesOk(s) && LedgerOk(s) && Arrived(s, g, m, pay)
    ensures pay in s.ledger && Issuer(s, pay) == m && Payee(s, pay) == g && pay in s.funded
    ensures TermsOk(s, pay, s.ledger[pay])
    ensures Tickets(s, g)[m] in s.claims.makers && s.claims.makers[Tickets(s, g)[m]] == m
  {
    TicketFacts(s, m, g);
    var doc := Tickets(s, g)[m];
    var p := Slot(Machine(m), ContractKey(pay));
    assert p in Rep(s, Manager(g), doc) && EntryOk(s, doc, p, Rep(s, Manager(g), doc)[p]);
  }

  /** A payment that has arrived is listed, unless a tombstone covers it. */
  lemma ArrivedIsListed(s: State, g: ManagerId, m: MachineId, pay: PayId)
    requires Claims.Inv(s.claims) && EntriesOk(s) && LedgerOk(s) && Arrived(s, g, m, pay)
    ensures Covers(s, g, m, pay, ArrivedTs(s, g, m, pay)) || Enabled(s, ListContract(g, m, pay))
  {
    ArrivedFacts(s, g, m, pay);
    LatestSettles(s, g, m, pay);
  }

  lemma LatestSettles(s: State, g: ManagerId, m: MachineId, pay: PayId)
    requires EntriesOk(s) && pay in s.ledger && TermsOk(s, pay, s.ledger[pay])
    requires Issuer(s, pay) == m && Payee(s, pay) == g && Arrived(s, g, m, pay)
    requires Tickets(s, g)[m] in s.claims.makers && s.claims.makers[Tickets(s, g)[m]] == m
    ensures Covers(s, g, m, pay, ArrivedTs(s, g, m, pay)) || Enabled(s, ListContract(g, m, pay))
  {
    var doc := Tickets(s, g)[m];
    var r := Rep(s, Manager(g), doc);
    var latest := LatestSlot(r, ContractKey(pay)).value;
    PaymentEntry(s, Manager(g), doc, latest, pay);
    assert Behind(r, Slot(Machine(m), ContractKey(pay)), latest);
  }

  // ---------------------------------------------------------------------------------------------
  // Listing
  // ---------------------------------------------------------------------------------------------

  function Pays(items: seq<Item>): set<PayId> {
    set item | item in items :: item.Pay()
  }

  /** Items read from the docs of machines that the manager lists. */
  ghost predicate AllListed(s: State, g: ManagerId, items: seq<Item>) {
    forall item :: item in items ==> item in ManagerOf(s, g).listed && item.machine in Tickets(s, g)
  }

  /** What the code has done itself from one point on: only list. */
  ghost predicate OnlyLists(before: seq<Step>, after: seq<Step>, g: ManagerId) {
    before <= after && forall i :: |before| <= i < |after| ==> after[i].ListContract? && after[i].g == g
  }

  /** Claim these items, once each and in their order. */
  function ClaimSteps(g: ManagerId, items: seq<Item>): seq<Step> {
    seq(|items|, i requires 0 <= i < |items| => ClaimContract(g, items[i]))
  }

  /** Delete some of these items. */
  ghost predicate OnlyDeletes(before: seq<Step>, after: seq<Step>, g: ManagerId, items: seq<Item>) {
    before <= after &&
    forall i :: |before| <= i < |after| ==> after[i].DeleteContract? && after[i].g == g && after[i].item in items
  }

  /** List, claim exactly these items, and then delete some of them. */
  ghost predicate OnlySweeps(before: seq<Step>, after: seq<Step>, g: ManagerId, claimed: seq<Item>) {
    exists listed :: OnlyLists(before, listed, g) && OnlyDeletes(listed + ClaimSteps(g, claimed), after, g, claimed)
  }

  /** A query of the doc of the item's machine, in the manager's replica, answers with the item's contract. */
  predicate Shows(s: State, g: ManagerId, item: Item) {
    && item.machine in Tickets(s, g)
    && Visible(ReplicaOf(s, g, item.machine), ContractKey(item.Pay())) == Some(ContractValue(item.contract))
  }

  /** It did so in some state of the run from the n-th on. */
  ghost predicate ShownSince(trace: seq<State>, n: nat, g: ManagerId, item: Item) {
    exists i: nat :: n <= i + 1 && i < |trace| && Shows(trace[i], g, item)
  }

  ghost predicate AllShownSince(trace: seq<State>, n: nat, g: ManagerId, items: seq<Item>) {
    forall item :: item in items ==> ShownSince(trace, n, g, item)
  }

  lemma ListsInTurn(a: seq<Step>, b: seq<Step>, c: seq<Step>, g: ManagerId)
    requires OnlyLists(a, b, g) && OnlyLists(b, c, g)
    ensures OnlyLists(a, c, g)
  {
  }

  lemma ListsNothingYet(mine: seq<Step>, g: ManagerId)
    ensures OnlyLists(mine, mine, g)
  {
  }

  lemma NothingShown(trace: seq<State>, n: nat, g: ManagerId)
    ensures AllShownSince(trace, n, g, []) && OnePerKey([])
  {
  }

  lemma ShownInBoth(
    trace: seq<State>, trace': seq<State>, n: nat, n': nat, g: ManagerId, found: seq<Item>, more: seq<Item>)
    requires trace <= trace' && n <= n' && AllShownSince(trace, n, g, found) && AllShownSince(trace', n', g, more)
    ensures AllShownSince(trace', n, g, found + more)
  {
    hide Shows;
    forall item | item in found + more ensures ShownSince(trace', n, g, item) {
      if item in found {
        var i: nat :| n <= i + 1 && i < |trace| && Shows(trace[i], g, item);
        assert Shows(trace'[i], g, item);
      } else {
        assert item in more && ShownSince(trace', n', g, item);
      }
    }
  }

  /** No two of them stand at the same key of the same doc. */
  predicate OnePerKey(items: seq<Item>) {
    forall i, j :: 0 <= i < j < |items| ==>
      items[i].machine != items[j].machine || items[i].Pay() != items[j].Pay()
  }

  /** What a listing that began at s0 owes to a payment: if it had arrived by then, either the payment is
      found or a tombstone covers it. */
  predicate Accounted(s0: State, s: State, g: ManagerId, m: MachineId, pay: PayId, found: seq<Item>) {
    Arrived(s0, g, m, pay) ==> Covers(s, g, m, pay, ArrivedTs(s0, g, m, pay)) || pay in Pays(found)
  }

  /** Nothing has been deleted, no client and no listed item is lost. */
  ghost predicate OnlyListed(g: ManagerId, s: State, s': State) {
    && ManagerClients(s, g) <= ManagerClients(s', g) && OwnEntriesKept(Manager(g), s, s')
    && ManagerOf(s, g).listed <= ManagerOf(s', g).listed
  }

  lemma OnlyListedInTurn(g: ManagerId, a: State, b: State, c: State)
    requires OnlyListed(g, a, b) && OnlyListed(g, b, c)
    ensures OnlyListed(g, a, c)
  {
  }

  lemma ListingDeletesNothing(s: State, g: ManagerId, m: MachineId, pay: PayId)
    requires Enabled(s, ListContract(g, m, pay))
    ensures
      var s' := Apply(s, ListContract(g, m, pay));
      && OnlyListed(g, s, s') && s'.claims == s.claims
      && ListedItem(s, ListContract(g, m, pay)) in ManagerOf(s', g).listed
  {
    hide Visible;
  }

  lemma AwaitingDeletesNothing(s: State, s': State, g: ManagerId)
    requires PassKept(Sweeping(g), s, s')
    ensures OnlyListed(g, s, s')
  {
  }

  /** Read one entry of the query's stream; an entry that cannot be read is skipped or ends it all. */
  method ReadEntry(rt: Runtime, g: ManagerId, m: MachineId, pay: PayId, w: World) returns (ok: bool, found: seq<Item>)
    requires rt.Valid() && m in Tickets(rt.st, g)
    modifies rt
    ensures rt.Valid() && old(rt.trace) <= rt.trace
    ensures OnlyListed(g, old(rt.st), rt.st) && AllListed(rt.st, g, found)
    ensures AllShownSince(rt.trace, |old(rt.trace)|, g, found) && IsFrom(found, m, pay)
    ensures OnlyLists(old(rt.mine), rt.mine, g)
    ensures Clean(w) ==> ok && Accounted(old(rt.st), rt.st, g, m, pay, found)
  {
    hide Inv, Grows, Claims.Inv, EntriesOk, LedgerOk, Enabled, Apply, OnlyListed, PassKept, Covers, Shows, IsRun;
    rt.Await(Sweeping(g), w);
    AwaitingDeletesNothing(old(rt.st), rt.st, g);
    ghost var waited := rt.st;
    rt.HasGrown();
    InvParts(old(rt.st));
    InvParts(rt.st);
    ok, found := w.outcome(rt.tick - 1) != Fail, [];
    TicketsKept(old(rt.st), rt.st, g, m);
    AccountedOrListed(old(rt.st), rt.st, g, m, pay);
    var step := ListContract(g, m, pay);
    if w.outcome(rt.tick - 1) == Fine && Enabled(rt.st, step) {
      ghost var n := |rt.trace|;
      found := FoundItem(rt, g, m, pay);
      OnlyListedInTurn(g, old(rt.st), waited, rt.st);
      ShownInBoth(old(rt.trace), rt.trace, |old(rt.trace)|, n, g, [], found);
      assert [] + found == found;
    }
  }

  method FoundItem(rt: Runtime, g: ManagerId, m: MachineId, pay: PayId) returns (found: seq<Item>)
    requires rt.Valid() && m in Tickets(rt.st, g) && Enabled(rt.st, ListContract(g, m, pay))
    modifies rt
    ensures rt.Valid() && old(rt.trace) <= rt.trace
    ensures OnlyListed(g, old(rt.st), rt.st) && AllListed(rt.st, g, found) && pay in Pays(found)
    ensures AllShownSince(rt.trace, |old(rt.trace)|, g, found) && IsFrom(found, m, pay)
    ensures OnlyLists(old(rt.mine), rt.mine, g)
  {
    hide Inv, Claims.Inv, EntriesOk, OnlyListed, Apply, Enabled, LedgerOk, ClocksOk, MachinesOk, ManagersOk, Visible;
    var step := ListContract(g, m, pay);
    var item := ListedItem(rt.st, step);
    rt.IsOk();
    InvParts(rt.st);
    ListedItemIsOk(rt.st, step);
    ListedItemShows(rt.st, g, m, pay);
    ListingDeletesNothing(rt.st, g, m, pay);
    ghost var before, n := rt.st, |rt.trace|;
    rt.Perform(step);
    found := [item];
    assert item in found;
    assert rt.trace[n - 1] == before;
  }

  /** At most one item, from this key of this machine's doc. */
  predicate IsFrom(found: seq<Item>, m: MachineId, pay: PayId) {
    |found| <= 1 && forall item :: item in found ==> item.machine == m && item.Pay() == pay
  }

  lemma ListedItemShows(s: State, g: ManagerId, m: MachineId, pay: PayId)
    requires Claims.Inv(s.claims) && EntriesOk(s) && Enabled(s, ListContract(g, m, pay))
    ensures Shows(s, g, ListedItem(s, ListContract(g, m, pay)))
  {
    hide Claims.Inv, EntriesOk, Visible;
    ListedItemIsOk(s, ListContract(g, m, pay));
  }

  /** A payment that had arrived at s is covered at s', or can be listed there. */
  lemma AccountedOrListed(s: State, s': State, g: ManagerId, m: MachineId, pay: PayId)
    requires Claims.Inv(s.claims) && Claims.Inv(s'.claims) && EntriesOk(s') && LedgerOk(s') && Grows(s, s')
    ensures Accounted(s, s', g, m, pay, []) || Enabled(s', ListContract(g, m, pay))
  {
    hide Claims.Inv, EntriesOk, LedgerOk, Grows, Enabled;
    if Arrived(s, g, m, pay) {
      ReplicaKept(s, s', g, m, Slot(Machine(m), ContractKey(pay)));
      ArrivedIsListed(s', g, m, pay);
    }
  }

  /** What was accounted for stays so, with more found. */
  lemma AccountedLater(
    s0: State, s: State, s': State, g: ManagerId, m: MachineId, pay: PayId, found: seq<Item>, more: seq<Item>)
    requires Claims.Inv(s.claims) && Claims.Inv(s'.claims) && Grows(s, s') && Accounted(s0, s, g, m, pay, found)
    ensures Accounted(s0, s', g, m, pay, found + more)
  {
    hide Claims.Inv, Grows, Covers;
    assert Pays(found) <= Pays(found + more);
    if Arrived(s0, g, m, pay) && Covers(s, g, m, pay, ArrivedTs(s0, g, m, pay)) {
      CoversKept(s, s', g, m, pay, ArrivedTs(s0, g, m, pay));
    }
  }

  /** A listing that began later owes at least as much. */
  lemma AccountedFromEarlier(
    s0: State, s1: State, s: State, g: ManagerId, m: MachineId, pay: PayId, more: seq<Item>, found: seq<Item>)
    requires Claims.Inv(s0.claims) && Claims.Inv(s1.claims) && Grows(s0, s1) && Accounted(s1, s, g, m, pay, found)
    ensures Accounted(s0, s, g, m, pay, more + found)
  {
    hide Claims.Inv, Grows;
    assert Pays(found) <= Pays(more + found);
    if Arrived(s0, g, m, pay) {
      ReplicaKept(s0, s1, g, m, Slot(Machine(m), ContractKey(pay)));
    }
  }

  lemma AllListedLater(s: State, s': State, g: ManagerId, found: seq<Item>, more: seq<Item>)
    requires Claims.Inv(s.claims) && Claims.Inv(s'.claims) && Grows(s, s') && OnlyListed(g, s, s')
    requires AllListed(s, g, found) && AllListed(s', g, more)
    ensures AllListed(s', g, found + more)
  {
    hide Claims.Inv, Grows, OwnEntriesKept;
    forall item | item in found ensures item.machine in Tickets(s', g) {
      TicketsKept(s, s', g, item.machine);
    }
  }

  /** One turn of a listing loop, from `before` to now, in a listing that began at `start`. */
  lemma ListingGoesOn(start: State, before: State, now: State, g: ManagerId, found: seq<Item>, more: seq<Item>)
    requires Inv(start) && Inv(before) && Inv(now) && Grows(start, before) && Grows(before, now)
    requires AllListed(before, g, found) && AllListed(now, g, more)
    requires OnlyListed(g, start, before) && OnlyListed(g, before, now)
    ensures OnlyListed(g, start, now) && AllListed(now, g, found + more)
    ensures forall m, pay :: Accounted(start, before, g, m, pay, found) ==>
      Accounted(start, now, g, m, pay, found + more)
    ensures forall m, pay :: Accounted(before, now, g, m, pay, more) ==> Accounted(start, now, g, m, pay, found + more)
  {
    hide Inv, Grows, Claims.Inv, EntriesOk, ClocksOk, MachinesOk, ManagersOk, LedgerOk, Accounted, OnlyListed;
    InvHasClaims(start);
    InvHasClaims(before);
    InvHasClaims(now);
    OnlyListedInTurn(g, start, before, now);
    AllListedLater(before, now, g, found, more);
    forall m, pay | Accounted(start, before, g, m, pay, found) ensures Accounted(start, now, g, m, pay, found + more) {
      AccountedLater(start, before, now, g, m, pay, found, more);
    }
    forall m, pay | Accounted(before, now, g, m, pay, more) ensures Accounted(start, now, g, m, pay, found + more) {
      AccountedFromEarlier(start, before, now, g, m, pay, found, more);
    }
  }

  lemma NothingListedYet(s: State, g: ManagerId)
    ensures OnlyListed(g, s, s) && AllListed(s, g, [])
  {
  }

  function ContractKeys(r: Replica): set<PayId> {
    set slot | slot in r && slot.key.ContractKey? :: slot.key.pay
  }

  /** List one machine's doc, entry by entry in any order. */
  method ListDoc(rt: Runtime, g: ManagerId, m: MachineId, w: World) returns (ok: bool, found: seq<Item>)
    requires rt.Valid() && m in Tickets(rt.st, g)
    modifies rt
    ensures rt.Valid() && old(rt.trace) <= rt.trace
    ensures OnlyListed(g, old(rt.st), rt.st) && AllListed(rt.st, g, found)
    ensures AllShownSince(rt.trace, |old(rt.trace)|, g, found)
    ensures OnePerKey(found) && forall item :: item in found ==> item.machine == m
    ensures OnlyLists(old(rt.mine), rt.mine, g)
    ensures Clean(w) ==> ok && forall pay :: Accounted(old(rt.st), rt.st, g, m, pay, found)
  {
    hide Inv, Grows, OnlyListed, AllListed, Covers, AllShownSince, LinkedAt, OnlyLists;
    ok, found := true, [];
    NothingShown(rt.trace, |rt.trace|, g);
    ListsNothingYet(rt.mine, g);
    var keys := ContractKeys(ReplicaOf(rt.st, g, m));
    var todo := keys;
    NothingListedYet(rt.st, g);
    rt.HasGrown();
    assert forall pay :: Arrived(rt.st, g, m, pay) ==> pay in keys;
    while todo != {}
      invariant rt.Valid() && old(rt.trace) <= rt.trace && m in Tickets(rt.st, g) && todo <= keys
      invariant Inv(old(rt.st)) && Inv(rt.st) && Grows(old(rt.st), rt.st)
      invariant OnlyListed(g, old(rt.st), rt.st) && AllListed(rt.st, g, found)
      invariant AllShownSince(rt.trace, |old(rt.trace)|, g, found)
      invariant OnePerKey(found) && forall item :: item in found ==> item.machine == m && item.Pay() !in todo
      invariant OnlyLists(old(rt.mine), rt.mine, g)
      invariant Clean(w) ==> ok && forall pay :: pay !in todo ==> Accounted(old(rt.st), rt.st, g, m, pay, found)
      decreases |todo|
    {
      var pay :| pay in todo;
      ghost var before, trace, mine := rt.st, rt.trace, rt.mine;
      var fine, entry := ReadNext(rt, g, m, pay, w, old(rt.st));
      ListingGoesOn(old(rt.st), before, rt.st, g, found, entry);
      ShownInBoth(trace, rt.trace, |old(rt.trace)|, |trace|, g, found, entry);
      ListsInTurn(old(rt.mine), mine, rt.mine, g);
      found := found + entry;
      todo := todo - {pay};
      if !fine {
        return false, found;
      }
    }
  }

  /** A call within a longer call that began at `start`. */
  method ReadNext(rt: Runtime, g: ManagerId, m: MachineId, pay: PayId, w: World, ghost start: State)
    returns (ok: bool, found: seq<Item>)
    requires rt.Valid() && m in Tickets(rt.st, g) && Inv(start) && Grows(start, rt.st)
    modifies rt
    ensures rt.Valid() && old(rt.trace) <= rt.trace && m in Tickets(rt.st, g)
    ensures Inv(rt.st) && Grows(old(rt.st), rt.st) && Grows(start, rt.st)
    ensures OnlyListed(g, old(rt.st), rt.st) && AllListed(rt.st, g, found)
    ensures AllShownSince(rt.trace, |old(rt.trace)|, g, found) && IsFrom(found, m, pay)
    ensures OnlyLists(old(rt.mine), rt.mine, g)
    ensures Clean(w) ==> ok && Accounted(old(rt.st), rt.st, g, m, pay, found)
  {
    hide OnlyLists;
    hide Inv, Grows, OnlyListed, AllListed, Accounted, AllShownSince, Claims.Inv, EntriesOk, ClocksOk, LedgerOk;
    ok, found := ReadEntry(rt, g, m, pay, w);
    rt.HasGrown();
    GrowsIsTransitive(start, old(rt.st), rt.st);
    InvHasClaims(old(rt.st));
    InvHasClaims(rt.st);
    TicketsKept(old(rt.st), rt.st, g, m);
  }

  method ListNext(rt: Runtime, g: ManagerId, m: MachineId, w: World, ghost start: State, ghost todo: set<MachineId>)
    returns (ok: bool, found: seq<Item>)
    requires rt.Valid() && m in Tickets(rt.st, g) && Inv(start) && Grows(start, rt.st) && todo <= Tickets(rt.st, g).Keys
    modifies rt
    ensures rt.Valid() && old(rt.trace) <= rt.trace && todo <= Tickets(rt.st, g).Keys
    ensures Inv(rt.st) && Grows(old(rt.st), rt.st) && Grows(start, rt.st)
    ensures OnlyListed(g, old(rt.st), rt.st) && AllListed(rt.st, g, found)
    ensures AllShownSince(rt.trace, |old(rt.trace)|, g, found)
    ensures OnePerKey(found) && forall item :: item in found ==> item.machine == m
    ensures OnlyLists(old(rt.mine), rt.mine, g)
    ensures Clean(w) ==> ok && forall pay :: Accounted(old(rt.st), rt.st, g, m, pay, found)
  {
    hide Inv, Grows, OnlyListed, AllListed, Accounted, AllShownSince, OnePerKey, OnlyLists;
    hide Claims.Inv, EntriesOk, ClocksOk, LedgerOk;
    ok, found := ListDoc(rt, g, m, w);
    rt.HasGrown();
    GrowsIsTransitive(start, old(rt.st), rt.st);
    InvHasClaims(old(rt.st));
    InvHasClaims(rt.st);
    forall n | n in todo ensures n in Tickets(rt.st, g) {
      TicketsKept(old(rt.st), rt.st, g, n);
    }
  }

  /** Each payment that had arrived at a listed machine's doc is accounted for. */
  ghost predicate AllAccounted(s: State, s': State, g: ManagerId, payments: seq<Item>) {
    forall m, pay :: Accounted(s, s', g, m, pay, payments)
  }

  lemma NothingArrivedUnlisted(s: State, s': State, g: ManagerId, m: MachineId, pay: PayId, found: seq<Item>)
    requires m !in Tickets(s, g)
    ensures Accounted(s, s', g, m, pay, found)
  {
  }

  /** `get_claimable_contracts`: list the docs of all listed machines, in any order. */
  method GetClaimableContracts(rt: Runtime, g: ManagerId, w: World) returns (ok: bool, payments: seq<Item>)
    requires rt.Valid()
    modifies rt
    ensures rt.Valid() && old(rt.trace) <= rt.trace
    ensures AllListed(rt.st, g, payments) && OnlyListed(g, old(rt.st), rt.st)
    ensures AllShownSince(rt.trace, |old(rt.trace)|, g, payments) && OnePerKey(payments)
    ensures OnlyLists(old(rt.mine), rt.mine, g)
    ensures Clean(w) ==> ok && AllAccounted(old(rt.st), rt.st, g, payments)
  {
    hide Inv, Grows, OnlyListed, AllListed, Accounted, AllShownSince, LinkedAt, OnlyLists;
    ok, payments := true, [];
    NothingShown(rt.trace, |rt.trace|, g);
    ListsNothingYet(rt.mine, g);
    var machines := Tickets(rt.st, g).Keys;
    var todo := machines;
    NothingListedYet(rt.st, g);
    rt.HasGrown();
    while todo != {}
      invariant rt.Valid() && old(rt.trace) <= rt.trace && todo <= machines && todo <= Tickets(rt.st, g).Keys
      invariant Inv(old(rt.st)) && Inv(rt.st) && Grows(old(rt.st), rt.st)
      invariant OnlyListed(g, old(rt.st), rt.st) && AllListed(rt.st, g, payments)
      invariant AllShownSince(rt.trace, |old(rt.trace)|, g, payments)
      invariant OnePerKey(payments) && forall item :: item in payments ==> item.machine !in todo
      invariant OnlyLists(old(rt.mine), rt.mine, g)
      invariant
        Clean(w) ==> ok && forall m, pay :: m in machines - todo ==> Accounted(old(rt.st), rt.st, g, m, pay, payments)
      decreases |todo|
    {
      var m :| m in todo;
      ghost var before, trace, mine := rt.st, rt.trace, rt.mine;
      var fine, found := ListNext(rt, g, m, w, old(rt.st), todo);
      ListingGoesOn(old(rt.st), before, rt.st, g, payments, found);
      ShownInBoth(trace, rt.trace, |old(rt.trace)|, |trace|, g, payments, found);
      ListsInTurn(old(rt.mine), mine, rt.mine, g);
      payments := payments + found;
      todo := todo - {m};
      if !fine {
        NothingListedYet(rt.st, g);
        NothingShown(rt.trace, |old(rt.trace)|, g);
        return false, [];
      }
    }
    forall m, pay | m !in machines ensures Accounted(old(rt.st), rt.st, g, m, pay, payments) {
      NothingArrivedUnlisted(old(rt.st), rt.st, g, m, pay, payments);
    }
  }

  // ---------------------------------------------------------------------------------------------
  // Claiming
  // ---------------------------------------------------------------------------------------------

  /** The wallet's `claim_contracts` for one contract. */
  method TryClaim(rt: Runtime, g: ManagerId, item: Item, w: World) returns (ok: bool)
    requires rt.Valid() && item in ManagerOf(rt.st, g).listed
    modifies rt
    ensures rt.Valid() && old(rt.trace) <= rt.trace && OnlyListed(g, old(rt.st), rt.st)
    ensures old(ManagerOf(rt.st, g).swept) <= ManagerOf(rt.st, g).swept
    ensures ok ==> item in ManagerOf(rt.st, g).swept
    ensures rt.mine == old(rt.mine) + if ok then [ClaimContract(g, item)] else []
    ensures
      Clean(w) && item.machine in Tickets(old(rt.st), g) && item.federation in ManagerClients(old(rt.st), g) ==> ok
  {
    hide Inv, Grows, Claims.Inv, ManagersOk, LedgerOk, OwnEntriesKept, Enabled;
    rt.Await(Sweeping(g), w);
    AwaitingDeletesNothing(old(rt.st), rt.st, g);
    var step := ClaimContract(g, item);
    ok := w.outcome(rt.tick - 1) == Fine && Enabled(rt.st, step);
    rt.HasGrown();
    InvParts(old(rt.st));
    InvParts(rt.st);
    ClaimIsEnabled(old(rt.st), rt.st, g, item);
    if ok {
      ghost var called := rt.st;
      ClaimingDeletesNothing(called, g, item);
      rt.Perform(step);
      OnlyListedInTurn(g, old(rt.st), called, rt.st);
    }
  }

  lemma ClaimingDeletesNothing(s: State, g: ManagerId, item: Item)
    requires Enabled(s, ClaimContract(g, item))
    ensures
      var s' := Apply(s, ClaimContract(g, item));
      OnlyListed(g, s, s') && ManagerOf(s', g).swept == ManagerOf(s, g).swept + {item}
  {
  }

  /** A listed contract of a listed machine pays this manager, so its claim can only fail for lack of
      a client of the federation. */
  lemma ClaimIsEnabled(s: State, s': State, g: ManagerId, item: Item)
    requires Claims.Inv(s'.claims) && ManagersOk(s') && LedgerOk(s') && Claims.Inv(s.claims) && Grows(s, s')
    requires item in ManagerOf(s', g).listed
    ensures
      item.machine in Tickets(s, g) && item.federation in ManagerClients(s', g) ==> Enabled(s', ClaimContract(g, item))
  {
    assert ManagerOk(s', g, ManagerOf(s', g)) && ItemOk(s', item);
    if item.machine in Tickets(s, g) {
      TicketsKept(s, s', g, item.machine);
      TicketFacts(s', item.machine, g);
      assert TermsOk(s', item.Pay(), s'.ledger[item.Pay()]);
    }
  }

  /** The first sequence is the second one with some items left out. */
  predicate IsSubsequence(a: seq<Item>, b: seq<Item>)
    decreases |b|
  {
    if b == [] then a == []
    else
      var n := |b| - 1;
      || IsSubsequence(a, b[..n])
      || (a != [] && a[|a| - 1] == b[n] && IsSubsequence(a[..|a| - 1], b[..n]))
  }

  lemma SubsequenceGrows(a: seq<Item>, b: seq<Item>, i: nat)
    requires i < |b| && IsSubsequence(a, b[..i])
    ensures IsSubsequence(a, b[..i + 1]) && IsSubsequence(a + [b[i]], b[..i + 1])
  {
    assert b[..i + 1][..i] == b[..i];
    assert (a + [b[i]])[..|a|] == a;
  }

  lemma {:induction false} SubsequenceFacts(a: seq<Item>, b: seq<Item>)
    requires IsSubsequence(a, b)
    ensures forall item :: item in a ==> item in b
    ensures OnePerKey(b) ==> OnePerKey(a)
    decreases |b|
  {
    if b != [] {
      var n := |b| - 1;
      if IsSubsequence(a, b[..n]) {
        SubsequenceFacts(a, b[..n]);
      } else {
        SubsequenceFacts(a[..|a| - 1], b[..n]);
        forall i | OnePerKey(b) && 0 <= i < |a| - 1
          ensures a[i].machine != b[n].machine || a[i].Pay() != b[n].Pay()
        {
          assert a[i] in a[..|a| - 1] && a[i] in b[..n];
        }
        assert a == a[..|a| - 1] + [b[n]];
      }
    }
  }

  /** The loop that claims the listed contracts and collects those that went through. */
  method ClaimListed(rt: Runtime, g: ManagerId, payments: seq<Item>, w: World) returns (claimed: seq<Item>)
    requires rt.Valid() && AllListed(rt.st, g, payments)
    modifies rt
    ensures rt.Valid() && old(rt.trace) <= rt.trace && OnlyListed(g, old(rt.st), rt.st)
    ensures IsSubsequence(claimed, payments) && AllSwept(rt.st, g, claimed)
    ensures rt.mine == old(rt.mine) + ClaimSteps(g, claimed)
    ensures
      Clean(w) ==>
        forall item :: item in payments && item.federation in ManagerClients(old(rt.st), g) ==> item in claimed
  {
    hide Inv, Grows, OnlyListed, AllListed, AllSwept, IsSubsequence;
    claimed := [];
    NothingListedYet(rt.st, g);
    NothingSwept(rt.st, g);
    rt.HasGrown();
    for i := 0 to |payments|
      invariant rt.Valid() && old(rt.trace) <= rt.trace && OnlyListed(g, old(rt.st), rt.st)
      invariant Inv(rt.st) && AllListed(rt.st, g, payments)
      invariant ManagerClients(old(rt.st), g) <= ManagerClients(rt.st, g)
      invariant IsSubsequence(claimed, payments[..i]) && AllSwept(rt.st, g, claimed)
      invariant rt.mine == old(rt.mine) + ClaimSteps(g, claimed)
      invariant
        Clean(w) ==>
          forall item :: item in payments[..i] && item.federation in ManagerClients(old(rt.st), g) ==> item in claimed
    {
      ghost var before := rt.st;
      var ok := ClaimNext(rt, g, payments, i, claimed, w);
      OnlyListedInTurn(g, old(rt.st), before, rt.st);
      SubsequenceGrows(claimed, payments, i);
      if ok {
        assert ClaimSteps(g, claimed + [payments[i]]) == ClaimSteps(g, claimed) + [ClaimContract(g, payments[i])];
        claimed := claimed + [payments[i]];
      }
    }
    assert payments[..|payments|] == payments;
  }

  lemma NothingSwept(s: State, g: ManagerId)
    ensures AllSwept(s, g, []) && IsSubsequence([], [])
  {
  }

  method ClaimNext(rt: Runtime, g: ManagerId, payments: seq<Item>, i: nat, ghost claimed: seq<Item>, w: World)
    returns (ok: bool)
    requires rt.Valid() && AllListed(rt.st, g, payments) && i < |payments| && AllSwept(rt.st, g, claimed)
    modifies rt
    ensures rt.Valid() && old(rt.trace) <= rt.trace && OnlyListed(g, old(rt.st), rt.st)
    ensures Inv(rt.st) && AllListed(rt.st, g, payments) && ManagerClients(old(rt.st), g) <= ManagerClients(rt.st, g)
    ensures AllSwept(rt.st, g, if ok then claimed + [payments[i]] else claimed)
    ensures rt.mine == old(rt.mine) + if ok then [ClaimContract(g, payments[i])] else []
    ensures Clean(w) && payments[i].federation in ManagerClients(old(rt.st), g) ==> ok
  {
    hide Inv, Grows, Claims.Inv, OwnEntriesKept;
    ok := TryClaim(rt, g, payments[i], w);
    rt.HasGrown();
    InvHasClaims(old(rt.st));
    InvHasClaims(rt.st);
    NothingListedYet(rt.st, g);
    AllListedLater(old(rt.st), rt.st, g, payments, []);
    assert payments + [] == payments;
    assert forall item :: item in claimed ==> item.machine in Tickets(old(rt.st), g);
    StillTicketed(old(rt.st), rt.st, g);
  }

  lemma StillTicketed(s: State, s': State, g: ManagerId)
    requires Claims.Inv(s.claims) && Claims.Inv(s'.claims) && Grows(s, s')
    ensures forall m :: m in Tickets(s, g) ==> m in Tickets(s', g)
  {
    hide Claims.Inv, Grows;
    forall m | m in Tickets(s, g) ensures m in Tickets(s', g) {
      TicketsKept(s, s', g, m);
    }
  }

  // ---------------------------------------------------------------------------------------------
  // Deleting
  // ---------------------------------------------------------------------------------------------

  ghost predicate AllSwept(s: State, g: ManagerId, items: seq<Item>) {
    forall item :: item in items ==> item in ManagerOf(s, g).swept && item.machine in Tickets(s, g)
  }

  /** The manager's tombstones are those it had at s0, changed by exactly these deletions, each in the doc
      of its own machine. */
  ghost predicate TombsAre(s0: State, s: State, g: ManagerId, done: seq<Deletion>) {
    && (forall m: MachineId, pay: PayId {:trigger Tomb(s, g, m, pay)} ::
          m in Tickets(s0, g) ==>
            Tomb(s, g, m, pay) == TombIn(DeleteDoc(ReplicaOf(s0, g, m), g, DeletionsOf(done, m)), g, pay))
    && (forall doc: DocId, pay: PayId {:trigger TombIn(Rep(s, Manager(g), doc), g, pay)} ::
          doc !in Tickets(s0, g).Values ==>
            TombIn(Rep(s, Manager(g), doc), g, pay) == TombIn(Rep(s0, Manager(g), doc), g, pay))
  }

  lemma NothingDeletedYet(s: State, g: ManagerId)
    ensures TombsAre(s, s, g, [])
  {
  }

  /** Waiting changes no tombstone of this manager. */
  lemma TombsStay(s0: State, s: State, s': State, g: ManagerId, done: seq<Deletion>)
    requires Inv(s0) && Inv(s) && Inv(s') && Grows(s0, s) && Grows(s, s') && TombsAre(s0, s, g, done)
    requires OwnEntriesKept(Manager(g), s, s')
    ensures TombsAre(s0, s', g, done)
  {
    hide Inv, Grows, DeleteDoc, DeletionsOf, OwnEntriesKept, Tickets;
    forall m: MachineId, pay: PayId | m in Tickets(s0, g) ensures Tomb(s', g, m, pay) == Tomb(s, g, m, pay) {
      var doc := TicketDoc(s0, s, s', g, m);
      TombStays(s, s', g, doc, pay);
    }
    forall doc: DocId, pay: PayId
      ensures TombIn(Rep(s', Manager(g), doc), g, pay) == TombIn(Rep(s, Manager(g), doc), g, pay)
    {
      TombStays(s, s', g, doc, pay);
    }
  }

  lemma TicketDoc(s0: State, s: State, s': State, g: ManagerId, m: MachineId) returns (doc: DocId)
    requires Inv(s0) && Inv(s) && Inv(s') && Grows(s0, s) && Grows(s, s') && m in Tickets(s0, g)
    ensures m in Tickets(s, g) && m in Tickets(s', g)
    ensures Tickets(s, g)[m] == Tickets(s', g)[m] == doc == Tickets(s0, g)[m]
  {
    hide Inv, Grows, Claims.Inv;
    InvParts(s0);
    InvParts(s);
    InvParts(s');
    TicketsKept(s0, s, g, m);
    TicketsKept(s, s', g, m);
    doc := Tickets(s0, g)[m];
  }

  lemma TombStays(s: State, s': State, g: ManagerId, doc: DocId, pay: PayId)
    requires Grows(s, s') && OwnEntriesKept(Manager(g), s, s')
    ensures TombIn(Rep(s', Manager(g), doc), g, pay) == TombIn(Rep(s, Manager(g), doc), g, pay)
  {
    var slot := Slot(Manager(g), ContractKey(pay));
    assert SlotGrows(Rep(s, Manager(g), doc), Rep(s', Manager(g), doc), slot);
  }

  ghost predicate OneDocChanges(s: State, s': State, g: ManagerId, d: Deletion)
    requires d.item.machine in Tickets(s, g)
  {
    forall doc {:trigger Rep(s', Manager(g), doc)} ::
      var r := Rep(s, Manager(g), doc);
      Rep(s', Manager(g), doc) == if doc == Tickets(s, g)[d.item.machine] then DeleteOne(r, g, d) else r
  }

  lemma DeleteStepIs(s: State, g: ManagerId, d: Deletion)
    requires Enabled(s, DeleteContract(g, d.item, d.ts))
    ensures
      var s' := Apply(s, DeleteContract(g, d.item, d.ts));
      && s'.claims == s.claims && ManagerOf(s', g) == ManagerOf(s, g) && d.item.machine in Tickets(s, g)
      && OneDocChanges(s, s', g, d)
  {
  }

  /** One more deletion. */
  lemma TombsExtend(s0: State, s: State, s': State, g: ManagerId, done: seq<Deletion>, d: Deletion)
    requires Inv(s0) && Inv(s) && Inv(s') && Grows(s0, s) && Grows(s, s') && TombsAre(s0, s, g, done)
    requires d.item.machine in Tickets(s0, g) && s'.claims == s.claims
    requires d.item.machine in Tickets(s, g) && OneDocChanges(s, s', g, d)
    ensures TombsAre(s0, s', g, done + [d])
  {
    hide Inv, Grows, DeleteDoc, DeletionsOf, DeleteOne;
    var _ := TicketDoc(s0, s, s', g, d.item.machine);
    forall m: MachineId, pay: PayId | m in Tickets(s0, g)
      ensures Tomb(s', g, m, pay) == TombIn(DeleteDoc(ReplicaOf(s0, g, m), g, DeletionsOf(done + [d], m)), g, pay)
    {
      var doc := TicketDoc(s0, s, s', g, m);
      DeletionsOfAppends(done, d, m);
      DeleteDocAppends(ReplicaOf(s0, g, m), g, DeletionsOf(done, m), d);
      assert Tomb(s, g, m, pay) == TombIn(DeleteDoc(ReplicaOf(s0, g, m), g, DeletionsOf(done, m)), g, pay);
      if m == d.item.machine {
        TombAfterOne(Rep(s, Manager(g), doc), DeleteDoc(ReplicaOf(s0, g, m), g, DeletionsOf(done, m)), g, d, pay);
      } else {
        DocsDiffer(s, g, m, d.item.machine);
        assert DeletionsOf(done, m) + [] == DeletionsOf(done, m);
      }
    }
  }

  /** The tombstone after one more deletion depends on the tombstone before. */
  lemma TombAfterOne(a: Replica, b: Replica, g: ManagerId, d: Deletion, pay: PayId)
    requires TombIn(a, g, pay) == TombIn(b, g, pay)
    ensures TombIn(DeleteOne(a, g, d), g, pay) == TombIn(DeleteOne(b, g, d), g, pay)
  {
  }

  lemma DocsDiffer(s: State, g: ManagerId, m: MachineId, n: MachineId)
    requires Inv(s) && m in Tickets(s, g) && n in Tickets(s, g) && m != n
    ensures Tickets(s, g)[m] != Tickets(s, g)[n]
  {
    TicketFacts(s, m, g);
    TicketFacts(s, n, g);
  }

  /** Delete one contract, in a call that began at `start` and has done these deletions. */
  method TryDelete(
    rt: Runtime, g: ManagerId, item: Item, ghost start: State, ghost done: seq<Deletion>, ghost low: nat, w: World)
    returns (ok: bool, ghost done': seq<Deletion>)
    requires rt.Valid() && item in ManagerOf(rt.st, g).swept && item.machine in Tickets(start, g)
    requires Inv(start) && Grows(start, rt.st) && TombsAre(start, rt.st, g, done) && ClockFrom(w, low)
    modifies rt
    ensures rt.Valid() && old(rt.trace) <= rt.trace && ManagerOf(rt.st, g).swept == old(ManagerOf(rt.st, g).swept)
    ensures Grows(start, rt.st) && TombsAre(start, rt.st, g, done')
    ensures if ok then exists ts :: low <= ts && done' == done + [Deletion(item, ts)] else done' == done
    ensures OnlyDeletes(old(rt.mine), rt.mine, g, [item])
    ensures Clean(w) ==> ok
  {
    hide Inv, Grows, OwnEntriesKept, TombsAre, Tickets, Apply, Enabled;
    rt.Await(Sweeping(g), w);
    ghost var waited := rt.st;
    rt.HasGrown();
    GrowsIsTransitive(start, old(rt.st), rt.st);
    TombsStay(start, old(rt.st), rt.st, g, done);
    ok, done' := w.outcome(rt.tick - 1) == Fine, done;
    if ok {
      var slot := Slot(Manager(g), ContractKey(item.Pay()));
      var ts := Stamp(ReplicaOf(rt.st, g, item.machine), slot, w.clock(rt.tick - 1));
      DeleteIsEnabled(start, rt.st, g, item, ts);
      DeleteStepIs(waited, g, Deletion(item, ts));
      rt.Perform(DeleteContract(g, item, ts));
      done' := done + [Deletion(item, ts)];
      rt.HasGrown();
      StepKeepsInv(waited, DeleteContract(g, item, ts));
      TombsExtend(start, waited, rt.st, g, done, Deletion(item, ts));
      GrowsIsTransitive(start, waited, rt.st);
    }
  }

  lemma DeleteIsEnabled(start: State, s: State, g: ManagerId, item: Item, ts: nat)
    requires Inv(start) && Inv(s) && Grows(start, s) && item.machine in Tickets(start, g)
    requires item in ManagerOf(s, g).swept
    requires Acceptable(ReplicaOf(s, g, item.machine), Slot(Manager(g), ContractKey(item.Pay())), ts)
    ensures Enabled(s, DeleteContract(g, item, ts))
  {
    hide Claims.Enabled, Claims.Apply, Visible, Inv, Grows, Claims.Inv;
    InvHasClaims(start);
    InvHasClaims(s);
    TicketsKept(start, s, g, item.machine);
  }

  /** These deletions, no older than this, are of this machine's items, in order. */
  predicate DoneOf(done: seq<Deletion>, low: nat, m: MachineId, items: seq<Item>) {
    Items(DeletionsOf(done, m)) == items && forall i :: 0 <= i < |done| ==> low <= done[i].ts
  }

  lemma DoneAppends(done: seq<Deletion>, d: Deletion, low: nat)
    requires low <= d.ts
    ensures forall m, items :: DoneOf(done, low, m, items) ==>
      DoneOf(done + [d], low, m, items + if d.item.machine == m then [d.item] else [])
  {
    forall m, items | DoneOf(done, low, m, items)
      ensures DoneOf(done + [d], low, m, items + if d.item.machine == m then [d.item] else [])
    {
      DeletionsOfAppends(done, d, m);
      if d.item.machine == m {
        DeletionsOfAppends(DeletionsOf(done, m), d, m);
      } else {
        assert items + [] == items;
        assert DeletionsOf(done, m) + [] == DeletionsOf(done, m);
      }
    }
  }

  lemma DeletesInTurn(a: seq<Step>, b: seq<Step>, c: seq<Step>, g: ManagerId, some: seq<Item>, items: seq<Item>)
    requires OnlyDeletes(a, b, g, items) && OnlyDeletes(b, c, g, some) && forall item :: item in some ==> item in items
    ensures OnlyDeletes(a, c, g, items)
  {
  }

  lemma DeletesNothingYet(mine: seq<Step>, g: ManagerId, items: seq<Item>)
    ensures OnlyDeletes(mine, mine, g, items)
  {
  }

  /** Delete one machine's contracts in order; the first failure ends it. */
  method DeleteGroup(
    rt: Runtime, g: ManagerId, m: MachineId, group: seq<Item>, ghost start: State, ghost done: seq<Deletion>,
    ghost low: nat, w: World)
    returns (ok: bool, ghost done': seq<Deletion>)
    requires rt.Valid() && m in Tickets(start, g) && DoneOf(done, low, m, [])
    requires forall item :: item in group ==> item in ManagerOf(rt.st, g).swept && item.machine == m
    requires Inv(start) && Grows(start, rt.st) && TombsAre(start, rt.st, g, done) && ClockFrom(w, low)
    modifies rt
    ensures rt.Valid() && old(rt.trace) <= rt.trace && ManagerOf(rt.st, g).swept == old(ManagerOf(rt.st, g).swept)
    ensures Grows(start, rt.st) && TombsAre(start, rt.st, g, done')
    ensures exists k :: 0 <= k <= |group| && DoneOf(done', low, m, group[..k])
    ensures ok ==> DoneOf(done', low, m, group)
    ensures OnlyDeletes(old(rt.mine), rt.mine, g, group)
    ensures forall n, items :: n != m && DoneOf(done, low, n, items) ==> DoneOf(done', low, n, items)
    ensures Clean(w) ==> ok
  {
    hide Inv, Grows, TombsAre, Tickets, DoneOf, OnlyDeletes;
    ok, done' := true, done;
    DeletesNothingYet(rt.mine, g, group);
    for i := 0 to |group|
      invariant rt.Valid() && old(rt.trace) <= rt.trace && ManagerOf(rt.st, g).swept == old(ManagerOf(rt.st, g).swept)
      invariant Grows(start, rt.st) && TombsAre(start, rt.st, g, done') && DoneOf(done', low, m, group[..i])
      invariant forall n, items :: n != m && DoneOf(done, low, n, items) ==> DoneOf(done', low, n, items)
      invariant ok && OnlyDeletes(old(rt.mine), rt.mine, g, group)
    {
      ghost var before, mine := done', rt.mine;
      ok, done' := TryDelete(rt, g, group[i], start, done', low, w);
      DeletesInTurn(old(rt.mine), mine, rt.mine, g, [group[i]], group);
      if !ok {
        return;
      }
      ghost var ts :| low <= ts && done' == before + [Deletion(group[i], ts)];
      DoneAppends(before, Deletion(group[i], ts), low);
      assert group[..i] + [group[i]] == group[..i + 1];
      forall n, items | n != m && DoneOf(done, low, n, items) ensures DoneOf(done', low, n, items) {
        assert items + [] == items;
      }
    }
    assert group[..|group|] == group;
  }

  lemma GroupReady(s: State, g: ManagerId, items: seq<Item>, m: MachineId, group: seq<Item>)
    requires AllSwept(s, g, items) && m in Machines(items) && group == OfMachine(items, m)
    ensures m in Tickets(s, g)
    ensures forall item :: item in group ==> item in ManagerOf(s, g).swept && item.machine == m
  {
    forall item | item in group ensures item in items && item.machine == m {
      OfMachineHas(items, m, item);
    }
  }

  lemma GroupIsOfInput(items: seq<Item>, m: MachineId)
    ensures forall item :: item in OfMachine(items, m) ==> item in items
  {
    forall item | item in OfMachine(items, m) ensures item in items {
      OfMachineHas(items, m, item);
    }
  }

  /** What the deletions so far say of the input: a machine still to do has none, one that is done has all
      its items in input order. */
  ghost predicate DoneBut(done: seq<Deletion>, low: nat, items: seq<Item>, todo: set<MachineId>) {
    forall m :: DoneOf(done, low, m, if m in todo then [] else OfMachine(items, m))
  }

  lemma NoneDoneYet(low: nat, items: seq<Item>)
    ensures DoneBut([], low, items, Machines(items))
  {
    forall m | m !in Machines(items) ensures OfMachine(items, m) == [] {
      if OfMachine(items, m) != [] {
        OfMachineHas(items, m, OfMachine(items, m)[0]);
      }
    }
  }

  lemma OneGroupDone(
    done: seq<Deletion>, done': seq<Deletion>, low: nat, items: seq<Item>, todo: set<MachineId>, m: MachineId)
    requires DoneBut(done, low, items, todo) && m in todo && DoneOf(done', low, m, OfMachine(items, m))
    requires forall n, some :: n != m && DoneOf(done, low, n, some) ==> DoneOf(done', low, n, some)
    ensures DoneBut(done', low, items, todo - {m})
  {
    hide DoneOf, OfMachine;
  }

  ghost predicate BeginningDone(done: seq<Deletion>, low: nat, items: seq<Item>, m: MachineId) {
    exists k :: 0 <= k <= |OfMachine(items, m)| && DoneOf(done, low, m, OfMachine(items, m)[..k])
  }

  /** Each machine has had a beginning of its items deleted, in input order. */
  ghost predicate DoneInOrder(done: seq<Deletion>, low: nat, items: seq<Item>) {
    forall m :: BeginningDone(done, low, items, m)
  }

  lemma SomeGroupsDone(
    done: seq<Deletion>, done': seq<Deletion>, low: nat, items: seq<Item>, todo: set<MachineId>, m: MachineId, k: nat)
    requires DoneBut(done, low, items, todo) && m in todo && k <= |OfMachine(items, m)|
    requires DoneOf(done', low, m, OfMachine(items, m)[..k])
    requires forall n, some :: n != m && DoneOf(done, low, n, some) ==> DoneOf(done', low, n, some)
    ensures DoneInOrder(done', low, items)
  {
    hide DoneOf, OfMachine;
    forall n ensures BeginningDone(done', low, items, n) {
      var all := OfMachine(items, n);
      assert all[..0] == [] && all[..|all|] == all;
      if n != m {
        assert DoneOf(done, low, n, if n in todo then [] else all);
        assert DoneOf(done', low, n, all[..if n in todo then 0 else |all|]);
      }
    }
  }

  lemma AllGroupsDone(done: seq<Deletion>, low: nat, items: seq<Item>)
    requires DoneBut(done, low, items, {})
    ensures DoneInOrder(done, low, items)
  {
    hide DoneOf, OfMachine;
    forall n ensures BeginningDone(done, low, items, n) {
      var all := OfMachine(items, n);
      assert all[..|all|] == all;
      assert DoneOf(done, low, n, all[..|all|]);
    }
  }

  /** `remove_claimable_contracts`: group by machine, then delete group by group in any order. What changes
      is exactly what deleting in each machine's doc a beginning of that machine's items changes, in
      input order; and on success all of them. */
  method RemoveClaimableContracts(rt: Runtime, g: ManagerId, items: seq<Item>, ghost low: nat, w: World)
    returns (ok: bool, ghost done: seq<Deletion>)
    requires rt.Valid() && AllSwept(rt.st, g, items) && ClockFrom(w, low)
    modifies rt
    ensures rt.Valid() && old(rt.trace) <= rt.trace && TombsAre(old(rt.st), rt.st, g, done)
    ensures DoneInOrder(done, low, items) && OnlyDeletes(old(rt.mine), rt.mine, g, items)
    ensures ok ==> DoneBut(done, low, items, {})
    ensures Clean(w) ==> ok
  {
    hide Inv, Grows, TombsAre, DoneOf, OfMachine, OnlyDeletes;
    DeletesNothingYet(rt.mine, g, items);
    var groups := GroupByMachine(items);
    var todo := groups.Keys;
    ok, done := true, [];
    rt.HasGrown();
    NothingDeletedYet(rt.st, g);
    NoneDoneYet(low, items);
    while todo != {}
      invariant rt.Valid() && old(rt.trace) <= rt.trace && todo <= groups.Keys && ok
      invariant ManagerOf(rt.st, g).swept == old(ManagerOf(rt.st, g).swept)
      invariant Grows(old(rt.st), rt.st) && TombsAre(old(rt.st), rt.st, g, done) && DoneBut(done, low, items, todo)
      invariant OnlyDeletes(old(rt.mine), rt.mine, g, items)
      decreases |todo|
    {
      var m :| m in todo;
      GroupReady(old(rt.st), g, items, m, groups[m]);
      ghost var before, mine := done, rt.mine;
      ok, done := DeleteGroup(rt, g, m, groups[m], old(rt.st), done, low, w);
      GroupIsOfInput(items, m);
      DeletesInTurn(old(rt.mine), mine, rt.mine, g, groups[m], items);
      if !ok {
        ghost var k :| 0 <= k <= |groups[m]| && DoneOf(done, low, m, groups[m][..k]);
        SomeGroupsDone(before, done, low, items, todo, m, k);
        return;
      }
      OneGroupDone(before, done, low, items, todo, m);
      todo := todo - {m};
    }
    AllGroupsDone(done, low, items);
  }

  // ---------------------------------------------------------------------------------------------
  // The whole pass
  // ---------------------------------------------------------------------------------------------

  /** The item listed for an arrived payment names the machine it arrived from. */
  lemma ListedFrom(s: State, s': State, g: ManagerId, m: MachineId, item: Item)
    requires Claims.Inv(s.claims) && EntriesOk(s) && LedgerOk(s) && ManagersOk(s') && LedgerGrows(s, s')
    requires Arrived(s, g, m, item.Pay()) && item in ManagerOf(s', g).listed
    ensures item.machine == m
  {
    ArrivedFacts(s, g, m, item.Pay());
    assert ManagerOk(s', g, ManagerOf(s', g)) && ItemOk(s', item);
  }

  /** There is a tombstone at least this old. */
  predicate TombFrom(s: State, g: ManagerId, m: MachineId, pay: PayId, low: nat) {
    Tomb(s, g, m, pay).Some? && low <= Tomb(s, g, m, pay).value.ts
  }

  /** What deletion leaves of an item: its tombstone, no older than the clock. */
  lemma DeletedHasTomb(s0: State, s: State, g: ManagerId, done: seq<Deletion>, low: nat, items: seq<Item>, item: Item)
    requires TombsAre(s0, s, g, done) && DoneBut(done, low, items, {}) && item in items
    requires item.machine in Tickets(s0, g)
    ensures TombFrom(s, g, item.machine, item.Pay(), low)
  {
    hide DeleteDoc;
    var m := item.machine;
    var ds := DeletionsOf(done, m);
    assert DoneOf(done, low, m, OfMachine(items, m));
    OfMachineHas(items, m, item);
    ItemIsDeleted(ds, item);
    var i :| 0 <= i < |ds| && ds[i].item == item;
    KeepsStamps(done, m, low);
    SlotAfterDeletion(ReplicaOf(s0, g, m), g, ds, Slot(Manager(g), ContractKey(item.Pay())));
    assert Tomb(s, g, m, item.Pay()) == TombIn(DeleteDoc(ReplicaOf(s0, g, m), g, ds), g, item.Pay());
  }

  lemma {:induction false} ItemIsDeleted(ds: seq<Deletion>, item: Item)
    requires item in Items(ds)
    ensures exists i :: 0 <= i < |ds| && ds[i].item == item
    decreases |ds|
  {
    var front := ds[..|ds| - 1];
    if item in Items(front) {
      ItemIsDeleted(front, item);
      var i :| 0 <= i < |front| && front[i].item == item;
      assert ds[i] == front[i];
    } else {
      assert ds[|ds| - 1].item == item;
    }
  }

  lemma {:induction false} KeepsStamps(ds: seq<Deletion>, m: MachineId, low: nat)
    requires forall i :: 0 <= i < |ds| ==> low <= ds[i].ts
    ensures forall i :: 0 <= i < |DeletionsOf(ds, m)| ==> low <= DeletionsOf(ds, m)[i].ts
    decreases |ds|
  {
    if ds != [] {
      KeepsStamps(ds[..|ds| - 1], m, low);
    }
  }

  /** The manager's tombstones changed for no other payment than these, and each in its machine's doc. */
  ghost predicate TombsOnlyOn(s0: State, s: State, g: ManagerId, items: seq<Item>) {
    forall m: MachineId, pay: PayId {:trigger Tomb(s, g, m, pay)} ::
      m in Tickets(s0, g) && Tomb(s, g, m, pay) != Tomb(s0, g, m, pay) ==>
        exists item :: item in items && item.machine == m && item.Pay() == pay
  }

  lemma DeletedOnlyThese(s0: State, s: State, g: ManagerId, done: seq<Deletion>, low: nat, items: seq<Item>)
    requires TombsAre(s0, s, g, done) && DoneInOrder(done, low, items)
    ensures TombsOnlyOn(s0, s, g, items)
  {
    hide DeleteDoc, OfMachine, DeletionsOf;
    forall m: MachineId, pay: PayId | m in Tickets(s0, g) && Tomb(s, g, m, pay) != Tomb(s0, g, m, pay)
      ensures exists item :: item in items && item.machine == m && item.Pay() == pay
    {
      var ds := DeletionsOf(done, m);
      SlotAfterDeletion(ReplicaOf(s0, g, m), g, ds, Slot(Manager(g), ContractKey(pay)));
      var i :| 0 <= i < |ds| && ContractKey(ds[i].item.Pay()) == ContractKey(pay);
      assert BeginningDone(done, low, items, m);
      var k :| 0 <= k <= |OfMachine(items, m)| && DoneOf(done, low, m, OfMachine(items, m)[..k]);
      ItemsAt(ds, i);
      OfMachineHas(items, m, ds[i].item);
      assert Items(ds)[i] in OfMachine(items, m);
    }
  }

  lemma {:induction false} ItemsAt(ds: seq<Deletion>, i: nat)
    requires i < |ds|
    ensures |Items(ds)| == |ds| && Items(ds)[i] == ds[i].item
    decreases |ds|
  {
    if |ds| > 1 {
      ItemsAt(ds[..|ds| - 1], if i < |ds| - 1 then i else 0);
    }
  }

  /** From a complete listing to tombstones: what was listed for the payment was claimed and deleted, or
      it was covered already. */
  predicate SweptAway(s0: State, s: State, g: ManagerId, m: MachineId, pay: PayId, low: nat)
    requires Arrived(s0, g, m, pay)
  {
    Covers(s, g, m, pay, ArrivedTs(s0, g, m, pay)) || TombFrom(s, g, m, pay, low)
  }

  lemma ArrivedIsSweptAway(
    s0: State, s1: State, s2: State, s3: State, g: ManagerId, payments: seq<Item>, claimed: seq<Item>,
    done: seq<Deletion>, low: nat, m: MachineId, pay: PayId)
    requires Inv(s0) && Inv(s1) && Inv(s2) && Inv(s3) && Grows(s0, s1) && Grows(s1, s2) && Grows(s1, s3)
    requires Arrived(s0, g, m, pay) && pay.federation in ManagerClients(s1, g)
    requires AllListed(s1, g, payments) && Accounted(s0, s1, g, m, pay, payments) && AllSwept(s2, g, claimed)
    requires forall item :: item in payments && item.federation in ManagerClients(s1, g) ==> item in claimed
    requires TombsAre(s2, s3, g, done) && DoneBut(done, low, claimed, {})
    ensures SweptAway(s0, s3, g, m, pay, low)
  {
    hide Inv, Grows, Claims.Inv, EntriesOk, LedgerOk, ManagersOk, ClocksOk;
    hide MachinesOk, Covers, TombsAre, DoneBut, Arrived;
    InvParts(s0);
    InvParts(s1);
    InvParts(s3);
    if Covers(s1, g, m, pay, ArrivedTs(s0, g, m, pay)) {
      CoversKept(s1, s3, g, m, pay, ArrivedTs(s0, g, m, pay));
    } else {
      var item :| item in payments && item.Pay() == pay;
      LedgerPart(s0, s1);
      ListedFrom(s0, s1, g, m, item);
      DeletedHasTomb(s2, s3, g, done, low, claimed, item);
    }
  }

  lemma LedgerPart(s: State, s': State)
    requires Grows(s, s')
    ensures LedgerGrows(s, s') && ManagersGrow(s, s')
  {
  }

  ghost predicate AllSweptAway(s0: State, s: State, g: ManagerId, low: nat) {
    forall m, pay ::
      Arrived(s0, g, m, pay) && pay.federation in ManagerClients(s0, g) ==> SweptAway(s0, s, g, m, pay, low)
  }

  lemma AllArrivedAreSweptAway(
    s0: State, s1: State, s2: State, s3: State, g: ManagerId, payments: seq<Item>, claimed: seq<Item>,
    done: seq<Deletion>, low: nat)
    requires Inv(s0) && Inv(s1) && Inv(s2) && Inv(s3) && Grows(s0, s1) && Grows(s1, s2) && Grows(s1, s3)
    requires AllListed(s1, g, payments) && AllAccounted(s0, s1, g, payments) && AllSwept(s2, g, claimed)
    requires ManagerClients(s0, g) <= ManagerClients(s1, g)
    requires forall item :: item in payments && item.federation in ManagerClients(s1, g) ==> item in claimed
    requires TombsAre(s2, s3, g, done) && DoneBut(done, low, claimed, {})
    ensures AllSweptAway(s0, s3, g, low)
  {
    hide Inv, Grows, TombsAre, DoneBut, AllListed, AllSwept, Covers, Accounted, Arrived, SweptAway;
    forall m, pay | Arrived(s0, g, m, pay) && pay.federation in ManagerClients(s0, g)
      ensures SweptAway(s0, s3, g, m, pay, low)
    {
      ArrivedIsSweptAway(s0, s1, s2, s3, g, payments, claimed, done, low, m, pay);
    }
  }

  /** What a pass has claimed is in the wallet for good. */
  lemma SweptIsClaimed(s: State, s': State, g: ManagerId, items: seq<Item>)
    requires ManagersOk(s) && ManagersGrow(s, s') && AllSwept(s, g, items)
    ensures forall item :: item in items ==> item.Pay() in ManagerOf(s', g).claimed
  {
    assert ManagerOk(s, g, ManagerOf(s, g));
    assert ManagerOf(s, g).claimed <= ManagerOf(s', g).claimed;
  }

  /** Listing and claiming delete nothing, so all that changed is the deletion of what was claimed. */
  lemma SweptOnlyThese(s0: State, s2: State, s3: State, g: ManagerId, done: seq<Deletion>, low: nat, claimed: seq<Item>)
    requires Inv(s0) && Inv(s2) && Grows(s0, s2) && OnlyListed(g, s0, s2)
    requires TombsAre(s2, s3, g, done) && DoneInOrder(done, low, claimed)
    ensures TombsOnlyOn(s0, s3, g, claimed)
  {
    hide Inv, Grows, TombsAre, DoneInOrder, OwnEntriesKept;
    DeletedOnlyThese(s2, s3, g, done, low, claimed);
    GrowsIsReflexive(s2);
    forall m: MachineId, pay: PayId | m in Tickets(s0, g)
      ensures m in Tickets(s2, g) && Tomb(s2, g, m, pay) == Tomb(s0, g, m, pay)
    {
      var doc := TicketDoc(s0, s2, s2, g, m);
      TombStays(s0, s2, g, doc, pay);
    }
  }

  /** The machine's wallet had the payment in some state of the run from the n-th on. */
  ghost predicate InWalletSince(trace: seq<State>, n: nat, m: MachineId, pay: PayId) {
    exists i: nat :: n <= i + 1 && i < |trace| && pay in MachineOf(trace[i], m).wallet
  }

  lemma FundingFills(s: State, step: Step)
    requires step.Fund? && Enabled(s, step)
    ensures step.pay in s.ledger && step.pay in MachineOf(Apply(s, step), Issuer(s, step.pay)).wallet
  {
  }

  /** A payment settled in the manager's replica stays so, unless it is paid again and so comes back into the
      machine's wallet. */
  lemma {:induction false} SettledStays(limits: Limits, trace: seq<State>, i: nat, j: nat, g: ManagerId, pay: PayId)
    requires IsRun(limits, trace) && i <= j < |trace| && Settled(trace[i], Manager(g), pay)
    ensures
      Settled(trace[j], Manager(g), pay) || InWalletSince(trace, i + 1, Issuer(trace[i], pay), pay)
    decreases j
  {
    hide Inv, Apply, Enabled, Grows, Buried;
    if i < j {
      SettledStays(limits, trace, i, j - 1, g, pay);
      if Settled(trace[j - 1], Manager(g), pay) {
        RunIsOk(limits, trace, j - 1);
        assert LinkedAt(limits, trace, j - 1);
        var step :| Enabled(trace[j - 1], step) && trace[j] == Apply(trace[j - 1], step);
        if step.Fund? && step.pay == pay {
          FundingFills(trace[j - 1], step);
          RunGrows(limits, trace, i, j - 1);
          LedgerStays(trace[i], trace[j - 1], pay);
        } else {
          StepKeepsSettled(trace[j - 1], step, Manager(g), pay);
        }
      }
    }
  }

  lemma ShownIsNotSettled(s: State, g: ManagerId, item: Item)
    requires Inv(s) && Shows(s, g, item)
    ensures !Settled(s, Manager(g), item.Pay())
  {
    hide Inv, ClocksOk, LedgerOk, MachinesOk, ManagersOk, Claims.Inv, Buried;
    var pay := item.Pay();
    if Settled(s, Manager(g), pay) {
      InvParts(s);
      TicketFacts(s, item.machine, g);
      var doc := Tickets(s, g)[item.machine];
      var slot := LatestSlot(Rep(s, Manager(g), doc), ContractKey(pay)).value;
      assert EntryOk(s, doc, slot, Rep(s, Manager(g), doc)[slot]);
      SettledIsHidden(s, Manager(g), pay);
    }
  }

  /** Of these items none is of a payment that was settled in the n-th state, unless it was paid again. */
  ghost predicate LeavesSettled(trace: seq<State>, n: nat, g: ManagerId, items: seq<Item>)
    requires 0 < n <= |trace|
  {
    forall item :: item in items && Settled(trace[n - 1], Manager(g), item.Pay()) ==>
      InWalletSince(trace, n, Issuer(trace[n - 1], item.Pay()), item.Pay())
  }

  lemma ShownLeavesSettled(limits: Limits, trace: seq<State>, n: nat, g: ManagerId, items: seq<Item>)
    requires IsRun(limits, trace) && 0 < n <= |trace| && AllShownSince(trace, n, g, items)
    ensures LeavesSettled(trace, n, g, items)
  {
    hide Inv, Shows, Settled, LinkedAt, InWalletSince;
    forall item | item in items && Settled(trace[n - 1], Manager(g), item.Pay())
      ensures
        item.Pay() in trace[n - 1].ledger && InWalletSince(trace, n, Issuer(trace[n - 1], item.Pay()), item.Pay())
    {
      var i: nat :| n <= i + 1 && i < |trace| && Shows(trace[i], g, item);
      SettledIsInLedger(trace[n - 1], g, item.Pay());
      SettledStays(limits, trace, n - 1, i, g, item.Pay());
      RunIsOk(limits, trace, i);
      ShownIsNotSettled(trace[i], g, item);
    }
  }

  lemma SettledIsInLedger(s: State, g: ManagerId, pay: PayId)
    requires Settled(s, Manager(g), pay)
    ensures pay in s.ledger
  {
  }

  /** Between the n-th state and the last one the manager's tombstone of a payment that was settled then does
      not change, unless it was paid again. */
  ghost predicate SettledTombsStay(trace: seq<State>, n: nat, g: ManagerId)
    requires 0 < n <= |trace|
  {
    forall m, pay ::
      Settled(trace[n - 1], Manager(g), pay) && Tomb(Last(trace), g, m, pay) != Tomb(trace[n - 1], g, m, pay)
      && m in Tickets(trace[n - 1], g) ==>
        InWalletSince(trace, n, Issuer(trace[n - 1], pay), pay)
  }

  lemma SweptTombsStay(trace: seq<State>, n: nat, g: ManagerId, claimed: seq<Item>)
    requires 0 < n <= |trace| && LeavesSettled(trace, n, g, claimed)
    requires TombsOnlyOn(trace[n - 1], Last(trace), g, claimed)
    ensures SettledTombsStay(trace, n, g)
  {
    hide Settled, InWalletSince, Tomb;
    forall m, pay
      | && Settled(trace[n - 1], Manager(g), pay) && Tomb(Last(trace), g, m, pay) != Tomb(trace[n - 1], g, m, pay)
        && m in Tickets(trace[n - 1], g)
      ensures pay in trace[n - 1].ledger && InWalletSince(trace, n, Issuer(trace[n - 1], pay), pay)
    {
      SettledIsInLedger(trace[n - 1], g, pay);
      var item :| item in claimed && item.machine == m && item.Pay() == pay;
    }
  }

  /** What is claimed of what was shown was shown. */
  lemma ClaimedIsShown(
    limits: Limits, trace: seq<State>, trace': seq<State>, n: nat, g: ManagerId, payments: seq<Item>,
    claimed: seq<Item>)
    requires IsRun(limits, trace') && trace <= trace' && 0 < n <= |trace|
    requires AllShownSince(trace, n, g, payments) && IsSubsequence(claimed, payments)
    ensures AllShownSince(trace', n, g, claimed) && LeavesSettled(trace', n, g, claimed)
    ensures OnePerKey(payments) ==> OnePerKey(claimed)
  {
    hide LinkedAt, LeavesSettled, ShownSince;
    SubsequenceFacts(claimed, payments);
    NothingShown(trace', n, g);
    ShownInBoth(trace, trace', n, n, g, payments, []);
    assert payments + [] == payments;
    ShownLeavesSettled(limits, trace', n, g, claimed);
  }

  /** `sweep_payments`. Whatever fails on the way, nothing is deleted but what this pass claimed, in the
      doc it came from; and when nothing fails, every payment of a connected federation that had arrived
      ends up under a tombstone: one that covers it, or one as new as the clock. Each payment it reports was
      shown by its machine's doc during the call, and is reported once. So a payment that was settled when
      the call began is neither reported nor deleted again, unless it was paid again in the meantime. */
  method SweepPayments(rt: Runtime, g: ManagerId, ghost low: nat, w: World) returns (claimed: seq<Item>)
    requires rt.Valid() && ClockFrom(w, low)
    modifies rt
    ensures rt.Valid() && old(rt.trace) <= rt.trace
    ensures forall item :: item in claimed ==> item.Pay() in ManagerOf(rt.st, g).claimed
    ensures TombsOnlyOn(old(rt.st), rt.st, g, claimed)
    ensures AllShownSince(rt.trace, |old(rt.trace)|, g, claimed) && OnePerKey(claimed)
    ensures LeavesSettled(rt.trace, |old(rt.trace)|, g, claimed)
    ensures SettledTombsStay(rt.trace, |old(rt.trace)|, g)
    ensures OnlySweeps(old(rt.mine), rt.mine, g, claimed)
    ensures Clean(w) ==> AllSweptAway(old(rt.st), rt.st, g, low)
  {
    hide Inv, Grows, AllListed, AllSwept, AllAccounted, AllSweptAway, TombsAre, DoneBut, DoneInOrder, TombsOnlyOn;
    hide OnlyLists, OnlyDeletes, OwnEntriesKept, AllShownSince, OnePerKey, LeavesSettled, SettledTombsStay, LinkedAt;
    // 1. Fetch the claimable contracts from the docs.
    var ok, payments := GetClaimableContracts(rt, g, w);
    claimed := [];
    ghost var s1, n1, listed, mine := rt.st, |rt.trace|, rt.trace, rt.mine;
    rt.HasGrown();
    if !ok {
      DeletesNothingYet(rt.mine, g, []);
      assert mine + ClaimSteps(g, []) == mine;
      NothingShown(rt.trace, |old(rt.trace)|, g);
      ClaimedIsShown(rt.limits, rt.trace, rt.trace, |old(rt.trace)|, g, [], []);
      NothingDeletedYet(rt.st, g);
      NoneDoneYet(low, []);
      assert Machines([]) == {};
      AllGroupsDone([], low, []);
      SweptOnlyThese(old(rt.st), rt.st, rt.st, g, [], low, []);
      SweptTombsStay(rt.trace, |old(rt.trace)|, g, []);
      return;
    }
    // 2. Sweep them to the wallet.
    claimed := ClaimListed(rt, g, payments, w);
    ghost var s2, n2 := rt.st, |rt.trace|;
    rt.HasGrown();
    OnlyListedInTurn(g, old(rt.st), s1, s2);
    // 3. Remove the transferred ones from the docs.
    ghost var done := RemoveClaimed(rt, g, claimed, low, w);
    rt.GrownSince(n1);
    rt.GrownSince(n2);
    RunGrows(rt.limits, rt.trace, n1 - 1, n2 - 1);
    SweptOnlyThese(old(rt.st), s2, rt.st, g, done, low, claimed);
    LedgerPart(s2, rt.st);
    InvParts(s2);
    SweptIsClaimed(s2, rt.st, g, claimed);
    ClaimedIsShown(rt.limits, listed, rt.trace, |old(rt.trace)|, g, payments, claimed);
    SweptTombsStay(rt.trace, |old(rt.trace)|, g, claimed);
    if Clean(w) {
      AllArrivedAreSweptAway(old(rt.st), s1, s2, rt.st, g, payments, claimed, done, low);
    }
  }

  /** Nothing is called when nothing was claimed. */
  method RemoveClaimed(rt: Runtime, g: ManagerId, claimed: seq<Item>, ghost low: nat, w: World)
    returns (ghost done: seq<Deletion>)
    requires rt.Valid() && AllSwept(rt.st, g, claimed) && ClockFrom(w, low)
    modifies rt
    ensures rt.Valid() && old(rt.trace) <= rt.trace
    ensures TombsAre(old(rt.st), rt.st, g, done) && DoneInOrder(done, low, claimed)
    ensures OnlyDeletes(old(rt.mine), rt.mine, g, claimed)
    ensures Clean(w) ==> DoneBut(done, low, claimed, {})
  {
    hide AllSwept, TombsAre, DoneInOrder, DoneBut;
    done := [];
    if claimed != [] {
      var ok;
      ok, done := RemoveClaimableContracts(rt, g, claimed, low, w);
    } else {
      NothingDeletedYet(rt.st, g);
      NoneDoneYet(low, []);
      assert Machines([]) == {};
      AllGroupsDone([], low, []);
    }
  }
}
