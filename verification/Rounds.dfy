/** One clean round: a machine pass, a full exchange of its doc, a manager pass, and the exchange back. */
module Rounds {
  import opened Types
  import opened Docs
  import opened Vending
  import opened VendingInvariant
  import opened VendingTheorems
  import opened Quiescence
  import opened Runtimes
  import opened Deletion
  import opened MachineSyncer
  import opened ManagerSyncer
  import Claims
  import WalletDisk

  // ---------------------------------------------------------------------------------------------
  // Handing over
  // ---------------------------------------------------------------------------------------------

  /** Written, out of the wallet, and in the manager's replica just as in the machine's. */
  predicate HandedOver(s: State, m: MachineId, g: ManagerId, pay: PayId) {
    var p := Slot(Machine(m), ContractKey(pay));
    && Wrote(s, m, pay) && pay !in MachineOf(s, m).wallet
    && Arrived(s, g, m, pay) && ReplicaOf(s, g, m)[p] == OwnReplica(s, m)[p]
  }

  lemma DeliveryHandsOver(s: State, m: MachineId, g: ManagerId, pay: PayId)
    requires Inv(s) && m in Tickets(s, g) && Wrote(s, m, pay) && pay !in MachineOf(s, m).wallet
    ensures
      var doc, p := Tickets(s, g)[m], Slot(Machine(m), ContractKey(pay));
      && Enabled(s, Sync(Machine(m), Manager(g), doc, p))
      && var s' := Apply(s, Sync(Machine(m), Manager(g), doc, p));
         && HandedOver(s', m, g, pay)
         && s'.claims == s.claims && s'.machines == s.machines && s'.managers == s.managers
  {
    hide Inv, Apply, Enabled, ClocksOk, EntriesOk, LedgerOk, MachinesOk, ManagersOk, Claims.Inv;
    InvParts(s);
    TicketFacts(s, m, g);
    var doc, p := Tickets(s, g)[m], Slot(Machine(m), ContractKey(pay));
    SyncIs(s, Machine(m), Manager(g), doc, p);
    OwnEntryDelivered(s, Manager(g), doc, p);
  }

  /** Delivering something else of the machine's to the manager takes nothing of that back. */
  lemma DeliveryKeepsHandedOver(s: State, m: MachineId, g: ManagerId, pay: PayId, other: PayId)
    requires Inv(s) && m in Tickets(s, g) && Wrote(s, m, pay) && pay != other
    ensures
      var doc, p := Tickets(s, g)[m], Slot(Machine(m), ContractKey(pay));
      && Enabled(s, Sync(Machine(m), Manager(g), doc, p))
      && var s' := Apply(s, Sync(Machine(m), Manager(g), doc, p));
         && (HandedOver(s, m, g, other) ==> HandedOver(s', m, g, other))
         && (Wrote(s, m, other) ==> Wrote(s', m, other))
  {
    hide Inv, Apply, Enabled, ClocksOk, EntriesOk, LedgerOk, MachinesOk, ManagersOk, Claims.Inv;
    InvParts(s);
    TicketFacts(s, m, g);
    var doc, p := Tickets(s, g)[m], Slot(Machine(m), ContractKey(pay));
    SyncIs(s, Machine(m), Manager(g), doc, p);
    OthersUndelivered(s, Machine(m), Manager(g), doc, p, Machine(m), doc, Slot(Machine(m), ContractKey(other)));
    OthersUndelivered(s, Machine(m), Manager(g), doc, p, Manager(g), doc, Slot(Machine(m), ContractKey(other)));
  }

  method ExchangeOne(rt: Runtime, m: MachineId, g: ManagerId, pay: PayId)
    requires rt.Valid() && m in Tickets(rt.st, g) && Wrote(rt.st, m, pay) && pay !in MachineOf(rt.st, m).wallet
    modifies rt
    ensures rt.Valid() && old(rt.trace) <= rt.trace && HandedOver(rt.st, m, g, pay)
    ensures Tickets(rt.st, g) == Tickets(old(rt.st), g) && MachineOf(rt.st, m) == MachineOf(old(rt.st), m)
    ensures forall other :: Wrote(old(rt.st), m, other) ==> Wrote(rt.st, m, other)
    ensures forall other :: HandedOver(old(rt.st), m, g, other) ==> HandedOver(rt.st, m, g, other)
  {
    hide Inv, Apply, Enabled, HandedOver, Wrote;
    rt.IsOk();
    DeliveryHandsOver(rt.st, m, g, pay);
    forall other | other != pay
      ensures
        var s := rt.st;
        var s' := Apply(s, Sync(Machine(m), Manager(g), Tickets(s, g)[m], Slot(Machine(m), ContractKey(pay))));
        && (HandedOver(s, m, g, other) ==> HandedOver(s', m, g, other))
        && (Wrote(s, m, other) ==> Wrote(s', m, other))
    {
      DeliveryKeepsHandedOver(rt.st, m, g, pay, other);
    }
    rt.Perform(Sync(Machine(m), Manager(g), Tickets(rt.st, g)[m], Slot(Machine(m), ContractKey(pay))));
    WroteWhenHandedOver(rt.st, m, g, pay);
  }

  lemma WroteWhenHandedOver(s: State, m: MachineId, g: ManagerId, pay: PayId)
    requires HandedOver(s, m, g, pay)
    ensures Wrote(s, m, pay) && pay !in MachineOf(s, m).wallet && Arrived(s, g, m, pay) && m in Tickets(s, g)
  {
  }

  /** The engine carries the machine's entries for these payments over to the manager. */
  method Exchange(rt: Runtime, m: MachineId, g: ManagerId, pays: set<PayId>)
    requires rt.Valid() && m in Tickets(rt.st, g)
    requires forall pay :: pay in pays ==> Wrote(rt.st, m, pay) && pay !in MachineOf(rt.st, m).wallet
    modifies rt
    ensures rt.Valid() && old(rt.trace) <= rt.trace
    ensures MachineOf(rt.st, m) == MachineOf(old(rt.st), m)
    ensures forall pay :: pay in pays ==> HandedOver(rt.st, m, g, pay)
  {
    hide Wrote, HandedOver;
    var todo := pays;
    while todo != {}
      invariant rt.Valid() && old(rt.trace) <= rt.trace && m in Tickets(rt.st, g) && todo <= pays
      invariant MachineOf(rt.st, m) == MachineOf(old(rt.st), m)
      invariant forall pay :: pay in todo ==> Wrote(rt.st, m, pay) && pay !in MachineOf(rt.st, m).wallet
      invariant forall pay :: pay in pays - todo ==> HandedOver(rt.st, m, g, pay)
      decreases |todo|
    {
      var pay :| pay in todo;
      todo := todo - {pay};
      ExchangeOne(rt, m, g, pay);
    }
  }

  /** The machine's half of the round, up to the manager's replica. */
  method HandOver(rt: Runtime, m: MachineId, g: ManagerId, w: World) returns (moved: set<PayId>, connected: bool)
    requires rt.Valid() && m in Tickets(rt.st, g) && MachineOf(rt.st, m).running && Clean(w)
    requires SeenConfig(rt.st, m).Some? && ClaimedMachine(rt.st, m).mem.Some?
    modifies rt
    ensures rt.Valid() && old(rt.trace) <= rt.trace
    ensures Claimable(old(MachineOf(rt.st, m)).wallet, SeenConfig(old(rt.st), m).value).Keys <= moved
    ensures
      forall pay :: pay in moved ==>
        HandedOver(rt.st, m, g, pay) && pay.federation == SeenConfig(old(rt.st), m).value.invite.federation
    ensures
      connected <==>
        !WalletDisk.Stuck(old(MachineOf(rt.st, m)).disk, SeenConfig(old(rt.st), m).value.invite.federation)
    ensures connected <==> SeenConfig(old(rt.st), m).value.invite.federation in MachineClients(rt.st, m)
    ensures !connected ==> moved == {}
  {
    hide Inv, Grows, Wrote, SeenConfig, Claimable, HandedOver, WalletDisk.Stuck, Claims.Inv;
    var federation := SeenConfig(rt.st, m).value.invite.federation;
    moved := SyncerTurn(rt, m, w);
    connected := federation in MachineClients(rt.st, m);
    rt.HasGrown();
    InvHasClaims(old(rt.st));
    InvHasClaims(rt.st);
    TicketsKept(old(rt.st), rt.st, g, m);
    Exchange(rt, m, g, moved);
  }

  // ---------------------------------------------------------------------------------------------
  // What is paid once
  // ---------------------------------------------------------------------------------------------

  /** It is out of the machine's wallet, and the machine's entry for it is this one. */
  predicate Stands(s: State, m: MachineId, pay: PayId, e: Entry) {
    var p := Slot(Machine(m), ContractKey(pay));
    && pay in s.funded && pay in s.ledger && Issuer(s, pay) == m && pay !in MachineOf(s, m).wallet
    && Wrote(s, m, pay) && OwnReplica(s, m)[p] == e
  }

  lemma StepLetsStand(s: State, step: Step, m: MachineId, pay: PayId, e: Entry)
    requires Inv(s) && Enabled(s, step) && Stands(s, m, pay, e) && !(step.Fund? && step.pay == pay)
    ensures Stands(Apply(s, step), m, pay, e)
  {
    hide Inv, Apply, Enabled, Grows;
    var s' := Apply(s, step);
    StepKeepsInv(s, step);
    WroteKept(s, s', m, pay);
    FundedStays(s, step, pay);
    OwnEntryStands(s, step, pay);
    if pay in MachineOf(s', m).wallet {
      WalletGainsOnlyFunding(s, step, m, pay);
    }
  }

  /** A contract that is never paid twice stays as it is once the machine has handed it over. */
  lemma {:induction false} PaidOnceStands(
    limits: Limits, trace: seq<State>, i: nat, j: nat, m: MachineId, pay: PayId, e: Entry)
    requires IsRun(limits, trace) && i <= j < |trace| && pay in limits.once && Stands(trace[i], m, pay, e)
    ensures Stands(trace[j], m, pay, e)
    decreases j
  {
    hide Inv, Apply, Enabled, Stands;
    if i < j {
      PaidOnceStands(limits, trace, i, j - 1, m, pay, e);
      RunIsOk(limits, trace, j - 1);
      assert LinkedAt(limits, trace, j - 1);
      var s := trace[j - 1];
      var step :| Enabled(s, step) && trace[j] == Apply(s, step) && !Excluded(limits, s, step);
      StandsIsFunded(s, m, pay, e);
      StepLetsStand(s, step, m, pay, e);
    }
  }

  lemma StandsIsFunded(s: State, m: MachineId, pay: PayId, e: Entry)
    requires Stands(s, m, pay, e)
    ensures pay in s.funded
  {
  }

  // ---------------------------------------------------------------------------------------------
  // What a round owes
  // ---------------------------------------------------------------------------------------------

  /** Written by the machine, claimed by the manager it pays, and deleted. */
  predicate RoundDone(s: State, m: MachineId, g: ManagerId, pay: PayId) {
    && pay in s.ledger && Issuer(s, pay) == m && Payee(s, pay) == g && m in Tickets(s, g)
    && Wrote(s, m, pay) && Paid(s, pay) && Tomb(s, g, m, pay).Some?
  }

  /** Settled in both replicas, so hidden in both for good. */
  predicate SettledInBoth(s: State, m: MachineId, g: ManagerId, pay: PayId) {
    Settled(s, Machine(m), pay) && Settled(s, Manager(g), pay)
  }

  lemma TombIsPaid(s: State, m: MachineId, g: ManagerId, pay: PayId)
    requires Inv(s) && m in Tickets(s, g) && Tomb(s, g, m, pay).Some? && pay in s.ledger && Payee(s, pay) == g
    ensures Paid(s, pay)
  {
    TicketFacts(s, m, g);
    var doc := Tickets(s, g)[m];
    var slot := Slot(Manager(g), ContractKey(pay));
    assert slot in Rep(s, Manager(g), doc) && EntryOk(s, doc, slot, Rep(s, Manager(g), doc)[slot]);
  }

  lemma HandedOverFacts(s: State, m: MachineId, g: ManagerId, pay: PayId)
    requires Inv(s) && HandedOver(s, m, g, pay)
    ensures pay in s.ledger && pay in s.funded && Issuer(s, pay) == m && Payee(s, pay) == g && m in Tickets(s, g)
    ensures Stands(s, m, pay, OwnReplica(s, m)[Slot(Machine(m), ContractKey(pay))])
    ensures ArrivedTs(s, g, m, pay) == OwnReplica(s, m)[Slot(Machine(m), ContractKey(pay))].ts
  {
    hide Inv, Claims.Inv, EntriesOk, LedgerOk;
    InvParts(s);
    ArrivedFacts(s, g, m, pay);
  }

  /** After the manager's pass the payment is done, whatever the others did meanwhile. */
  lemma SweptIsDone(s1: State, s2: State, m: MachineId, g: ManagerId, pay: PayId, low: nat)
    requires Inv(s1) && Inv(s2) && Grows(s1, s2) && HandedOver(s1, m, g, pay) && SweptAway(s1, s2, g, m, pay, low)
    ensures RoundDone(s2, m, g, pay)
  {
    hide Inv, Grows, Claims.Inv, HandedOver, Wrote, Arrived;
    HandedOverFacts(s1, m, g, pay);
    WroteWhenHandedOver(s1, m, g, pay);
    InvHasClaims(s1);
    InvHasClaims(s2);
    TicketsKept(s1, s2, g, m);
    WroteKept(s1, s2, m, pay);
    LedgerStays(s1, s2, pay);
    TombIsPaid(s2, m, g, pay);
  }

  /** When it was not paid again, and the manager's clock was past the machine's entry, it is settled in
      the manager's replica. */
  lemma SweptIsSettled(s1: State, s2: State, m: MachineId, g: ManagerId, pay: PayId, e: Entry, low: nat)
    requires Inv(s2) && Stands(s2, m, pay, e) && m in Tickets(s2, g) && Payee(s2, pay) == g && e.ts < low
    requires Arrived(s1, g, m, pay) && ArrivedTs(s1, g, m, pay) == e.ts && SweptAway(s1, s2, g, m, pay, low)
    ensures Settled(s2, Manager(g), pay)
  {
    hide Inv, Claims.Inv;
    InvHasClaims(s2);
    TicketFacts(s2, m, g);
  }

  // ---------------------------------------------------------------------------------------------
  // Syncing back
  // ---------------------------------------------------------------------------------------------

  lemma RoundDoneStays(s: State, s': State, m: MachineId, g: ManagerId, pay: PayId)
    requires Inv(s) && Inv(s') && Grows(s, s') && RoundDone(s, m, g, pay)
    ensures RoundDone(s', m, g, pay)
  {
    hide Inv, Grows, Claims.Inv, Wrote, Paid;
    InvHasClaims(s);
    InvHasClaims(s');
    TicketsKept(s, s', g, m);
    WroteKept(s, s', m, pay);
    LedgerStays(s, s', pay);
    ReplicaKept(s, s', g, m, Slot(Manager(g), ContractKey(pay)));
    TombIsPaid(s', m, g, pay);
  }

  lemma SyncingBackSettles(s: State, m: MachineId, g: ManagerId, pay: PayId)
    requires Inv(s) && RoundDone(s, m, g, pay)
    ensures
      var doc, t := Tickets(s, g)[m], Slot(Manager(g), ContractKey(pay));
      && Enabled(s, Sync(Manager(g), Machine(m), doc, t))
      && (Settled(s, Manager(g), pay) ==>
            SettledInBoth(Apply(s, Sync(Manager(g), Machine(m), doc, t)), m, g, pay))
  {
    hide Inv, Apply, Enabled, ClocksOk, EntriesOk, LedgerOk, MachinesOk, ManagersOk, Claims.Inv, Paid;
    InvParts(s);
    TicketFacts(s, m, g);
    var doc, p, t := Tickets(s, g)[m], Slot(Machine(m), ContractKey(pay)), Slot(Manager(g), ContractKey(pay));
    SyncIs(s, Manager(g), Machine(m), doc, t);
    OwnEntryDelivered(s, Machine(m), doc, t);
    OthersUndelivered(s, Manager(g), Machine(m), doc, t, Machine(m), doc, p);
  }

  method SyncBackOne(rt: Runtime, m: MachineId, g: ManagerId, pay: PayId)
    requires rt.Valid() && RoundDone(rt.st, m, g, pay)
    modifies rt
    ensures rt.Valid() && old(rt.trace) <= rt.trace
    ensures Settled(old(rt.st), Manager(g), pay) ==> SettledInBoth(rt.st, m, g, pay)
    ensures forall other :: RoundDone(old(rt.st), m, g, other) ==> RoundDone(rt.st, m, g, other)
    ensures forall other, d :: Settled(old(rt.st), d, other) ==> Settled(rt.st, d, other)
  {
    hide Inv, Grows, Apply, Enabled, Settled, RoundDone;
    rt.IsOk();
    SyncingBackSettles(rt.st, m, g, pay);
    HasTicket(rt.st, m, g, pay);
    var step := Sync(Manager(g), Machine(m), Tickets(rt.st, g)[m], Slot(Manager(g), ContractKey(pay)));
    StepKeepsInv(rt.st, step);
    forall other | RoundDone(rt.st, m, g, other) ensures RoundDone(Apply(rt.st, step), m, g, other) {
      RoundDoneStays(rt.st, Apply(rt.st, step), m, g, other);
    }
    forall other, d | Settled(rt.st, d, other) ensures Settled(Apply(rt.st, step), d, other) {
      StepKeepsSettled(rt.st, step, d, other);
    }
    rt.Perform(step);
  }

  lemma HasTicket(s: State, m: MachineId, g: ManagerId, pay: PayId)
    requires RoundDone(s, m, g, pay)
    ensures m in Tickets(s, g)
  {
  }

  /** The engine carries the manager's tombstones back to the machine. */
  method SyncBack(rt: Runtime, m: MachineId, g: ManagerId, pays: set<PayId>)
    requires rt.Valid() && forall pay :: pay in pays ==> RoundDone(rt.st, m, g, pay)
    modifies rt
    ensures rt.Valid() && old(rt.trace) <= rt.trace
    ensures forall pay :: pay in pays ==> RoundDone(rt.st, m, g, pay)
    ensures forall pay :: pay in pays && Settled(old(rt.st), Manager(g), pay) ==> SettledInBoth(rt.st, m, g, pay)
  {
    hide RoundDone, Settled;
    var todo := pays;
    while todo != {}
      invariant rt.Valid() && old(rt.trace) <= rt.trace && todo <= pays
      invariant forall pay :: pay in pays ==> RoundDone(rt.st, m, g, pay)
      invariant forall pay :: Settled(old(rt.st), Manager(g), pay) ==> Settled(rt.st, Manager(g), pay)
      invariant
        forall pay :: pay in pays - todo && Settled(old(rt.st), Manager(g), pay) ==> Settled(rt.st, Machine(m), pay)
      decreases |todo|
    {
      var pay :| pay in todo;
      todo := todo - {pay};
      SyncBackOne(rt, m, g, pay);
    }
  }

  // ---------------------------------------------------------------------------------------------
  // The round
  // ---------------------------------------------------------------------------------------------

  /** A manager that is up has a client for the federation of any config that its machines see. */
  lemma ManagerIsConnected(s0: State, s1: State, m: MachineId, g: ManagerId)
    requires Inv(s0) && Grows(s0, s1) && m in Tickets(s0, g) && SeenConfig(s0, m).Some?
    ensures ClaimedMachine(s0, m).mem.Some?
    ensures ManagerOf(s1, g).running ==> SeenConfig(s0, m).value.invite.federation in ManagerClients(s1, g)
  {
    hide SeenConfig, EntriesOk, ClocksOk, LedgerOk, MachinesOk, ManagersOk, Claims.Inv;
    TicketFacts(s0, m, g);
    SeenConfigIsOk(s0, m);
    ConfigKept(s0, s1, g, SeenConfig(s0, m).value);
  }

  /** The machine's entry for a payment, when it has one. */
  predicate WrittenBefore(s: State, m: MachineId, pay: PayId, ts: nat) {
    var p := Slot(Machine(m), ContractKey(pay));
    p in OwnReplica(s, m) && OwnReplica(s, m)[p].ts < ts
  }

  lemma WrittenBeforeEarlier(s: State, s': State, m: MachineId, pay: PayId, low: nat)
    requires Grows(s, s') && Wrote(s, m, pay) && WrittenBefore(s', m, pay, low)
    ensures WrittenBefore(s, m, pay, low)
  {
    OwnerKept(s, s', m);
    var doc := ClaimedMachine(s, m).ticket.value;
    assert SlotGrows(Rep(s, Machine(m), doc), Rep(s', Machine(m), doc), Slot(Machine(m), ContractKey(pay)));
  }

  /** What the sweep from s1 to s2 leaves of one payment. */
  lemma SweepDoes(rt: Runtime, n1: nat, m: MachineId, g: ManagerId, pay: PayId, low: nat)
    requires rt.Valid() && 0 < n1 <= |rt.trace| && HandedOver(rt.trace[n1 - 1], m, g, pay)
    requires AllSweptAway(rt.trace[n1 - 1], rt.st, g, low) && pay.federation in ManagerClients(rt.trace[n1 - 1], g)
    ensures RoundDone(rt.st, m, g, pay) && Wrote(rt.trace[n1 - 1], m, pay)
    ensures pay in rt.limits.once && WrittenBefore(rt.trace[n1 - 1], m, pay, low) ==> Settled(rt.st, Manager(g), pay)
  {
    hide Inv, Grows, HandedOver, RoundDone, Settled, Stands, Wrote, SweptAway, Arrived;
    var s1 := rt.trace[n1 - 1];
    rt.GrownSince(n1);
    WroteWhenHandedOver(s1, m, g, pay);
    SweptIsDone(s1, rt.st, m, g, pay, low);
    if pay in rt.limits.once && WrittenBefore(s1, m, pay, low) {
      var e := OwnReplica(s1, m)[Slot(Machine(m), ContractKey(pay))];
      HandedOverFacts(s1, m, g, pay);
      PaidOnceStands(rt.limits, rt.trace, n1 - 1, |rt.trace| - 1, m, pay, e);
      DoneFacts(rt.st, m, g, pay);
      SweptIsSettled(s1, rt.st, m, g, pay, e, low);
    }
  }

  lemma DoneFacts(s: State, m: MachineId, g: ManagerId, pay: PayId)
    requires RoundDone(s, m, g, pay)
    ensures pay in s.ledger && Payee(s, pay) == g && m in Tickets(s, g)
  {
  }

  /** The manager's half of the round, and the exchange back. */
  method SweepAndSyncBack(rt: Runtime, m: MachineId, g: ManagerId, moved: set<PayId>, ghost low: nat, w: World)
    requires rt.Valid() && Clean(w) && ClockFrom(w, low)
    requires
      forall pay :: pay in moved ==> HandedOver(rt.st, m, g, pay) && pay.federation in ManagerClients(rt.st, g)
    modifies rt
    ensures rt.Valid() && old(rt.trace) <= rt.trace
    ensures
      forall pay :: pay in moved ==>
        && RoundDone(rt.st, m, g, pay)
        && (pay in rt.limits.once && WrittenBefore(rt.st, m, pay, low) ==> SettledInBoth(rt.st, m, g, pay))
  {
    hide Inv, Grows, HandedOver, RoundDone, SettledInBoth, Settled, AllSweptAway, WrittenBefore, Wrote;
    ghost var s1, n1 := rt.st, |rt.trace|;
    var claimed := SweepPayments(rt, g, low, w);
    ghost var s2 := rt.st;
    forall pay | pay in moved
      ensures RoundDone(s2, m, g, pay) && Wrote(s1, m, pay)
      ensures pay in rt.limits.once && WrittenBefore(s1, m, pay, low) ==> Settled(s2, Manager(g), pay)
    {
      SweepDoes(rt, n1, m, g, pay, low);
    }
    SyncBack(rt, m, g, moved);
    rt.GrownSince(n1);
    forall pay | pay in moved && pay in rt.limits.once && WrittenBefore(rt.st, m, pay, low)
      ensures SettledInBoth(rt.st, m, g, pay)
    {
      WrittenBeforeEarlier(s1, rt.st, m, pay, low);
    }
  }

  /** Only a stop takes a manager that is up down. */
  lemma StepKeepsRunning(s: State, step: Step, g: ManagerId)
    requires Enabled(s, step) && ManagerOf(s, g).running
    ensures ManagerOf(Apply(s, step), g).running <==> step != Handshake(Claims.CrashManager(g))
  {
    hide Apply, Enabled, ListedItem, WalletDisk.AfterSet, WalletDisk.AfterRestart, NoClients;
    StepOnManager(s, step, g);
  }

  /** A manager that is never stopped in a run stays up through it. */
  lemma {:induction false} UpStays(limits: Limits, trace: seq<State>, i: nat, j: nat, g: ManagerId)
    requires IsRun(limits, trace) && i <= j < |trace| && g in limits.up && ManagerOf(trace[i], g).running
    ensures ManagerOf(trace[j], g).running
    decreases j
  {
    hide Apply, Enabled;
    if i < j {
      UpStays(limits, trace, i, j - 1, g);
      assert LinkedAt(limits, trace, j - 1);
      var s := trace[j - 1];
      var step :| Enabled(s, step) && trace[j] == Apply(s, step) && !Excluded(limits, s, step);
      StepKeepsRunning(s, step, g);
    }
  }

  /** One clean round. The machine ends its turn with a client of the federation it is configured for exactly
      when it had one before or had no directory for it; after a first join that broke off it hands
      nothing over. Otherwise, when the manager's turn comes, every payment that the machine's wallet held
      for its config has left the wallet and is in the manager's replica. The manager sweeps exactly when it
      is up then, so it does in every run in which nobody stops it; and then each of these payments ends up
      claimed and deleted, whatever anybody else does meanwhile. A payment that is paid only once is then
      settled in both replicas, hence hidden in both for the rest of the run, provided that the manager's
      clock was past the machine's entry. */
  method CleanRound(rt: Runtime, m: MachineId, g: ManagerId, ghost low: nat, w: World)
    returns (connected: bool, swept: bool, ghost turn: nat)
    requires rt.Valid() && m in Tickets(rt.st, g) && SeenConfig(rt.st, m).Some? && MachineOf(rt.st, m).running
    requires Clean(w) && ClockFrom(w, low)
    modifies rt
    ensures rt.Valid() && old(rt.trace) <= rt.trace && |old(rt.trace)| <= turn <= |rt.trace|
    ensures
      connected <==>
        !WalletDisk.Stuck(old(MachineOf(rt.st, m)).disk, SeenConfig(old(rt.st), m).value.invite.federation)
    ensures !connected ==> Claimable(old(MachineOf(rt.st, m)).wallet, SeenConfig(old(rt.st), m).value) == map[]
    ensures
      forall pay :: pay in Claimable(old(MachineOf(rt.st, m)).wallet, SeenConfig(old(rt.st), m).value) ==>
        HandedOver(rt.trace[turn - 1], m, g, pay)
    ensures swept <==> ManagerOf(rt.trace[turn - 1], g).running
    ensures g in rt.limits.up && old(ManagerOf(rt.st, g)).running ==> swept
    ensures
      swept ==>
        forall pay :: pay in Claimable(old(MachineOf(rt.st, m)).wallet, SeenConfig(old(rt.st), m).value) ==>
          && RoundDone(rt.st, m, g, pay)
          && (pay in rt.limits.once && WrittenBefore(rt.st, m, pay, low) ==> SettledInBoth(rt.st, m, g, pay))
  {
    hide Inv, Grows, SeenConfig, HandedOver, RoundDone, SettledInBoth, AllSweptAway, WalletDisk.Stuck, WrittenBefore;
    hide LinkedAt, Claimable, Claims.Inv;
    ghost var s0, n0 := rt.st, |rt.trace|;
    rt.IsOk();
    GrowsIsReflexive(s0);
    ManagerIsConnected(s0, s0, m, g);
    var moved;
    moved, connected := HandOver(rt, m, g, w);
    turn := |rt.trace|;
    swept := ManagerOf(rt.st, g).running;
    if g in rt.limits.up && ManagerOf(s0, g).running {
      UpStays(rt.limits, rt.trace, n0 - 1, turn - 1, g);
    }
    if swept {
      rt.HasGrown();
      ManagerIsConnected(s0, rt.st, m, g);
      SweepAndSyncBack(rt, m, g, moved, low, w);
    }
  }
}
