/**
 What the system promises over every run: any number of machines, managers and connections, in
 every interleaving, with failures, aborts, restarts and replicas merging in any order.
 */
module VendingTheorems {
  import opened Types
  import opened Docs
  import opened Vending
  import opened VendingInvariant
  import Claims

  function Reached(steps: seq<Step>): State
    requires Legal(INIT, steps)
  {
    Run(INIT, steps)
  }

  lemma InitIsOk()
    ensures Inv(INIT)
  {
  }

  lemma ReachedIsOk(steps: seq<Step>)
    requires Legal(INIT, steps)
    ensures Inv(Reached(steps))
  {
    InitIsOk();
    RunKeepsInv(INIT, steps);
  }

  /** The machine that asked for a contract, the manager whose key it pays, and the doc they share. */
  function Issuer(s: State, pay: PayId): MachineId
    requires pay in s.ledger
  {
    s.ledger[pay].issuer
  }

  function Payee(s: State, pay: PayId): ManagerId
    requires pay in s.ledger
  {
    s.ledger[pay].claimPk.manager
  }

  /** The contract's own terms are what the doc shows at its key. */
  predicate ShownIn(s: State, r: Replica, pay: PayId)
    requires pay in s.ledger
  {
    var v := Visible(r, ContractKey(pay));
    && v.Some? && v.value.ContractValue? && v.value.contract.id == pay.contract
    && v.value.contract.claimPk == s.ledger[pay].claimPk && v.value.contract.amount == s.ledger[pay].amount
  }

  predicate Owed(s: State, pay: PayId)
    requires pay in s.ledger
  {
    pay in MachineOf(s, Issuer(s, pay)).wallet || ShownIn(s, OwnReplica(s, Issuer(s, pay)), pay)
  }

  predicate Paid(s: State, pay: PayId)
    requires pay in s.ledger
  {
    pay in ManagerOf(s, Payee(s, pay)).claimed
  }

  /** What stands in a doc at a payment's key: the machine's own copy of the terms, or the payee's
      tombstone on a contract it has claimed. */
  lemma PaymentEntry(s: State, d: Device, doc: DocId, slot: Slot, pay: PayId)
    requires EntriesOk(s) && pay in s.ledger && TermsOk(s, pay, s.ledger[pay])
    requires doc in s.claims.makers && s.claims.makers[doc] == Issuer(s, pay)
    requires slot in Rep(s, d, doc) && slot.key == ContractKey(pay)
    ensures
      var v := Rep(s, d, doc)[slot].value;
      if slot.author == Machine(Issuer(s, pay)) then v.ContractValue? && PaymentOk(s, Issuer(s, pay), pay, v.contract)
      else slot.author == Manager(Payee(s, pay)) && v.Empty? && Paid(s, pay)
  {
    assert EntryOk(s, doc, slot, Rep(s, d, doc)[slot]);
  }

  /** In any replica that has it, the machine's payment is shown unless its payee has claimed it. */
  lemma ShownOrPaid(s: State, d: Device, doc: DocId, pay: PayId)
    requires EntriesOk(s) && pay in s.ledger && TermsOk(s, pay, s.ledger[pay])
    requires doc in s.claims.makers && s.claims.makers[doc] == Issuer(s, pay)
    requires Slot(Machine(Issuer(s, pay)), ContractKey(pay)) in Rep(s, d, doc)
    ensures Paid(s, pay) || ShownIn(s, Rep(s, d, doc), pay)
  {
    PaymentEntry(s, d, doc, LatestSlot(Rep(s, d, doc), ContractKey(pay)).value, pay);
  }

  lemma FundedIsOwedOrPaid(s: State, pay: PayId)
    requires Inv(s) && pay in s.funded
    ensures pay in s.ledger && (Owed(s, pay) || Paid(s, pay))
  {
    assert Kept(s, pay);
    var m := Issuer(s, pay);
    if pay !in MachineOf(s, m).wallet {
      TicketFacts(s, m, 0);
      ShownOrPaid(s, Machine(m), ClaimedMachine(s, m).ticket.value, pay);
    }
  }

  /** No payment is lost: in every reachable state a funded contract is in the machine's wallet, or
      shown with its own terms in the machine's replica of its doc, or claimed by the manager whose
      key it pays. */
  lemma NoPaymentLost(steps: seq<Step>, pay: PayId)
    requires Legal(INIT, steps) && pay in Reached(steps).funded
    ensures pay in Reached(steps).ledger && (Owed(Reached(steps), pay) || Paid(Reached(steps), pay))
  {
    ReachedIsOk(steps);
    FundedIsOwedOrPaid(Reached(steps), pay);
  }

  /** Every contract a machine ever asked for pays the key that the machine's one owner holds for
      that federation, and no other manager lists the machine. */
  lemma RequestsPayTheOwner(steps: seq<Step>, pay: PayId, g: ManagerId)
    requires Legal(INIT, steps) && pay in Reached(steps).ledger
    ensures
      var s := Reached(steps);
      && ClaimedMachine(s, Issuer(s, pay)).disk == Some(Payee(s, pay))
      && s.ledger[pay].claimPk == ClaimKey(Payee(s, pay), pay.federation)
      && Claims.Consented(s.claims, Issuer(s, pay), Payee(s, pay))
      && (Issuer(s, pay) in Tickets(s, g) ==> g == Payee(s, pay))
  {
    ReachedIsOk(steps);
    var s := Reached(steps);
    assert TermsOk(s, pay, s.ledger[pay]);
    assert Claims.MachineOk(s.claims, Issuer(s, pay), ClaimedMachine(s, Issuer(s, pay)));
    TicketFacts(s, Issuer(s, pay), g);
  }

  /** Whatever config a machine sees, its owner wrote it: it pairs a federation with the owner's key. */
  lemma SeenConfigNamesTheOwner(steps: seq<Step>, m: MachineId)
    requires Legal(INIT, steps) && SeenConfig(Reached(steps), m).Some?
    ensures
      var s := Reached(steps);
      var config := SeenConfig(s, m).value;
      && ClaimedMachine(s, m).disk.Some?
      && config == PlannedConfig(ClaimedMachine(s, m).disk.value, config.invite)
  {
    ReachedIsOk(steps);
    SeenConfigIsOk(Reached(steps), m);
  }

  // ---------------------------------------------------------------------------------------------
  // Conservation
  // ---------------------------------------------------------------------------------------------

  /** The funded contracts that pay this manager. */
  ghost function FundedFor(s: State, g: ManagerId): set<PayId> {
    set pay | pay in s.funded && pay in s.ledger && Payee(s, pay) == g
  }

  ghost function OwedTo(s: State, g: ManagerId): set<PayId> {
    set pay | pay in s.funded && pay in s.ledger && Payee(s, pay) == g && Owed(s, pay) && !Paid(s, pay)
  }

  /** However often entries are rewritten, listed and claimed again, the manager's credit is the sum
      over the distinct contracts it claimed, and what was funded for it is exactly that credit plus
      what is still owed to it. No contract is credited to two managers. */
  lemma FundsAreConserved(steps: seq<Step>, g: ManagerId)
    requires Legal(INIT, steps)
    ensures
      var s := Reached(steps);
      && ManagerOf(s, g).claimed <= s.ledger.Keys && OwedTo(s, g) <= s.ledger.Keys && FundedFor(s, g) <= s.ledger.Keys
      && ManagerOf(s, g).credit == Total(s.ledger, ManagerOf(s, g).claimed)
      && FundedFor(s, g) == ManagerOf(s, g).claimed + OwedTo(s, g) && ManagerOf(s, g).claimed !! OwedTo(s, g)
      && Total(s.ledger, FundedFor(s, g)) == ManagerOf(s, g).credit + Total(s.ledger, OwedTo(s, g))
    ensures forall g' :: g' != g ==> ManagerOf(Reached(steps), g).claimed !! ManagerOf(Reached(steps), g').claimed
  {
    ReachedIsOk(steps);
    var s := Reached(steps);
    var claimed, owed := ManagerOf(s, g).claimed, OwedTo(s, g);
    assert ManagerOk(s, g, ManagerOf(s, g));
    forall pay | pay in claimed ensures ClaimOk(s, g, pay) {}
    forall pay | pay in FundedFor(s, g) ensures pay in claimed + owed {
      FundedIsOwedOrPaid(s, pay);
    }
    TotalSplits(s.ledger, claimed, owed);
    assert claimed + owed == FundedFor(s, g);
    forall g' | g' != g ensures claimed !! ManagerOf(s, g').claimed {
      assert ManagerOk(s, g', ManagerOf(s, g'));
    }
  }
}
