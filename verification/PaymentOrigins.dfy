/** Where contracts come from: over whole runs, every copy of a contract names an outpoint that was paid for it. */
module PaymentOrigins {
  import opened Types
  import opened Docs
  import opened Vending
  import opened VendingInvariant
  import opened VendingTheorems
  import Claims
  import WalletDisk

  /** What a step pays into which outpoint. */
  function PaidBy(step: Step): set<(PayId, nat)> {
    if step.Fund? then {(step.pay, step.outpoint)} else {}
  }

  function PaidIn(steps: seq<Step>): set<(PayId, nat)> {
    if steps == [] then {} else PaidBy(steps[0]) + PaidIn(steps[1..])
  }

  predicate WalletComes(s: State, paid: set<(PayId, nat)>, m: MachineId) {
    var d := MachineOf(s, m);
    && (forall pay :: pay in d.wallet ==> (pay, d.wallet[pay].outpoint) in paid)
    && (forall pay :: pay in d.batch ==> (pay, d.batch[pay].outpoint) in paid)
  }

  predicate ItemComes(paid: set<(PayId, nat)>, item: Item) {
    (item.Pay(), item.contract.outpoint) in paid
  }

  predicate ItemsCome(s: State, paid: set<(PayId, nat)>, g: ManagerId) {
    && (forall item :: item in ManagerOf(s, g).listed ==> ItemComes(paid, item))
    && (forall item :: item in ManagerOf(s, g).swept ==> ItemComes(paid, item))
  }

  predicate EntryComes(paid: set<(PayId, nat)>, slot: Slot, e: Entry) {
    slot.key.ContractKey? && e.value.ContractValue? ==> (slot.key.pay, e.value.contract.outpoint) in paid
  }

  ghost predicate EntriesCome(s: State, paid: set<(PayId, nat)>) {
    forall d, doc, slot :: slot in Rep(s, d, doc) ==> EntryComes(paid, slot, Rep(s, d, doc)[slot])
  }

  ghost predicate ContractsCome(s: State, paid: set<(PayId, nat)>) {
    (forall m :: WalletComes(s, paid, m)) && (forall g :: ItemsCome(s, paid, g)) && EntriesCome(s, paid)
  }

  lemma StepKeepsWallet(s: State, step: Step, paid: set<(PayId, nat)>, m: MachineId)
    requires Enabled(s, step) && WalletComes(s, paid, m)
    ensures WalletComes(Apply(s, step), paid + PaidBy(step), m)
  {
    hide Apply, Enabled, SeenConfig, WalletDisk.AfterSet, WalletDisk.AfterRestart;
    StepOnMachine(s, step, m);
  }

  lemma StepKeepsItems(s: State, step: Step, paid: set<(PayId, nat)>, g: ManagerId)
    requires Inv(s) && Enabled(s, step) && ItemsCome(s, paid, g) && EntriesCome(s, paid)
    ensures ItemsCome(Apply(s, step), paid + PaidBy(step), g)
  {
    hide Apply, Enabled, Inv, ListedItem, EntriesCome, ItemComes, WalletDisk.AfterSet, WalletDisk.AfterRestart;
    StepOnManager(s, step, g);
    MoreIsPaid(paid, PaidBy(step));
    ClaimingIsOfListed(s, step);
    if step.ListContract? {
      ListedComes(s, step, paid);
    }
  }

  lemma MoreIsPaid(paid: set<(PayId, nat)>, more: set<(PayId, nat)>)
    ensures forall item :: ItemComes(paid, item) ==> ItemComes(paid + more, item)
    ensures forall slot, e :: EntryComes(paid, slot, e) ==> EntryComes(paid + more, slot, e)
  {
  }

  lemma ClaimingIsOfListed(s: State, step: Step)
    requires Enabled(s, step)
    ensures step.ClaimContract? ==> step.item in ManagerOf(s, step.g).listed
  {
  }

  lemma ListedComes(s: State, step: Step, paid: set<(PayId, nat)>)
    requires Inv(s) && step.ListContract? && Enabled(s, step) && EntriesCome(s, paid)
    ensures ItemComes(paid, ListedItem(s, step))
  {
    hide Inv, Claims.Inv, EntriesOk, ClocksOk, LedgerOk, MachinesOk, ManagersOk, ItemOk, Claims.Enabled;
    InvParts(s);
    ListedItemIsOk(s, step);
    var r := Rep(s, Manager(step.g), Tickets(s, step.g)[step.m]);
    var slot := LatestSlot(r, ContractKey(step.pay)).value;
    assert EntryComes(paid, slot, r[slot]);
  }

  lemma PutComes(s: State, step: Step, paid: set<(PayId, nat)>)
    requires Enabled(s, step) && EntriesCome(s, paid) && forall m :: WalletComes(s, paid, m)
    ensures PutOf(s, step).Put? ==> EntryComes(paid, PutOf(s, step).slot, PutOf(s, step).e)
  {
    hide Visible, CanWrite, Acceptable;
    if step.WritePayment? {
      assert WalletComes(s, paid, step.m);
    } else if step.Sync? {
      assert EntryComes(paid, step.slot, Rep(s, step.from, step.doc)[step.slot]);
    }
  }

  lemma StepKeepsEntriesCome(s: State, step: Step, paid: set<(PayId, nat)>)
    requires Enabled(s, step) && EntriesCome(s, paid) && forall m :: WalletComes(s, paid, m)
    ensures EntriesCome(Apply(s, step), paid + PaidBy(step))
  {
    hide Apply, Enabled, PutOf, WalletComes, EntryComes;
    StepPuts(s, step);
    PutComes(s, step, paid);
    MoreIsPaid(paid, PaidBy(step));
    var s', p := Apply(s, step), PutOf(s, step);
    forall d, doc, slot | slot in Rep(s', d, doc)
      ensures EntryComes(paid + PaidBy(step), slot, Rep(s', d, doc)[slot])
    {
      var r := Rep(s, d, doc);
      assert Rep(s', d, doc) == if p.Put? && p.d == d && p.doc == doc then r[p.slot := p.e] else r;
      if slot in r {
        assert EntryComes(paid, slot, r[slot]);
      }
    }
  }

  lemma StepKeepsContracts(s: State, step: Step, paid: set<(PayId, nat)>)
    requires Inv(s) && Enabled(s, step) && ContractsCome(s, paid)
    ensures ContractsCome(Apply(s, step), paid + PaidBy(step))
  {
    hide Apply, Enabled, Inv, WalletComes, ItemsCome, EntriesCome;
    StepKeepsEntriesCome(s, step, paid);
    forall m ensures WalletComes(Apply(s, step), paid + PaidBy(step), m) {
      StepKeepsWallet(s, step, paid, m);
    }
    forall g ensures ItemsCome(Apply(s, step), paid + PaidBy(step), g) {
      StepKeepsItems(s, step, paid, g);
    }
  }

  lemma {:induction false} RunKeepsContracts(s: State, steps: seq<Step>, paid: set<(PayId, nat)>)
    requires Inv(s) && Legal(s, steps) && ContractsCome(s, paid)
    ensures ContractsCome(Run(s, steps), paid + PaidIn(steps))
    decreases |steps|
  {
    hide Apply, Enabled, Inv, ContractsCome, PaidBy, Grows;
    if steps == [] {
      assert paid + {} == paid;
    } else {
      StepKeepsInv(s, steps[0]);
      StepKeepsContracts(s, steps[0], paid);
      RunKeepsContracts(Apply(s, steps[0]), steps[1..], paid + PaidBy(steps[0]));
      assert paid + PaidBy(steps[0]) + PaidIn(steps[1..]) == paid + PaidIn(steps);
    }
  }

  lemma NothingPaidYet()
    ensures ContractsCome(INIT, {})
  {
  }

  /** In every run, each contract that a wallet holds, that stands in a replica at a payment's key, or that a
      manager has listed or claimed names an outpoint into which that payment was made earlier in the run.
      So when a contract is paid twice, every copy of it is the one of the two payments or the other, and
      never anything else. */
  lemma ContractsNamePaidOutpoints(steps: seq<Step>)
    requires Legal(INIT, steps)
    ensures
      var s, paid := Run(INIT, steps), PaidIn(steps);
      && (forall m, pay :: pay in MachineOf(s, m).wallet ==> (pay, MachineOf(s, m).wallet[pay].outpoint) in paid)
      && (forall d, doc, slot :: slot in Rep(s, d, doc) ==> EntryComes(paid, slot, Rep(s, d, doc)[slot]))
      && (forall g, item :: item in ManagerOf(s, g).listed || item in ManagerOf(s, g).swept ==>
            (item.Pay(), item.contract.outpoint) in paid)
  {
    hide Legal, Run, Inv, PaidIn;
    InitIsOk();
    NothingPaidYet();
    RunKeepsContracts(INIT, steps, {});
    var s, paid := Run(INIT, steps), PaidIn(steps);
    assert {} + paid == paid;
    forall m, pay | pay in MachineOf(s, m).wallet ensures (pay, MachineOf(s, m).wallet[pay].outpoint) in paid {
      assert WalletComes(s, paid, m);
    }
    forall g, item | item in ManagerOf(s, g).listed || item in ManagerOf(s, g).swept
      ensures (item.Pay(), item.contract.outpoint) in paid
    {
      assert ItemsCome(s, paid, g);
    }
  }
}
