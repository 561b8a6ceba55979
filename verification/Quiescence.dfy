/** When the hand-off comes to rest: when a payment is listed, when it stays hidden for good, and a measure
    that only new funding raises and that is zero exactly at rest. */
module Quiescence {
  import opened Types
  import opened Docs
  import opened Vending
  import opened VendingInvariant
  import opened VendingTheorems
  import Claims
  import WalletDisk

  /** The doc of the machine that asked for the contract. */
  function DocOf(s: State, pay: PayId): Option<DocId>
    requires pay in s.ledger
  {
    ClaimedMachine(s, Issuer(s, pay)).ticket
  }

  /** A device's replica of that doc. */
  function DocReplica(s: State, d: Device, pay: PayId): Replica
    requires pay in s.ledger
  {
    if DocOf(s, pay).Some? then Rep(s, d, DocOf(s, pay).value) else map[]
  }

  function PaymentSlot(s: State, pay: PayId): Slot
    requires pay in s.ledger
  {
    Slot(Machine(Issuer(s, pay)), ContractKey(pay))
  }

  function TombstoneSlot(s: State, pay: PayId): Slot
    requires pay in s.ledger
  {
    Slot(Manager(Payee(s, pay)), ContractKey(pay))
  }

  // ---------------------------------------------------------------------------------------------
  // When a payment is listed
  // ---------------------------------------------------------------------------------------------

  /** The tombstone in this replica covers the machine's entry there. */
  predicate Covered(s: State, r: Replica, pay: PayId)
    requires pay in s.ledger
  {
    var p, t := PaymentSlot(s, pay), TombstoneSlot(s, pay);
    t in r && (p in r ==> Behind(r, p, t))
  }

  /** Of a payment that has reached a replica, the listing there hides it exactly when the payee's
      tombstone is there too and is the later of the two. The clocks of two devices decide that. */
  lemma HiddenExactlyWhenCovered(s: State, d: Device, pay: PayId)
    requires Inv(s) && pay in s.ledger && PaymentSlot(s, pay) in DocReplica(s, d, pay)
    ensures Visible(DocReplica(s, d, pay), ContractKey(pay)).None? <==> Covered(s, DocReplica(s, d, pay), pay)
  {
    TicketFacts(s, Issuer(s, pay), 0);
    assert TermsOk(s, pay, s.ledger[pay]);
    HiddenInDoc(s, d, DocOf(s, pay).value, pay);
  }

  lemma HiddenInDoc(s: State, d: Device, doc: DocId, pay: PayId)
    requires EntriesOk(s) && pay in s.ledger && TermsOk(s, pay, s.ledger[pay])
    requires doc in s.claims.makers && s.claims.makers[doc] == Issuer(s, pay)
    requires PaymentSlot(s, pay) in Rep(s, d, doc)
    ensures Visible(Rep(s, d, doc), ContractKey(pay)).None? <==> Covered(s, Rep(s, d, doc), pay)
  {
    var r := Rep(s, d, doc);
    forall slot | slot in r && slot.key == ContractKey(pay)
      ensures slot == PaymentSlot(s, pay) || slot == TombstoneSlot(s, pay)
      ensures r[slot].value.IsEmpty() <==> slot == TombstoneSlot(s, pay)
    {
      PaymentEntry(s, d, doc, slot, pay);
    }
    HiddenByOther(r, PaymentSlot(s, pay), TombstoneSlot(s, pay));
  }

  // ---------------------------------------------------------------------------------------------
  // When it can come back
  // ---------------------------------------------------------------------------------------------

  /** The tombstone in this replica covers any entry the machine has ever written there. */
  predicate Buried(s: State, d: Device, pay: PayId)
    requires pay in s.ledger
  {
    var p, t := PaymentSlot(s, pay), TombstoneSlot(s, pay);
    var own, r := DocReplica(s, Machine(Issuer(s, pay)), pay), DocReplica(s, d, pay);
    p in own && t in r && NotLater(p.author, own[p].ts, t.author, r[t].ts)
  }

  lemma BuriedIsHidden(s: State, d: Device, doc: DocId, pay: PayId)
    requires EntriesOk(s) && ClocksOk(s) && pay in s.ledger && TermsOk(s, pay, s.ledger[pay])
    requires DocOf(s, pay) == Some(doc) && doc in s.claims.makers && s.claims.makers[doc] == Issuer(s, pay)
    requires Buried(s, d, pay)
    ensures Visible(Rep(s, d, doc), ContractKey(pay)).None?
  {
    hide ClocksOk, EntriesOk, TermsOk, Visible;
    var r := Rep(s, d, doc);
    var p := PaymentSlot(s, pay);
    if p in r {
      EntryNotAhead(s, d, doc, p);
      HiddenInDoc(s, d, doc, pay);
    } else {
      OnlyTombstoneHides(s, d, doc, pay);
    }
  }

  lemma OnlyTombstoneHides(s: State, d: Device, doc: DocId, pay: PayId)
    requires EntriesOk(s) && pay in s.ledger && TermsOk(s, pay, s.ledger[pay])
    requires doc in s.claims.makers && s.claims.makers[doc] == Issuer(s, pay)
    requires PaymentSlot(s, pay) !in Rep(s, d, doc)
    ensures Visible(Rep(s, d, doc), ContractKey(pay)).None?
  {
    var r := Rep(s, d, doc);
    var o := LatestSlot(r, ContractKey(pay));
    if o.Some? {
      PaymentEntry(s, d, doc, o.value, pay);
    }
  }

  /** The machine puts a payment in its doc again only while its wallet still has it. */
  lemma RewrittenOnlyFromWallet(s: State, step: Step, m: MachineId, doc: DocId, pay: PayId)
    requires Inv(s) && Enabled(s, step)
    requires
      var slot := Slot(Machine(m), ContractKey(pay));
      slot in Rep(Apply(s, step), Machine(m), doc)
      && (slot in Rep(s, Machine(m), doc) ==>
           Rep(s, Machine(m), doc)[slot] != Rep(Apply(s, step), Machine(m), doc)[slot])
    ensures step.WritePayment? && step.m == m && step.pay == pay && pay in MachineOf(s, m).wallet
  {
    hide Apply, Enabled, Inv, ClocksOk, EntriesOk, LedgerOk, ManagersOk, Claims.Inv, WalletOk, MemoryOk;
    var slot := Slot(Machine(m), ContractKey(pay));
    InvParts(s);
    if !(PutOf(s, step).Put? && PutOf(s, step).slot == slot && !step.Sync?) {
      OnlyAuthorWrites(s, step, Machine(m), doc, slot);
    }
    WrittenIsInWallet(s, step);
  }

  lemma WrittenIsInWallet(s: State, step: Step)
    requires MachinesOk(s) && Enabled(s, step)
    ensures step.WritePayment? ==> step.pay in MachineOf(s, step.m).wallet
  {
    hide Apply, Claims.Enabled, Visible, SeenConfig, MemoryOk;
    if step.WritePayment? {
      assert MachineOk(s, step.m, MachineOf(s, step.m));
    }
  }

  /** It has left the wallet, and this replica's tombstone covers all the machine wrote. */
  predicate Settled(s: State, d: Device, pay: PayId) {
    pay in s.ledger && pay !in MachineOf(s, Issuer(s, pay)).wallet && Buried(s, d, pay)
  }

  lemma WalletGainsOnlyFunding(s: State, step: Step, m: MachineId, pay: PayId)
    requires Enabled(s, step) && pay !in MachineOf(s, m).wallet && pay in MachineOf(Apply(s, step), m).wallet
    ensures step.Fund? && step.pay == pay
  {
    hide Apply, Enabled, SeenConfig, WalletDisk.AfterSet, WalletDisk.AfterRestart, Claimable;
    StepOnMachine(s, step, m);
  }

  lemma StepKeepsSettled(s: State, step: Step, d: Device, pay: PayId)
    requires Inv(s) && Enabled(s, step) && Settled(s, d, pay) && !(step.Fund? && step.pay == pay)
    ensures Inv(Apply(s, step)) && Settled(Apply(s, step), d, pay)
  {
    hide Apply, Enabled, Inv, Grows;
    var s' := Apply(s, step);
    var m := Issuer(s, pay);
    var doc := DocOf(s, pay).value;
    StepKeepsInv(s, step);
    BuriedGrows(s, s', d, doc, pay);
    if pay in MachineOf(s', m).wallet {
      WalletGainsOnlyFunding(s, step, m, pay);
    }
    if Rep(s', Machine(m), doc)[PaymentSlot(s, pay)] != Rep(s, Machine(m), doc)[PaymentSlot(s, pay)] {
      RewrittenOnlyFromWallet(s, step, m, doc, pay);
    }
  }

  lemma BuriedGrows(s: State, s': State, d: Device, doc: DocId, pay: PayId)
    requires Grows(s, s') && pay in s.ledger && DocOf(s, pay) == Some(doc) && Buried(s, d, pay)
    ensures pay in s'.ledger && Issuer(s', pay) == Issuer(s, pay) && DocOf(s', pay) == Some(doc)
    ensures PaymentSlot(s, pay) in Rep(s', Machine(Issuer(s, pay)), doc)
    ensures
      var p, m := PaymentSlot(s, pay), Machine(Issuer(s, pay));
      Rep(s', m, doc)[p] == Rep(s, m, doc)[p] ==> Buried(s', d, pay)
  {
    OwnerKept(s, s', Issuer(s, pay));
    assert SlotGrows(Rep(s, Machine(Issuer(s, pay)), doc), Rep(s', Machine(Issuer(s, pay)), doc), PaymentSlot(s, pay));
    assert SlotGrows(Rep(s, d, doc), Rep(s', d, doc), TombstoneSlot(s, pay));
  }

  predicate NeverFunds(steps: seq<Step>, pay: PayId) {
    forall i :: 0 <= i < |steps| ==> !(steps[i].Fund? && steps[i].pay == pay)
  }

  lemma NeverFundsRest(steps: seq<Step>, pay: PayId)
    requires steps != [] && NeverFunds(steps, pay)
    ensures NeverFunds(steps[1..], pay) && !(steps[0].Fund? && steps[0].pay == pay)
  {
    var rest := steps[1..];
    forall i | 0 <= i < |rest| ensures !(rest[i].Fund? && rest[i].pay == pay) {
      assert rest[i] == steps[i + 1];
    }
  }

  lemma {:induction false} RunKeepsSettled(s: State, steps: seq<Step>, d: Device, pay: PayId)
    requires Inv(s) && Legal(s, steps) && Settled(s, d, pay) && NeverFunds(steps, pay)
    ensures Settled(Run(s, steps), d, pay)
    decreases |steps|
  {
    hide Apply, Enabled, Inv, Settled, NeverFunds;
    if steps != [] {
      NeverFundsRest(steps, pay);
      StepKeepsSettled(s, steps[0], d, pay);
      RunKeepsSettled(Apply(s, steps[0]), steps[1..], d, pay);
    }
  }

  lemma SettledIsHidden(s: State, d: Device, pay: PayId)
    requires Inv(s) && Settled(s, d, pay)
    ensures Visible(DocReplica(s, d, pay), ContractKey(pay)).None?
  {
    hide Visible, ClocksOk, EntriesOk;
    InvParts(s);
    TicketFacts(s, Issuer(s, pay), 0);
    assert TermsOk(s, pay, s.ledger[pay]);
    BuriedIsHidden(s, d, DocOf(s, pay).value, pay);
  }

  /** So once a payment has left the wallet and a tombstone that covers the machine's entry is in a
      replica, that replica never lists it again, however long the run goes on. */
  lemma SettledForever(s: State, steps: seq<Step>, d: Device, pay: PayId)
    requires Inv(s) && Legal(s, steps) && Settled(s, d, pay) && NeverFunds(steps, pay)
    ensures
      var s' := Run(s, steps);
      && pay in s'.ledger && pay !in MachineOf(s', Issuer(s', pay)).wallet
      && Visible(DocReplica(s', d, pay), ContractKey(pay)).None?
  {
    hide Inv, Apply, Enabled, Visible, Grows;
    RunKeepsInv(s, steps);
    RunKeepsSettled(s, steps, d, pay);
    SettledIsHidden(Run(s, steps), d, pay);
  }

  /** Without such a tombstone, delivering the machine's entry is enough to show the payment. */
  lemma UnburiedCanShow(s: State, d: Device, doc: DocId, pay: PayId) returns (steps: seq<Step>)
    requires Inv(s) && pay in s.ledger && DocOf(s, pay) == Some(doc) && HoldsDoc(s, d, doc)
    requires Wrote(s, Issuer(s, pay), pay) && !Buried(s, d, pay)
    ensures Legal(s, steps) && NeverFunds(steps, pay) && pay in Run(s, steps).ledger
    ensures Visible(DocReplica(Run(s, steps), d, pay), ContractKey(pay)).Some?
  {
    hide Inv, Apply, Enabled, Visible, EntriesOk, ClocksOk, LedgerOk, MachinesOk, ManagersOk, Claims.Inv;
    var m, p, t := Issuer(s, pay), PaymentSlot(s, pay), TombstoneSlot(s, pay);
    var step := Sync(Machine(m), d, doc, p);
    InvParts(s);
    SyncIs(s, Machine(m), d, doc, p);
    OwnEntryDelivered(s, d, doc, p);
    OthersUndelivered(s, Machine(m), d, doc, p, d, doc, t);
    var s' := Apply(s, step);
    steps := [step];
    assert steps[1..] == [];
    StepKeepsInv(s, step);
    HiddenExactlyWhenCovered(s', d, pay);
  }

  /** A payment that has left the wallet is hidden in a replica for the rest of every run that does not
      fund it again, if and only if it is settled there: there is a tombstone, and it covers the
      machine's entry. */
  lemma HiddenForGoodExactlyWhenSettled(s: State, d: Device, doc: DocId, pay: PayId)
    requires Inv(s) && pay in s.ledger && DocOf(s, pay) == Some(doc) && HoldsDoc(s, d, doc)
    requires Wrote(s, Issuer(s, pay), pay) && pay !in MachineOf(s, Issuer(s, pay)).wallet
    ensures Settled(s, d, pay) <==> StaysHidden(s, d, pay)
  {
    hide Inv, Apply, Enabled, Visible, Buried, Legal, NeverFunds;
    if Settled(s, d, pay) {
      forall steps | Legal(s, steps) && NeverFunds(steps, pay) ensures HiddenAfter(s, steps, d, pay) {
        SettledForever(s, steps, d, pay);
      }
    } else {
      var steps := UnburiedCanShow(s, d, doc, pay);
      assert !HiddenAfter(s, steps, d, pay);
    }
  }

  predicate HiddenAfter(s: State, steps: seq<Step>, d: Device, pay: PayId)
    requires Legal(s, steps)
  {
    var s' := Run(s, steps);
    pay in s'.ledger && Visible(DocReplica(s', d, pay), ContractKey(pay)).None?
  }

  ghost predicate StaysHidden(s: State, d: Device, pay: PayId) {
    forall steps :: Legal(s, steps) && NeverFunds(steps, pay) ==> HiddenAfter(s, steps, d, pay)
  }

  // ---------------------------------------------------------------------------------------------
  // The measure
  // ---------------------------------------------------------------------------------------------

  /** How far a payment is from rest: first it has to leave the machine's wallet, then the manager's
      tombstone has to cover it. */
  function Stage(s: State, pay: PayId): nat
    requires pay in s.ledger
  {
    if pay in MachineOf(s, Issuer(s, pay)).wallet then 2
    else if Buried(s, Manager(Payee(s, pay)), pay) then 0
    else 1
  }

  /** The two acts that bring it nearer: the machine's pass drops it from the wallet; the payee deletes it
      with a stamp that covers the machine's entry, once it is out of the wallet. */
  predicate Finishes(s: State, step: Step, pay: PayId)
    requires pay in s.ledger
  {
    if pay in MachineOf(s, Issuer(s, pay)).wallet then
      step.RemovePayments? && step.m == Issuer(s, pay) && pay in step.pays
    else
      && step.DeleteContract? && step.g == Payee(s, pay) && step.item.machine == Issuer(s, pay)
      && step.item.Pay() == pay && !Buried(s, Manager(Payee(s, pay)), pay)
      && PaymentSlot(s, pay) in DocReplica(s, Machine(Issuer(s, pay)), pay)
      && NotLater(Machine(Issuer(s, pay)), DocReplica(s, Machine(Issuer(s, pay)), pay)[PaymentSlot(s, pay)].ts,
                  Manager(Payee(s, pay)), step.ts)
  }

  lemma RemovingLeavesWallet(s: State, step: Step, pay: PayId)
    requires Enabled(s, step) && step.RemovePayments? && pay in step.pays
    ensures pay !in MachineOf(Apply(s, step), step.m).wallet
  {
  }

  lemma DeleteStep(s: State, step: Step)
    requires Enabled(s, step) && step.DeleteContract?
    ensures step.item.machine in Tickets(s, step.g)
    ensures
      var doc, slot := Tickets(s, step.g)[step.item.machine], Slot(Manager(step.g), ContractKey(step.item.Pay()));
      Apply(s, step) == PutEntry(s, Manager(step.g), doc, slot, Entry(step.ts, Empty))
  {
  }

  /** Deleting with a covering stamp buries the payment. */
  lemma DeletingBuries(s: State, step: Step, pay: PayId)
    requires Inv(s) && Enabled(s, step) && pay in s.ledger && pay !in MachineOf(s, Issuer(s, pay)).wallet
    requires Finishes(s, step, pay)
    ensures pay in Apply(s, step).ledger && Stage(Apply(s, step), pay) == 0
  {
    hide Inv, Enabled, Claims.Inv, Apply;
    InvHasClaims(s);
    DeleteStep(s, step);
    TicketFacts(s, step.item.machine, step.g);
  }

  lemma TombstoneIsDelete(s: State, step: Step, g: ManagerId, pay: PayId)
    requires Enabled(s, step) && PutOf(s, step).Put? && !step.Sync?
    requires PutOf(s, step).slot == Slot(Manager(g), ContractKey(pay))
    ensures step.DeleteContract? && step.g == g && step.item.Pay() == pay
    ensures
      step.item.machine in Tickets(s, g) && PutOf(s, step).doc == Tickets(s, g)[step.item.machine]
      && PutOf(s, step).e == Entry(step.ts, Empty)
  {
    hide Claims.Apply, Claims.Enabled, Visible, CanWrite, WalletDisk.AllInitialized, SeenConfig;
  }

  /** Out of the wallet, the machine's own entry stands still. */
  lemma OwnEntryStands(s: State, step: Step, pay: PayId)
    requires Inv(s) && Enabled(s, step) && pay in s.ledger && pay !in MachineOf(s, Issuer(s, pay)).wallet
    requires Wrote(s, Issuer(s, pay), pay)
    ensures
      var m, p := Issuer(s, pay), PaymentSlot(s, pay);
      && ClaimedMachine(Apply(s, step), m).ticket == DocOf(s, pay)
      && p in OwnReplica(Apply(s, step), m) && OwnReplica(Apply(s, step), m)[p] == OwnReplica(s, m)[p]
  {
    hide Inv, Apply, Enabled, Grows;
    var m, p, s' := Issuer(s, pay), PaymentSlot(s, pay), Apply(s, step);
    StepKeepsInv(s, step);
    OwnerKept(s, s', m);
    WroteKept(s, s', m, pay);
    var doc := DocOf(s, pay).value;
    if Rep(s, Machine(m), doc)[p] != Rep(s', Machine(m), doc)[p] {
      RewrittenOnlyFromWallet(s, step, m, doc, pay);
    }
  }

  /** Out of the wallet, only such a deletion buries it. */
  lemma OnlyDeletingBuries(s: State, step: Step, pay: PayId)
    requires Inv(s) && Enabled(s, step) && pay in s.ledger && pay !in MachineOf(s, Issuer(s, pay)).wallet
    requires Wrote(s, Issuer(s, pay), pay)
    requires pay in Apply(s, step).ledger && Apply(s, step).ledger[pay] == s.ledger[pay]
    requires !Buried(s, Manager(Payee(s, pay)), pay) && Buried(Apply(s, step), Manager(Payee(s, pay)), pay)
    ensures Finishes(s, step, pay)
  {
    hide Inv, Apply, Enabled, Claims.Inv, ClocksOk, EntriesOk, LedgerOk, MachinesOk, ManagersOk, PutOf;
    var g, t := Payee(s, pay), TombstoneSlot(s, pay);
    var doc := DocOf(s, pay).value;
    InvParts(s);
    OwnEntryStands(s, step, pay);
    if PutOf(s, step).NoPut? || PutOf(s, step).d != Manager(g) || PutOf(s, step).slot != t || step.Sync? {
      OnlyAuthorWrites(s, step, Manager(g), doc, t);
    } else {
      TicketFacts(s, Issuer(s, pay), 0);
      TombstoneIsDelete(s, step, g, pay);
      DeletingElsewhere(s, step, pay, doc);
    }
  }

  /** A deletion in another doc changes nothing here, and in this one it is of this machine's payment. */
  lemma DeletingElsewhere(s: State, step: Step, pay: PayId, doc: DocId)
    requires Claims.Inv(s.claims) && Enabled(s, step) && step.DeleteContract? && pay in s.ledger
    requires step.g == Payee(s, pay) && step.item.Pay() == pay && DocOf(s, pay) == Some(doc)
    requires doc in s.claims.makers && s.claims.makers[doc] == Issuer(s, pay)
    ensures
      var s', t := Apply(s, step), TombstoneSlot(s, pay);
      if step.item.machine == Issuer(s, pay) then
        t in Rep(s', Manager(step.g), doc) && Rep(s', Manager(step.g), doc)[t] == Entry(step.ts, Empty)
      else Rep(s', Manager(step.g), doc) == Rep(s, Manager(step.g), doc)
  {
    hide Apply, Enabled, Claims.Inv;
    DeleteStep(s, step);
    TicketFacts(s, step.item.machine, step.g);
  }

  /** A step brings a funded payment nearer to rest if and only if it is one of these acts; and but for
      funding it again, no step takes it back. */
  lemma StageFalls(s: State, step: Step, pay: PayId)
    requires Inv(s) && Enabled(s, step) && pay in s.funded && !(step.Fund? && step.pay == pay)
    ensures pay in s.ledger && pay in Apply(s, step).ledger && pay in Apply(s, step).funded
    ensures Stage(Apply(s, step), pay) <= Stage(s, pay)
    ensures Stage(Apply(s, step), pay) < Stage(s, pay) <==> Finishes(s, step, pay)
  {
    hide Inv, Apply, Enabled, Grows, Finishes, Buried, Wrote;
    var s' := Apply(s, step);
    FundedStays(s, step, pay);
    var m := Issuer(s, pay);
    if pay in MachineOf(s, m).wallet {
      LeavesWallet(s, step, pay);
    } else {
      if pay in MachineOf(s', m).wallet {
        WalletGainsOnlyFunding(s, step, m, pay);
      }
      if Buried(s, Manager(Payee(s, pay)), pay) {
        StepKeepsSettled(s, step, Manager(Payee(s, pay)), pay);
        if Finishes(s, step, pay) {
          NotTwice(s, step, pay);
        }
      } else if Finishes(s, step, pay) {
        DeletingBuries(s, step, pay);
      } else if Buried(s', Manager(Payee(s, pay)), pay) {
        OnlyDeletingBuries(s, step, pay);
      }
    }
  }

  lemma FundedStays(s: State, step: Step, pay: PayId)
    requires Inv(s) && Enabled(s, step) && pay in s.funded
    ensures pay in s.ledger && pay in Apply(s, step).ledger && Apply(s, step).ledger[pay] == s.ledger[pay]
    ensures pay in Apply(s, step).funded
    ensures pay in MachineOf(s, Issuer(s, pay)).wallet || Wrote(s, Issuer(s, pay), pay)
  {
    hide Apply, Enabled, Wrote;
    assert Kept(s, pay);
    StepKeepsInv(s, step);
  }

  lemma LeavesWallet(s: State, step: Step, pay: PayId)
    requires Inv(s) && Enabled(s, step) && pay in s.ledger && pay in MachineOf(s, Issuer(s, pay)).wallet
    ensures pay !in MachineOf(Apply(s, step), Issuer(s, pay)).wallet <==> Finishes(s, step, pay)
  {
    hide Apply, Enabled, Inv;
    var m := Issuer(s, pay);
    if pay !in MachineOf(Apply(s, step), m).wallet {
      WalletLoses(s, step, m, pay);
    }
    if Finishes(s, step, pay) {
      RemovingLeavesWallet(s, step, pay);
    }
  }

  lemma NotTwice(s: State, step: Step, pay: PayId)
    requires pay in s.ledger && Finishes(s, step, pay)
    ensures pay in MachineOf(s, Issuer(s, pay)).wallet || !Buried(s, Manager(Payee(s, pay)), pay)
  {
  }

  ghost function Work(s: State, pays: set<PayId>): nat
    requires pays <= s.ledger.Keys
  {
    if pays == {} then 0 else
      var p :| p in pays;
      Stage(s, p) + Work(s, pays - {p})
  }

  lemma {:induction false} WorkRemoves(s: State, pays: set<PayId>, p: PayId)
    requires pays <= s.ledger.Keys && p in pays
    ensures Work(s, pays) == Stage(s, p) + Work(s, pays - {p})
    decreases |pays|
  {
    hide Stage;
    var q :| q in pays && Work(s, pays) == Stage(s, q) + Work(s, pays - {q});
    if q != p {
      WorkRemoves(s, pays - {q}, p);
      WorkRemoves(s, pays - {p}, q);
      assert pays - {q} - {p} == pays - {p} - {q};
    }
  }

  lemma {:induction false} WorkCompares(s: State, s': State, pays: set<PayId>)
    requires pays <= s.ledger.Keys && pays <= s'.ledger.Keys
    requires forall p :: p in pays ==> Stage(s', p) <= Stage(s, p)
    ensures Work(s', pays) <= Work(s, pays)
    ensures Work(s', pays) < Work(s, pays) <==> exists p :: p in pays && Stage(s', p) < Stage(s, p)
    decreases |pays|
  {
    hide Stage;
    if pays != {} {
      var p :| p in pays;
      WorkRemoves(s, pays, p);
      WorkRemoves(s', pays, p);
      WorkCompares(s, s', pays - {p});
      assert forall q :: q in pays ==> q == p || q in pays - {p};
    }
  }

  predicate Funds(step: Step, pays: set<PayId>) {
    step.Fund? && step.pay in pays
  }

  predicate NeverFundsAny(steps: seq<Step>, pays: set<PayId>) {
    forall i :: 0 <= i < |steps| ==> !Funds(steps[i], pays)
  }

  /** The step is one of the two acts for one of these payments. */
  ghost predicate Useful(s: State, step: Step, pays: set<PayId>)
    requires pays <= s.ledger.Keys
  {
    exists pay :: pay in pays && Finishes(s, step, pay)
  }

  /** No step but funding them again raises the work left on these payments, not even a crash or a stale
      replica; and the steps that lower it are exactly those acts. */
  lemma StepKeepsWork(s: State, step: Step, pays: set<PayId>)
    requires Inv(s) && Enabled(s, step) && pays <= s.funded && pays <= s.ledger.Keys && !Funds(step, pays)
    ensures pays <= Apply(s, step).funded && pays <= Apply(s, step).ledger.Keys
    ensures Work(Apply(s, step), pays) <= Work(s, pays)
    ensures Work(Apply(s, step), pays) < Work(s, pays) <==> Useful(s, step, pays)
  {
    hide Inv, Apply, Enabled, Stage, Finishes;
    var s' := Apply(s, step);
    forall pay | pay in pays
      ensures pay in s'.ledger && pay in s'.funded && Stage(s', pay) <= Stage(s, pay)
      ensures Stage(s', pay) < Stage(s, pay) <==> Finishes(s, step, pay)
    {
      StageFalls(s, step, pay);
    }
    WorkCompares(s, s', pays);
  }

  ghost function UsefulSteps(s: State, steps: seq<Step>, pays: set<PayId>): nat
    requires Inv(s) && Legal(s, steps) && pays <= s.funded && pays <= s.ledger.Keys && NeverFundsAny(steps, pays)
    decreases |steps|
  {
    if steps == [] then 0 else
      StepKeepsInv(s, steps[0]);
      StepKeepsWork(s, steps[0], pays);
      NeverFundsAnyRest(steps, pays);
      (if Useful(s, steps[0], pays) then 1 else 0) + UsefulSteps(Apply(s, steps[0]), steps[1..], pays)
  }

  lemma NeverFundsAnyRest(steps: seq<Step>, pays: set<PayId>)
    requires steps != [] && NeverFundsAny(steps, pays)
    ensures !Funds(steps[0], pays) && NeverFundsAny(steps[1..], pays)
  {
    var rest := steps[1..];
    forall i | 0 <= i < |rest| ensures !Funds(rest[i], pays) {
      assert rest[i] == steps[i + 1];
    }
  }

  /** So however long a run goes on without funding them again, at most twice as many of its steps are such
      acts as there are payments. */
  lemma {:induction false} UsefulStepsAreBounded(s: State, steps: seq<Step>, pays: set<PayId>)
    requires Inv(s) && Legal(s, steps) && pays <= s.funded && pays <= s.ledger.Keys && NeverFundsAny(steps, pays)
    ensures pays <= Run(s, steps).ledger.Keys
    ensures UsefulSteps(s, steps, pays) + Work(Run(s, steps), pays) <= Work(s, pays) <= 2 * |pays|
    decreases |steps|
  {
    hide Inv, Apply, Enabled, Work, Useful;
    NoWorkLeft(s, pays);
    if steps != [] {
      StepKeepsInv(s, steps[0]);
      StepKeepsWork(s, steps[0], pays);
      NeverFundsAnyRest(steps, pays);
      UsefulStepsAreBounded(Apply(s, steps[0]), steps[1..], pays);
    }
  }

  /** No work is left exactly when every one of these payments is settled in its manager's replica. */
  lemma {:induction false} NoWorkLeft(s: State, pays: set<PayId>)
    requires pays <= s.ledger.Keys
    ensures Work(s, pays) == 0 <==> forall pay :: pay in pays ==> Settled(s, Manager(Payee(s, pay)), pay)
    ensures Work(s, pays) <= 2 * |pays|
    decreases |pays|
  {
    hide Buried;
    if pays != {} {
      var p :| p in pays;
      WorkRemoves(s, pays, p);
      NoWorkLeft(s, pays - {p});
      assert forall q :: q in pays ==> q == p || q in pays - {p};
    }
  }

  /** At rest, for the remainder of any run that does not fund it again, a payment is paid, its manager
      cannot list it, and its machine cannot write it. */
  lemma NothingMovesAgain(s: State, steps: seq<Step>, pay: PayId, ts: nat)
    requires Inv(s) && Legal(s, steps) && NeverFunds(steps, pay) && pay in s.ledger
    requires Settled(s, Manager(Payee(s, pay)), pay)
    ensures
      var s' := Run(s, steps);
      && pay in s'.ledger && s'.ledger[pay] == s.ledger[pay] && Paid(s', pay)
      && !Enabled(s', ListContract(Payee(s, pay), Issuer(s, pay), pay))
      && !Enabled(s', WritePayment(Issuer(s, pay), pay, ts))
  {
    hide Inv, Apply, Enabled, Visible, Grows, Buried, Legal, NeverFunds, Paid;
    var s' := Run(s, steps);
    RunKeepsInv(s, steps);
    LedgerStays(s, s', pay);
    RunKeepsSettled(s, steps, Manager(Payee(s, pay)), pay);
    SettledIsAtRest(s', pay, ts);
  }

  lemma LedgerStays(s: State, s': State, pay: PayId)
    requires Grows(s, s') && pay in s.ledger
    ensures pay in s'.ledger && s'.ledger[pay] == s.ledger[pay]
  {
  }

  lemma SettledIsAtRest(s: State, pay: PayId, ts: nat)
    requires Inv(s) && pay in s.ledger && Settled(s, Manager(Payee(s, pay)), pay)
    ensures Paid(s, pay)
    ensures !Enabled(s, ListContract(Payee(s, pay), Issuer(s, pay), pay))
    ensures !Enabled(s, WritePayment(Issuer(s, pay), pay, ts))
  {
    hide Inv, Visible, ClocksOk, EntriesOk, Claims.Inv, ManagersOk, LedgerOk, MemoryOk, Claims.Enabled, Claims.Apply;
    var m, g := Issuer(s, pay), Payee(s, pay);
    InvParts(s);
    TicketFacts(s, m, g);
    SettledIsHidden(s, Manager(g), pay);
    SettledIsPaid(s, pay);
    assert MachineOk(s, m, MachineOf(s, m));
  }

  lemma SettledIsPaid(s: State, pay: PayId)
    requires Inv(s) && pay in s.ledger && Settled(s, Manager(Payee(s, pay)), pay)
    ensures Paid(s, pay)
  {
    TicketFacts(s, Issuer(s, pay), 0);
    assert TermsOk(s, pay, s.ledger[pay]);
    PaymentEntry(s, Manager(Payee(s, pay)), DocOf(s, pay).value, TombstoneSlot(s, pay), pay);
  }
}
