/** The invariant of the whole system, and the proof that every step keeps it. */
module VendingInvariant {
  import opened Types
  import opened Docs
  import opened Vending
  import Claims
  import WalletDisk

  ghost predicate OwnedBy(s: State, m: MachineId, g: ManagerId) {
    ClaimedMachine(s, m).disk == Some(g)
  }

  /** The machine asked for this contract, and it has been paid. */
  predicate PaymentOk(s: State, m: MachineId, pay: PayId, c: Contract) {
    && pay in s.funded && pay in s.ledger
    && s.ledger[pay] == Terms(m, c.claimPk, c.amount) && c.id == pay.contract
  }

  predicate MachineJoined(s: State, m: MachineId, f: Hash) {
    WalletDisk.HasJoined(MachineOf(s, m).disk, MachineOf(s, m).running, f)
  }

  predicate ManagerJoined(s: State, g: ManagerId, f: Hash) {
    WalletDisk.HasJoined(ManagerOf(s, g).disk, ManagerOf(s, g).running, f)
  }

  /** The manager's own claim key, for a federation it has joined. */
  predicate ConfigOk(s: State, g: ManagerId, config: MachineConfig) {
    && config.claimerPk == ClaimKey(g, config.invite.federation)
    && ManagerJoined(s, g, config.invite.federation)
  }

  /** Only the machine writes payments, only its owner writes configs and tombstones, and a
      tombstone stands only on a payment its author has claimed. */
  predicate EntryFrom(s: State, m: MachineId, slot: Slot, v: Value) {
    match slot.author
    case Machine(a) =>
      && a == m && !slot.key.ConfigKey?
      && (slot.key.ContractKey? ==> v.ContractValue? && PaymentOk(s, m, slot.key.pay, v.contract))
      && (slot.key.KvKey? ==> v.KvValue?)
    case Manager(g) =>
      && ClaimedMachine(s, m).disk == Some(g)
      && (slot.key.ContractKey? ==> v.Empty? && slot.key.pay in ManagerOf(s, g).claimed)
      && (slot.key.ConfigKey? ==> v.ConfigValue? && ConfigOk(s, g, v.config))
      && (slot.key.KvKey? ==> v.KvValue?)
  }

  predicate EntryOk(s: State, doc: DocId, slot: Slot, e: Entry) {
    doc in s.claims.makers && EntryFrom(s, s.claims.makers[doc], slot, e.value)
  }

  /** No replica is ahead of the author's own: entries travel unchanged from where they are written. */
  predicate NotAhead(s: State, doc: DocId, slot: Slot, e: Entry) {
    var own := Rep(s, slot.author, doc);
    slot in own && e.ts <= own[slot].ts && (e.ts == own[slot].ts ==> e == own[slot])
  }

  /** The machine has put this payment in its own doc. */
  predicate Wrote(s: State, m: MachineId, pay: PayId) {
    Slot(Machine(m), ContractKey(pay)) in OwnReplica(s, m)
  }

  predicate KeyOk(s: State, m: MachineId, config: MachineConfig) {
    ClaimedMachine(s, m).disk.Some? && ConfigOk(s, ClaimedMachine(s, m).disk.value, config)
  }

  ghost predicate WalletOk(s: State, m: MachineId, d: MachineData) {
    && (forall pay :: pay in d.wallet ==> PaymentOk(s, m, pay, d.wallet[pay]))
    && (forall pay :: pay in d.batch ==> pay in d.wallet && PaymentOk(s, m, pay, d.batch[pay]))
  }

  ghost predicate MemoryOk(s: State, m: MachineId, d: MachineData) {
    && (forall config :: config in d.seen ==> KeyOk(s, m, config))
    && (forall pay :: pay in d.written ==> Wrote(s, m, pay))
  }

  ghost predicate MachineOk(s: State, m: MachineId, d: MachineData) {
    WalletOk(s, m, d) && MemoryOk(s, m, d) && WalletDisk.ClientsOk(d.disk)
  }

  predicate ItemOk(s: State, item: Item) {
    PaymentOk(s, item.machine, item.Pay(), item.contract)
  }

  predicate ClaimOk(s: State, g: ManagerId, pay: PayId) {
    pay in s.funded && pay in s.ledger && s.ledger[pay].claimPk == ClaimKey(g, pay.federation)
  }

  ghost predicate ClaimsOk(s: State, g: ManagerId, d: ManagerData) {
    && (forall pay :: pay in d.claimed ==> ClaimOk(s, g, pay))
    && d.claimed <= s.ledger.Keys && d.credit == Total(s.ledger, d.claimed)
  }

  ghost predicate PassesOk(s: State, g: ManagerId, d: ManagerData) {
    && (forall item :: item in d.listed ==> ItemOk(s, item))
    && (forall item :: item in d.swept ==> ItemOk(s, item) && item.Pay() in d.claimed)
    && (forall config :: config in d.plans ==> ConfigOk(s, g, config))
  }

  ghost predicate ManagerOk(s: State, g: ManagerId, d: ManagerData) {
    ClaimsOk(s, g, d) && PassesOk(s, g, d) && WalletDisk.ClientsOk(d.disk)
  }

  /** The contract pays the claim key that the issuing machine's owner holds for its federation, which the
      machine has joined. */
  predicate TermsOk(s: State, pay: PayId, t: Terms) {
    var owner := ClaimedMachine(s, t.issuer).disk;
    && owner.Some? && t.claimPk == ClaimKey(owner.value, pay.federation)
    && MachineJoined(s, t.issuer, pay.federation)
  }

  /** A paid contract is in the issuer's wallet or was put in its doc. */
  predicate Kept(s: State, pay: PayId) {
    pay in s.ledger && (pay in MachineOf(s, s.ledger[pay].issuer).wallet || Wrote(s, s.ledger[pay].issuer, pay))
  }

  ghost predicate EntriesOk(s: State) {
    forall d, doc, slot :: slot in Rep(s, d, doc) ==> EntryOk(s, doc, slot, Rep(s, d, doc)[slot])
  }

  ghost predicate ClocksOk(s: State) {
    forall d, doc, slot :: slot in Rep(s, d, doc) ==> NotAhead(s, doc, slot, Rep(s, d, doc)[slot])
  }

  ghost predicate MachinesOk(s: State) {
    forall m :: MachineOk(s, m, MachineOf(s, m))
  }

  ghost predicate ManagersOk(s: State) {
    forall g :: ManagerOk(s, g, ManagerOf(s, g))
  }

  ghost predicate LedgerOk(s: State) {
    && (forall pay :: pay in s.ledger ==> TermsOk(s, pay, s.ledger[pay]))
    && (forall pay :: pay in s.funded ==> Kept(s, pay))
  }

  ghost predicate Inv(s: State) {
    Claims.Inv(s.claims) && EntriesOk(s) && ClocksOk(s) && MachinesOk(s) && ManagersOk(s) && LedgerOk(s)
  }

  /** For proofs that keep the invariant closed otherwise. */
  lemma InvHasClaims(s: State)
    requires Inv(s)
    ensures Claims.Inv(s.claims)
  {
  }

  lemma InvParts(s: State)
    requires Inv(s)
    ensures Claims.Inv(s.claims) && EntriesOk(s) && ClocksOk(s) && MachinesOk(s) && ManagersOk(s) && LedgerOk(s)
  {
  }

  // ---------------------------------------------------------------------------------------------
  // Facts that are never lost
  // ---------------------------------------------------------------------------------------------

  /** A slot keeps its entry or gets a newer one. */
  predicate SlotGrows(a: Replica, b: Replica, slot: Slot) {
    slot in a ==> slot in b && a[slot].ts <= b[slot].ts && (a[slot].ts == b[slot].ts ==> a[slot] == b[slot])
  }

  ghost predicate ReplicasGrow(s: State, s': State) {
    forall d, doc, slot {:trigger slot in Rep(s, d, doc)} {:trigger slot in Rep(s', d, doc)} ::
      SlotGrows(Rep(s, d, doc), Rep(s', d, doc), slot)
  }

  ghost predicate LedgerGrows(s: State, s': State) {
    && s.funded <= s'.funded
    && (forall pay :: pay in s.ledger ==> pay in s'.ledger && s'.ledger[pay] == s.ledger[pay])
  }

  ghost predicate ManagersGrow(s: State, s': State) {
    forall g {:trigger ManagerOf(s', g)} :: ManagerOf(s, g).claimed <= ManagerOf(s', g).claimed
  }

  ghost predicate JoinsGrow(s: State, s': State) {
    && (forall m: MachineId, f: Hash :: MachineJoined(s, m, f) ==> MachineJoined(s', m, f))
    && (forall g: ManagerId, f: Hash :: ManagerJoined(s, g, f) ==> ManagerJoined(s', g, f))
  }

  ghost predicate Grows(s: State, s': State) {
    && Claims.Durable(s.claims, s'.claims) && ReplicasGrow(s, s') && LedgerGrows(s, s')
    && ManagersGrow(s, s') && JoinsGrow(s, s')
  }

  lemma StepKeepsClaims(s: State, step: Step)
    requires Claims.Inv(s.claims) && Enabled(s, step)
    ensures Claims.Inv(Apply(s, step).claims) && Claims.Durable(s.claims, Apply(s, step).claims)
  {
    if step.Handshake? {
      Claims.StepKeepsInv(s.claims, step.step);
      Claims.StepIsDurable(s.claims, step.step);
      assert Apply(s, step).claims == Claims.Apply(s.claims, step.step);
    } else {
      assert Apply(s, step).claims == s.claims;
      Claims.DurableIsReflexive(s.claims);
    }
  }

  /** The entry a step puts into a replica, if it puts one. */
  datatype Put = NoPut | Put(d: Device, doc: DocId, slot: Slot, e: Entry)

  function PutOf(s: State, step: Step): Put
    requires Enabled(s, step)
  {
    match step
    case WritePayment(m, pay, ts) =>
      Put(Machine(m), ClaimedMachine(s, m).ticket.value, Slot(Machine(m), ContractKey(pay)),
          Entry(ts, ContractValue(MachineOf(s, m).batch[pay])))
    case WriteConfig(g, m, config, ts) =>
      Put(Manager(g), Tickets(s, g)[m], Slot(Manager(g), ConfigKey), Entry(ts, ConfigValue(config)))
    case DeleteContract(g, item, ts) =>
      Put(Manager(g), Tickets(s, g)[item.machine], Slot(Manager(g), ContractKey(item.Pay())), Entry(ts, Empty))
    case MachineSetsKv(m, user, bytes, ts) =>
      Put(Machine(m), ClaimedMachine(s, m).ticket.value, Slot(Machine(m), KvKey(user)), Entry(ts, KvValue(bytes)))
    case ManagerSetsKv(g, m, user, bytes, ts) =>
      Put(Manager(g), Tickets(s, g)[m], Slot(Manager(g), KvKey(user)), Entry(ts, KvValue(bytes)))
    case Sync(from, to, doc, slot) =>
      var e := Rep(s, from, doc)[slot];
      if Acceptable(Rep(s, to, doc), slot, e.ts) then Put(to, doc, slot, e) else NoPut
    case _ => NoPut
  }

  /** Replicas change by nothing else, and only by entries newer than the one in their slot. */
  lemma StepPuts(s: State, step: Step)
    requires Enabled(s, step)
    ensures
      var p := PutOf(s, step);
      var s' := Apply(s, step);
      if p.NoPut? then s'.replicas == s.replicas
      else
        && s'.replicas == PutEntry(s, p.d, p.doc, p.slot, p.e).replicas
        && Acceptable(Rep(s, p.d, p.doc), p.slot, p.e.ts)
  {
    hide Claims.Apply, Claims.Enabled, Visible, Claimable, WalletDisk.AfterSet;
    hide WalletDisk.AfterRestart, WalletDisk.AllInitialized, SeenConfig;
  }

  /** What a step leaves of one machine's data. */
  function NextMachine(s: State, step: Step, m: MachineId): MachineData
    requires Enabled(s, step)
  {
    var d := MachineOf(s, m);
    match step
    case Handshake(cs) =>
      if cs == Claims.CrashMachine(m) then
        d.(disk := NoClients(d.disk), running := false, seen := {}, batch := map[], written := {})
      else d
    case ReadConfig(a) => if a == m then d.(seen := d.seen + {SeenConfig(s, m).value}) else d
    case MachineSetsDefault(a, config, join, written) =>
      if a == m then d.(disk := WalletDisk.AfterSet(d.disk, config.invite, join, written)) else d
    case RestartMachine(a) =>
      if a == m then d.(disk := WalletDisk.AfterRestart(d.disk), running := true) else d
    case Fund(pay, outpoint) =>
      var t := s.ledger[pay];
      if t.issuer == m then d.(wallet := d.wallet[pay := Contract(pay.contract, t.claimPk, t.amount, outpoint)])
      else d
    case FetchBatch(a, config) => if a == m then d.(written := {}, batch := Claimable(d.wallet, config)) else d
    case WritePayment(a, pay, _) => if a == m then d.(written := d.written + {pay}) else d
    case RemovePayments(a, pays) =>
      if a == m then d.(wallet := d.wallet - pays, batch := map[], written := {}) else d
    case _ => d
  }

  /** The steps that a manager takes, and deliveries between replicas. */
  predicate IsManagers(step: Step) {
    || step.ManagerSetsDefault? || step.RestartManager? || step.PlanConfig? || step.WriteConfig?
    || step.ListContract? || step.ClaimContract? || step.DeleteContract? || step.ManagerSetsKv? || step.Sync?
  }

  lemma ManagersLeaveMachines(s: State, step: Step, m: MachineId)
    requires Enabled(s, step) && IsManagers(step)
    ensures MachineOf(Apply(s, step), m) == NextMachine(s, step, m)
  {
    hide Visible, CanWrite, WalletDisk.AfterSet, WalletDisk.AfterRestart;
    hide HoldsDoc, Acceptable, WalletDisk.AllInitialized;
  }

  lemma MachinesChangeMachines(s: State, step: Step, m: MachineId)
    requires Enabled(s, step) && !IsManagers(step)
    ensures MachineOf(Apply(s, step), m) == NextMachine(s, step, m)
  {
    hide Claims.Apply, Claims.Enabled, Visible, CanWrite, Claimable, WalletDisk.AfterSet, WalletDisk.AfterRestart;
    hide SeenConfig, WalletDisk.AllInitialized;
  }

  lemma StepOnMachine(s: State, step: Step, m: MachineId)
    requires Enabled(s, step)
    ensures MachineOf(Apply(s, step), m) == NextMachine(s, step, m)
  {
    hide Apply, Enabled, NextMachine, IsManagers;
    if IsManagers(step) {
      ManagersLeaveMachines(s, step, m);
    } else {
      MachinesChangeMachines(s, step, m);
    }
  }

  /** What a step leaves of one manager's data. */
  function NextManager(s: State, step: Step, g: ManagerId): ManagerData
    requires Enabled(s, step)
  {
    var d := ManagerOf(s, g);
    match step
    case Handshake(cs) =>
      if cs == Claims.CrashManager(g) then
        d.(disk := NoClients(d.disk), running := false, listed := {}, swept := {}, plans := {})
      else d
    case ManagerSetsDefault(a, invite, join, written) =>
      if a == g then d.(disk := WalletDisk.AfterSet(d.disk, invite, join, written)) else d
    case RestartManager(a) =>
      if a == g then d.(disk := WalletDisk.AfterRestart(d.disk), running := true) else d
    case PlanConfig(a) => if a == g then d.(plans := d.plans + {PlannedConfig(g, d.disk.default.value)}) else d
    case ListContract(a, _, _) => if a == g then d.(listed := d.listed + {ListedItem(s, step)}) else d
    case ClaimContract(a, item) =>
      if a == g then
        d.(claimed := d.claimed + {item.Pay()}, swept := d.swept + {item},
           credit := d.credit + if item.Pay() in d.claimed then 0 else s.ledger[item.Pay()].amount)
      else d
    case _ => d
  }

  lemma MachinesLeaveManagers(s: State, step: Step, g: ManagerId)
    requires Enabled(s, step) && !IsManagers(step)
    ensures ManagerOf(Apply(s, step), g) == NextManager(s, step, g)
  {
    hide Claims.Apply, Claims.Enabled, Visible, CanWrite, Claimable, WalletDisk.AfterSet, WalletDisk.AfterRestart;
    hide SeenConfig, WalletDisk.AllInitialized;
  }

  lemma ManagersChangeManagers(s: State, step: Step, g: ManagerId)
    requires Enabled(s, step) && IsManagers(step)
    ensures ManagerOf(Apply(s, step), g) == NextManager(s, step, g)
  {
    hide Visible, CanWrite, WalletDisk.AfterSet, WalletDisk.AfterRestart;
    hide HoldsDoc, Acceptable, WalletDisk.AllInitialized;
  }

  lemma StepOnManager(s: State, step: Step, g: ManagerId)
    requires Enabled(s, step)
    ensures ManagerOf(Apply(s, step), g) == NextManager(s, step, g)
  {
    hide Apply, Enabled, NextManager, IsManagers;
    if IsManagers(step) {
      ManagersChangeManagers(s, step, g);
    } else {
      MachinesLeaveManagers(s, step, g);
    }
  }

  function ListedItem(s: State, step: Step): Item
    requires step.ListContract? && Enabled(s, step)
  {
    Item(step.m, step.pay.federation,
         Visible(Rep(s, Manager(step.g), Tickets(s, step.g)[step.m]), ContractKey(step.pay)).value.contract)
  }

  lemma StepGrowsReplicas(s: State, step: Step)
    requires Enabled(s, step)
    ensures ReplicasGrow(s, Apply(s, step))
  {
    hide Apply, Enabled, PutOf;
    StepPuts(s, step);
    var s' := Apply(s, step);
    var p := PutOf(s, step);
    forall d, doc, slot ensures SlotGrows(Rep(s, d, doc), Rep(s', d, doc), slot) {
      var r := Rep(s, d, doc);
      assert Rep(s', d, doc) == if p.Put? && p.d == d && p.doc == doc then r[p.slot := p.e] else r;
    }
  }

  lemma StepGrowsLedger(s: State, step: Step)
    requires Enabled(s, step)
    ensures LedgerGrows(s, Apply(s, step))
  {
    hide Claims.Apply, Claims.Enabled, Visible, Claimable, WalletDisk.AfterSet;
    hide WalletDisk.AfterRestart, WalletDisk.AllInitialized, SeenConfig, CanWrite;
  }

  lemma StepGrowsManagers(s: State, step: Step)
    requires Enabled(s, step)
    ensures ManagersGrow(s, Apply(s, step))
  {
    hide Apply, Enabled, WalletDisk.AfterSet, WalletDisk.AfterRestart, Visible;
    forall g ensures ManagerOf(s, g).claimed <= ManagerOf(Apply(s, step), g).claimed {
      StepOnManager(s, step, g);
    }
  }

  /** A federation once joined stays joined through crashes and restarts, and through failed joins of
      others. */
  lemma DiskKeepsJoins(
    d: WalletDisk.State, running: bool, invite: Invite, join: WalletDisk.Join, written: bool, f: Hash)
    requires WalletDisk.HasJoined(d, running, f)
    ensures WalletDisk.HasJoined(WalletDisk.AfterSet(d, invite, join, written), running, f)
    ensures WalletDisk.HasJoined(NoClients(d), false, f)
    ensures WalletDisk.HasJoined(WalletDisk.AfterRestart(d), true, f)
  {
  }

  lemma StepKeepsMachineJoin(s: State, step: Step, m: MachineId, f: Hash)
    requires Enabled(s, step) && MachineJoined(s, m, f)
    ensures MachineJoined(Apply(s, step), m, f)
  {
    hide Apply, Enabled, WalletDisk.HasJoined, WalletDisk.AfterSet, WalletDisk.AfterRestart, NoClients;
    var d := MachineOf(s, m);
    StepOnMachine(s, step, m);
    if step.MachineSetsDefault? {
      DiskKeepsJoins(d.disk, d.running, step.config.invite, step.join, step.written, f);
    } else {
      DiskKeepsJoins(d.disk, d.running, Invite(f, 0), WalletDisk.Joined, false, f);
    }
  }

  lemma StepKeepsManagerJoin(s: State, step: Step, g: ManagerId, f: Hash)
    requires Enabled(s, step) && ManagerJoined(s, g, f)
    ensures ManagerJoined(Apply(s, step), g, f)
  {
    hide Apply, Enabled, WalletDisk.HasJoined, WalletDisk.AfterSet, WalletDisk.AfterRestart, NoClients;
    var d := ManagerOf(s, g);
    StepOnManager(s, step, g);
    if step.ManagerSetsDefault? {
      DiskKeepsJoins(d.disk, d.running, step.invite, step.join, step.written, f);
    } else {
      DiskKeepsJoins(d.disk, d.running, Invite(f, 0), WalletDisk.Joined, false, f);
    }
  }

  lemma StepGrowsJoins(s: State, step: Step)
    requires Enabled(s, step)
    ensures JoinsGrow(s, Apply(s, step))
  {
    hide Apply, Enabled, MachineJoined, ManagerJoined;
    forall m: MachineId, f: Hash | MachineJoined(s, m, f) ensures MachineJoined(Apply(s, step), m, f) {
      StepKeepsMachineJoin(s, step, m, f);
    }
    forall g: ManagerId, f: Hash | ManagerJoined(s, g, f) ensures ManagerJoined(Apply(s, step), g, f) {
      StepKeepsManagerJoin(s, step, g, f);
    }
  }

  lemma StepGrows(s: State, step: Step)
    requires Claims.Inv(s.claims) && Enabled(s, step)
    ensures Grows(s, Apply(s, step)) && Claims.Inv(Apply(s, step).claims)
  {
    StepKeepsClaims(s, step);
    StepGrowsReplicas(s, step);
    StepGrowsLedger(s, step);
    StepGrowsManagers(s, step);
    StepGrowsJoins(s, step);
  }

  lemma GrowsIsTransitive(a: State, b: State, c: State)
    requires Grows(a, b) && Grows(b, c)
    ensures Grows(a, c)
  {
    Claims.DurableIsTransitive(a.claims, b.claims, c.claims);
    forall d, doc, slot ensures SlotGrows(Rep(a, d, doc), Rep(c, d, doc), slot) {
      assert SlotGrows(Rep(a, d, doc), Rep(b, d, doc), slot) && SlotGrows(Rep(b, d, doc), Rep(c, d, doc), slot);
    }
    forall g ensures ManagerOf(a, g).claimed <= ManagerOf(c, g).claimed {
      assert ManagerOf(a, g).claimed <= ManagerOf(b, g).claimed;
    }
  }

  lemma GrowsIsReflexive(s: State)
    ensures Grows(s, s)
  {
    Claims.DurableIsReflexive(s.claims);
    forall d, doc, slot ensures SlotGrows(Rep(s, d, doc), Rep(s, d, doc), slot) {}
  }

  lemma OwnerKept(s: State, s': State, m: MachineId)
    requires Grows(s, s')
    ensures Claims.Advances(ClaimedMachine(s, m), ClaimedMachine(s', m))
  {
    assert Claims.Advances(Claims.MachineOf(s.claims, m), Claims.MachineOf(s'.claims, m));
  }

  lemma ConfigKept(s: State, s': State, g: ManagerId, config: MachineConfig)
    requires Grows(s, s') && ConfigOk(s, g, config)
    ensures ConfigOk(s', g, config)
  {
  }

  lemma EntryKept(s: State, s': State, doc: DocId, slot: Slot, e: Entry)
    requires Grows(s, s') && EntryOk(s, doc, slot, e)
    ensures EntryOk(s', doc, slot, e)
  {
    OwnerKept(s, s', s.claims.makers[doc]);
    if slot.author.Manager? {
      assert ManagerOf(s, slot.author.manager).claimed <= ManagerOf(s', slot.author.manager).claimed;
    }
  }

  lemma WroteKept(s: State, s': State, m: MachineId, pay: PayId)
    requires Grows(s, s') && Wrote(s, m, pay)
    ensures Wrote(s', m, pay)
  {
    OwnerKept(s, s', m);
    var doc := ClaimedMachine(s, m).ticket.value;
    assert SlotGrows(Rep(s, Machine(m), doc), Rep(s', Machine(m), doc), Slot(Machine(m), ContractKey(pay)));
  }

  lemma MachineKept(s: State, s': State, m: MachineId, d: MachineData)
    requires Grows(s, s') && MachineOk(s, m, d)
    ensures MachineOk(s', m, d)
  {
    OwnerKept(s, s', m);
    forall config | config in d.seen ensures KeyOk(s', m, config) {
      ConfigKept(s, s', ClaimedMachine(s, m).disk.value, config);
    }
    forall pay | pay in d.written ensures Wrote(s', m, pay) {
      WroteKept(s, s', m, pay);
    }
  }

  lemma ManagerKept(s: State, s': State, g: ManagerId, d: ManagerData)
    requires Grows(s, s') && ManagerOk(s, g, d)
    ensures ManagerOk(s', g, d)
  {
    TotalKept(s.ledger, s'.ledger, d.claimed);
    forall config | config in d.plans ensures ConfigOk(s', g, config) {
      ConfigKept(s, s', g, config);
    }
  }

  // ---------------------------------------------------------------------------------------------
  // Every step keeps the invariant
  // ---------------------------------------------------------------------------------------------

  /** A machine's ticket, and every ticket its owner stored, names the doc that machine made. */
  lemma TicketFacts(s: State, m: MachineId, g: ManagerId)
    requires Claims.Inv(s.claims)
    ensures
      var ticket := ClaimedMachine(s, m).ticket;
      ticket.Some? ==> ticket.value in s.claims.makers && s.claims.makers[ticket.value] == m
    ensures
      m in Tickets(s, g) ==>
        && OwnedBy(s, m, g) && ClaimedMachine(s, m).mem == Some(g)
        && ClaimedMachine(s, m).ticket == Some(Tickets(s, g)[m])
        && HoldsDoc(s, Manager(g), Tickets(s, g)[m])
  {
    assert Claims.ManagerOk(s.claims, g, Claims.ManagerOf(s.claims, g));
    if m in s.claims.machines {
      assert Claims.MachineOk(s.claims, m, s.claims.machines[m]);
    }
  }

  lemma PutIsOk(s: State, step: Step)
    requires Claims.Inv(s.claims) && EntriesOk(s) && MachinesOk(s) && ManagersOk(s) && Enabled(s, step)
    ensures var p := PutOf(s, step); p.Put? ==> EntryOk(s, p.doc, p.slot, p.e)
  {
    match step
    case WritePayment(m, pay, ts) =>
      TicketFacts(s, m, 0);
      assert MachineOk(s, m, MachineOf(s, m));
    case MachineSetsKv(m, user, bytes, ts) =>
      TicketFacts(s, m, 0);
    case WriteConfig(g, m, config, ts) =>
      TicketFacts(s, m, g);
      assert ManagerOk(s, g, ManagerOf(s, g));
    case DeleteContract(g, item, ts) =>
      TicketFacts(s, item.machine, g);
      assert ManagerOk(s, g, ManagerOf(s, g));
    case ManagerSetsKv(g, m, user, bytes, ts) =>
      TicketFacts(s, m, g);
    case Sync(from, to, doc, slot) =>
      assert slot in Rep(s, from, doc);
    case _ =>
  }

  lemma StepKeepsEntries(s: State, step: Step, s': State)
    requires Claims.Inv(s.claims) && EntriesOk(s) && MachinesOk(s) && ManagersOk(s) && Enabled(s, step)
    requires s' == Apply(s, step) && Grows(s, s')
    ensures EntriesOk(s')
  {
    PutIsOk(s, step);
    StepPuts(s, step);
    var p := PutOf(s, step);
    forall d, doc, slot | slot in Rep(s', d, doc) ensures EntryOk(s', doc, slot, Rep(s', d, doc)[slot]) {
      if p.Put? && p.d == d && p.doc == doc && p.slot == slot {
        EntryKept(s, s', doc, slot, p.e);
      } else {
        assert slot in Rep(s, d, doc);
        EntryKept(s, s', doc, slot, Rep(s, d, doc)[slot]);
      }
    }
  }

  /** A put goes into its author's own replica, or carries an entry that another replica has. */
  lemma PutIsOwnOrCarried(s: State, step: Step)
    requires ClocksOk(s) && Enabled(s, step)
    ensures
      var p := PutOf(s, step);
      p.Put? ==> p.d == p.slot.author || NotAhead(s, p.doc, p.slot, p.e)
  {
    if step.Sync? {
      assert step.slot in Rep(s, step.from, step.doc);
    }
  }

  lemma PutKeepsClock(s: State, s': State, p: Put, doc: DocId, slot: Slot, e: Entry)
    requires p.Put? && Acceptable(Rep(s, p.d, p.doc), p.slot, p.e.ts)
    requires s'.replicas == PutEntry(s, p.d, p.doc, p.slot, p.e).replicas
    requires p.d == p.slot.author || NotAhead(s, p.doc, p.slot, p.e)
    requires NotAhead(s, doc, slot, e) || (doc == p.doc && slot == p.slot && e == p.e)
    ensures NotAhead(s', doc, slot, e)
  {
  }

  lemma PutKeepsClocks(s: State, s': State, p: Put)
    requires ClocksOk(s) && p.Put? && Acceptable(Rep(s, p.d, p.doc), p.slot, p.e.ts)
    requires p.d == p.slot.author || NotAhead(s, p.doc, p.slot, p.e)
    requires s'.replicas == PutEntry(s, p.d, p.doc, p.slot, p.e).replicas
    ensures ClocksOk(s')
  {
    forall d, doc, slot | slot in Rep(s', d, doc) ensures NotAhead(s', doc, slot, Rep(s', d, doc)[slot]) {
      assert slot in Rep(s, d, doc) || (d == p.d && doc == p.doc && slot == p.slot);
      PutKeepsClock(s, s', p, doc, slot, Rep(s', d, doc)[slot]);
    }
  }

  lemma StepKeepsClocks(s: State, step: Step)
    requires ClocksOk(s) && Enabled(s, step)
    ensures ClocksOk(Apply(s, step))
  {
    StepPuts(s, step);
    PutIsOwnOrCarried(s, step);
    if PutOf(s, step).Put? {
      PutKeepsClocks(s, Apply(s, step), PutOf(s, step));
    } else {
      SameReplicasKeepClocks(s, Apply(s, step));
    }
  }

  lemma SameReplicasKeepClocks(s: State, s': State)
    requires ClocksOk(s) && s'.replicas == s.replicas
    ensures ClocksOk(s')
  {
    forall d, doc, slot | slot in Rep(s', d, doc) ensures NotAhead(s', doc, slot, Rep(s', d, doc)[slot]) {
      assert slot in Rep(s, d, doc) && NotAhead(s, doc, slot, Rep(s, d, doc)[slot]);
    }
  }

  lemma SyncPuts(s: State, step: Step)
    requires Enabled(s, step) && step.Sync?
    ensures step.slot in Rep(s, step.from, step.doc)
    ensures
      var p := PutOf(s, step);
      p.Put? ==>
        && p.d == step.to && p.doc == step.doc && p.slot == step.slot
        && p.e == Rep(s, step.from, step.doc)[step.slot] && Acceptable(Rep(s, p.d, p.doc), p.slot, p.e.ts)
  {
  }

  /** The engine accepts a carried entry only outside its author's own replica. */
  lemma CarriedIsNoNews(s: State, step: Step)
    requires ClocksOk(s) && Enabled(s, step) && step.Sync? && PutOf(s, step).Put?
    ensures PutOf(s, step).d != PutOf(s, step).slot.author
  {
    hide Enabled, PutOf, ClocksOk;
    SyncPuts(s, step);
    EntryNotAhead(s, step.from, step.doc, step.slot);
  }

  lemma SameUnlessPut(s: State, s': State, p: Put, d: Device, doc: DocId, slot: Slot)
    requires s'.replicas == if p.NoPut? then s.replicas else PutEntry(s, p.d, p.doc, p.slot, p.e).replicas
    requires p.Put? ==> p.d != d || p.slot != slot
    ensures slot in Rep(s', d, doc) <==> slot in Rep(s, d, doc)
    ensures slot in Rep(s, d, doc) ==> Rep(s', d, doc)[slot] == Rep(s, d, doc)[slot]
  {
  }

  /** In a device's own replica, an entry of its own changes only when the device writes it. */
  lemma OnlyAuthorWrites(s: State, step: Step, d: Device, doc: DocId, slot: Slot)
    requires ClocksOk(s) && Enabled(s, step) && slot.author == d
    requires step.Sync? || PutOf(s, step).NoPut? || PutOf(s, step).d != d || PutOf(s, step).slot != slot
    ensures slot in Rep(Apply(s, step), d, doc) <==> slot in Rep(s, d, doc)
    ensures slot in Rep(s, d, doc) ==> Rep(Apply(s, step), d, doc)[slot] == Rep(s, d, doc)[slot]
  {
    var p, s' := PutOf(s, step), Apply(s, step);
    StepPuts(s, step);
    if step.Sync? && p.Put? {
      CarriedIsNoNews(s, step);
    }
    SameUnlessPut(s, s', p, d, doc, slot);
  }

  function Delivered(s: State, d: Device, to: Device, doc: DocId, slot: Slot): State
    requires slot in Rep(s, d, doc)
  {
    var e := Rep(s, d, doc)[slot];
    if Acceptable(Rep(s, to, doc), slot, e.ts) then PutEntry(s, to, doc, slot, e) else s
  }

  lemma SyncIs(s: State, d: Device, to: Device, doc: DocId, slot: Slot)
    requires HoldsDoc(s, d, doc) && HoldsDoc(s, to, doc) && slot in Rep(s, d, doc)
    ensures Enabled(s, Sync(d, to, doc, slot))
    ensures Apply(s, Sync(d, to, doc, slot)) == Delivered(s, d, to, doc, slot)
  {
  }

  lemma EntryNotAhead(s: State, d: Device, doc: DocId, slot: Slot)
    requires ClocksOk(s) && slot in Rep(s, d, doc)
    ensures NotAhead(s, doc, slot, Rep(s, d, doc)[slot])
  {
  }

  /** Delivering an author's own entry leaves exactly that entry: nobody is ahead of the author. */
  lemma OwnEntryDelivered(s: State, to: Device, doc: DocId, slot: Slot)
    requires ClocksOk(s) && slot in Rep(s, slot.author, doc)
    ensures
      var s' := Delivered(s, slot.author, to, doc, slot);
      && slot in Rep(s', to, doc) && Rep(s', to, doc)[slot] == Rep(s, slot.author, doc)[slot]
      && slot in Rep(s', slot.author, doc) && Rep(s', slot.author, doc)[slot] == Rep(s, slot.author, doc)[slot]
  {
    hide ClocksOk;
    if slot in Rep(s, to, doc) {
      EntryNotAhead(s, to, doc, slot);
    }
  }

  lemma OthersUndelivered(s: State, d: Device, to: Device, doc: DocId, slot: Slot, d': Device, doc': DocId, slot': Slot)
    requires slot in Rep(s, d, doc) && (d' != to || doc' != doc || slot' != slot)
    ensures
      var r, r' := Rep(s, d', doc'), Rep(Delivered(s, d, to, doc, slot), d', doc');
      (slot' in r' <==> slot' in r) && (slot' in r ==> r'[slot'] == r[slot'])
  {
  }

  /** A wallet gives up a contract only when the syncer removes what it wrote. */
  lemma WalletLoses(s: State, step: Step, m: MachineId, pay: PayId)
    requires Enabled(s, step) && pay in MachineOf(s, m).wallet && pay !in MachineOf(Apply(s, step), m).wallet
    ensures step.RemovePayments? && step.m == m && pay in step.pays && pay in MachineOf(s, m).written
  {
    assert step.RemovePayments? by {
      hide Apply, Enabled, WalletDisk.AfterSet, WalletDisk.AfterRestart, SeenConfig, Claimable;
      StepOnMachine(s, step, m);
    }
  }

  lemma OnlyFundingFunds(s: State, step: Step)
    requires Enabled(s, step)
    ensures Apply(s, step).funded == if step.Fund? then s.funded + {step.pay} else s.funded
    ensures step.Fund? ==> step.pay in s.ledger
  {
    hide Claims.Apply, Claims.Enabled, Visible, CanWrite, Claimable, WalletDisk.AfterSet, WalletDisk.AfterRestart;
    hide SeenConfig, WalletDisk.AllInitialized;
  }

  lemma NewlyFunded(s: State, step: Step, pay: PayId)
    requires Enabled(s, step) && pay in Apply(s, step).funded && pay !in s.funded
    ensures pay in s.ledger && pay in MachineOf(Apply(s, step), s.ledger[pay].issuer).wallet
  {
    hide Apply, Enabled;
    OnlyFundingFunds(s, step);
    StepOnMachine(s, step, s.ledger[pay].issuer);
  }

  lemma StepKeepsPayment(s: State, step: Step, pay: PayId)
    requires LedgerOk(s) && MachinesOk(s) && Enabled(s, step) && Grows(s, Apply(s, step))
    requires pay in Apply(s, step).funded
    ensures Kept(Apply(s, step), pay)
  {
    var s' := Apply(s, step);
    if pay !in s.funded {
      NewlyFunded(s, step, pay);
    } else {
      var m := s.ledger[pay].issuer;
      if pay in MachineOf(s, m).wallet && pay !in MachineOf(s', m).wallet {
        WalletLoses(s, step, m, pay);
        assert MachineOk(s, m, MachineOf(s, m));
      }
      if Wrote(s, m, pay) {
        WroteKept(s, s', m, pay);
      }
    }
  }

  lemma NewTerms(s: State, step: Step, pay: PayId)
    requires Enabled(s, step) && pay in Apply(s, step).ledger && pay !in s.ledger
    ensures
      && step.Request? && step.config in MachineOf(s, step.m).seen && pay.federation == step.config.invite.federation
      && Apply(s, step).ledger[pay].issuer == step.m && Apply(s, step).ledger[pay].claimPk == step.config.claimerPk
  {
    hide Claims.Apply, Claims.Enabled, Visible, Claimable, WalletDisk.AfterSet;
    hide WalletDisk.AfterRestart, WalletDisk.AllInitialized, SeenConfig, CanWrite;
  }

  lemma StepKeepsLedger(s: State, step: Step)
    requires LedgerOk(s) && MachinesOk(s) && Enabled(s, step) && Grows(s, Apply(s, step))
    ensures LedgerOk(Apply(s, step))
  {
    var s' := Apply(s, step);
    forall pay | pay in s'.ledger ensures TermsOk(s', pay, s'.ledger[pay]) {
      OwnerKept(s, s', s'.ledger[pay].issuer);
      if pay !in s.ledger {
        NewTerms(s, step, pay);
        assert MachineOk(s, step.m, MachineOf(s, step.m));
      }
    }
    forall pay | pay in s'.funded ensures Kept(s', pay) {
      StepKeepsPayment(s, step, pay);
    }
  }

  lemma KeyKept(s: State, s': State, m: MachineId, config: MachineConfig)
    requires Grows(s, s') && KeyOk(s, m, config)
    ensures KeyOk(s', m, config)
  {
    OwnerKept(s, s', m);
    ConfigKept(s, s', ClaimedMachine(s, m).disk.value, config);
  }

  /** The config a machine sees was written by its owner. */
  lemma SeenConfigIsOk(s: State, m: MachineId)
    requires Claims.Inv(s.claims) && EntriesOk(s) && SeenConfig(s, m).Some?
    ensures KeyOk(s, m, SeenConfig(s, m).value)
  {
    var doc := ClaimedMachine(s, m).ticket.value;
    var r := Rep(s, Machine(m), doc);
    var slot := LatestSlot(r, ConfigKey).value;
    TicketFacts(s, m, 0);
    assert slot in r && EntryOk(s, doc, slot, r[slot]);
  }

  /** What a step adds to a machine's wallet and memory; all the rest was there before. */
  lemma WalletAfter(s: State, step: Step, s': State, m: MachineId)
    requires Enabled(s, step) && s' == Apply(s, step) && WalletOk(s', m, MachineOf(s, m))
    requires step.Fund? ==> step.pay in s'.funded && step.pay in s'.ledger && s'.ledger[step.pay] == s.ledger[step.pay]
    ensures WalletOk(s', m, MachineOf(s', m))
  {
    hide Apply, Enabled, WalletDisk.AfterSet, WalletDisk.AfterRestart, SeenConfig;
    StepOnMachine(s, step, m);
  }

  lemma FundRecords(s: State, step: Step)
    requires Enabled(s, step) && step.Fund?
    ensures
      var s' := Apply(s, step);
      step.pay in s'.funded && step.pay in s'.ledger && s'.ledger[step.pay] == s.ledger[step.pay]
  {
  }

  lemma MemoryAfter(s: State, step: Step, s': State, m: MachineId)
    requires Enabled(s, step) && s' == Apply(s, step) && MemoryOk(s', m, MachineOf(s, m))
    requires step == ReadConfig(m) ==> KeyOk(s', m, SeenConfig(s, m).value)
    requires step.WritePayment? && step.m == m ==> Wrote(s', m, step.pay)
    ensures MemoryOk(s', m, MachineOf(s', m))
  {
    hide Apply, Enabled, WalletDisk.AfterSet, WalletDisk.AfterRestart, SeenConfig, KeyOk, Wrote, Claimable;
    StepOnMachine(s, step, m);
  }

  lemma WritingWrites(s: State, step: Step)
    requires Enabled(s, step) && step.WritePayment?
    ensures Wrote(Apply(s, step), step.m, step.pay)
  {
  }

  /** Clients come from initialized directories only. */
  lemma DiskKeepsClients(
    d: WalletDisk.State, invite: Invite, join: WalletDisk.Join, written: bool)
    requires WalletDisk.ClientsOk(d)
    ensures WalletDisk.ClientsOk(WalletDisk.AfterSet(d, invite, join, written)) && WalletDisk.ClientsOk(NoClients(d))
    ensures WalletDisk.AllInitialized(d) ==> WalletDisk.ClientsOk(WalletDisk.AfterRestart(d))
  {
  }

  lemma RestartsNeedInitialized(s: State, step: Step)
    requires Enabled(s, step)
    ensures step.RestartMachine? ==> WalletDisk.AllInitialized(MachineOf(s, step.m).disk)
    ensures step.RestartManager? ==> WalletDisk.AllInitialized(ManagerOf(s, step.g).disk)
  {
  }

  lemma ClientsAfter(s: State, step: Step, m: MachineId)
    requires Enabled(s, step) && WalletDisk.ClientsOk(MachineOf(s, m).disk)
    ensures WalletDisk.ClientsOk(MachineOf(Apply(s, step), m).disk)
  {
    hide Apply, Enabled, SeenConfig, Claimable, WalletDisk.ClientsOk, WalletDisk.AfterSet, WalletDisk.AfterRestart;
    StepOnMachine(s, step, m);
    RestartsNeedInitialized(s, step);
    if step.MachineSetsDefault? {
      DiskKeepsClients(MachineOf(s, m).disk, step.config.invite, step.join, step.written);
    } else {
      DiskKeepsClients(MachineOf(s, m).disk, Invite(seq(32, _ => 0), 0), WalletDisk.Joined, false);
    }
  }

  lemma ManagerClientsAfter(s: State, step: Step, g: ManagerId)
    requires Enabled(s, step) && WalletDisk.ClientsOk(ManagerOf(s, g).disk)
    ensures WalletDisk.ClientsOk(ManagerOf(Apply(s, step), g).disk)
  {
    hide Apply, Enabled, Visible, WalletDisk.ClientsOk, WalletDisk.AfterSet, WalletDisk.AfterRestart;
    StepOnManager(s, step, g);
    RestartsNeedInitialized(s, step);
    if step.ManagerSetsDefault? {
      DiskKeepsClients(ManagerOf(s, g).disk, step.invite, step.join, step.written);
    } else {
      DiskKeepsClients(ManagerOf(s, g).disk, Invite(seq(32, _ => 0), 0), WalletDisk.Joined, false);
    }
  }

  lemma StepKeepsMachine(s: State, step: Step, m: MachineId)
    requires Claims.Inv(s.claims) && EntriesOk(s) && MachinesOk(s) && Enabled(s, step) && Grows(s, Apply(s, step))
    ensures MachineOk(Apply(s, step), m, MachineOf(Apply(s, step), m))
  {
    hide Apply, Enabled, Grows, WalletOk, MemoryOk, WalletDisk.ClientsOk, Claims.Inv, EntriesOk, Wrote, KeyOk;
    var s' := Apply(s, step);
    assert MachineOk(s, m, MachineOf(s, m));
    MachineKept(s, s', m, MachineOf(s, m));
    if step.ReadConfig? {
      ReadingNeedsConfig(s, step);
      SeenConfigIsOk(s, step.m);
      KeyKept(s, s', step.m, SeenConfig(s, step.m).value);
    } else if step.Fund? {
      FundRecords(s, step);
    } else if step.WritePayment? {
      WritingWrites(s, step);
    }
    WalletAfter(s, step, s', m);
    MemoryAfter(s, step, s', m);
    ClientsAfter(s, step, m);
  }

  lemma ReadingNeedsConfig(s: State, step: Step)
    requires Enabled(s, step) && step.ReadConfig?
    ensures SeenConfig(s, step.m).Some?
  {
  }

  lemma ClaimsAfter(s: State, step: Step, s': State, g: ManagerId)
    requires Enabled(s, step) && s' == Apply(s, step) && ClaimsOk(s', g, ManagerOf(s, g))
    requires step.ClaimContract? && step.g == g ==> ClaimOk(s', g, step.item.Pay()) && s'.ledger == s.ledger
    ensures ClaimsOk(s', g, ManagerOf(s', g))
  {
    hide Apply, Enabled, ClaimOk, WalletDisk.AfterSet, WalletDisk.AfterRestart, Visible;
    StepOnManager(s, step, g);
    if step.ClaimContract? && step.g == g {
      ClaimAdds(s', g, ManagerOf(s, g), step.item.Pay());
    }
  }

  /** A new contract adds its amount to the credit, a repeated one nothing. */
  lemma ClaimAdds(s: State, g: ManagerId, d: ManagerData, pay: PayId)
    requires ClaimsOk(s, g, d) && ClaimOk(s, g, pay)
    ensures d.claimed + {pay} <= s.ledger.Keys
    ensures Total(s.ledger, d.claimed + {pay}) == if pay in d.claimed then d.credit else d.credit + s.ledger[pay].amount
  {
    if pay in d.claimed {
      assert d.claimed + {pay} == d.claimed;
    } else {
      TotalAdds(s.ledger, d.claimed, pay);
    }
  }

  lemma ClaimingIsRight(s: State, step: Step)
    requires Enabled(s, step) && step.ClaimContract?
    ensures ClaimOk(Apply(s, step), step.g, step.item.Pay()) && Apply(s, step).ledger == s.ledger
  {
  }

  lemma PassesAfter(s: State, step: Step, s': State, g: ManagerId)
    requires Enabled(s, step) && s' == Apply(s, step) && PassesOk(s', g, ManagerOf(s, g))
    requires step.ListContract? && step.g == g ==> ItemOk(s', ListedItem(s, step))
    requires step == PlanConfig(g) ==> ConfigOk(s', g, PlannedConfig(g, ManagerOf(s, g).disk.default.value))
    requires step.ClaimContract? && step.g == g ==> step.item in ManagerOf(s, g).listed
    ensures PassesOk(s', g, ManagerOf(s', g))
  {
    hide Apply, Enabled, ItemOk, ConfigOk, WalletDisk.AfterSet, WalletDisk.AfterRestart, Visible, ListedItem;
    StepOnManager(s, step, g);
  }

  lemma ClaimingNeedsListing(s: State, step: Step)
    requires Enabled(s, step) && step.ClaimContract?
    ensures step.item in ManagerOf(s, step.g).listed
  {
  }

  /** A planned config is for a federation the manager has joined. */
  lemma PlanIsOk(s: State, step: Step)
    requires Enabled(s, step) && step.PlanConfig? && WalletDisk.ClientsOk(ManagerOf(s, step.g).disk)
    ensures ManagerOf(s, step.g).disk.default.Some?
    ensures ConfigOk(s, step.g, PlannedConfig(step.g, ManagerOf(s, step.g).disk.default.value))
  {
  }

  /** A contract read from a doc is one that the doc's machine asked for and that was paid. */
  lemma ListedItemIsOk(s: State, step: Step)
    requires Claims.Inv(s.claims) && EntriesOk(s) && step.ListContract? && Enabled(s, step)
    ensures ItemOk(s, ListedItem(s, step)) && ListedItem(s, step).Pay() == step.pay
  {
    TicketFacts(s, step.m, step.g);
    var doc := Tickets(s, step.g)[step.m];
    var r := Rep(s, Manager(step.g), doc);
    var slot := LatestSlot(r, ContractKey(step.pay)).value;
    assert slot in r && EntryOk(s, doc, slot, r[slot]);
  }

  lemma StepKeepsManager(s: State, step: Step, g: ManagerId)
    requires Claims.Inv(s.claims) && EntriesOk(s) && ManagersOk(s) && Enabled(s, step) && Grows(s, Apply(s, step))
    ensures ManagerOk(Apply(s, step), g, ManagerOf(Apply(s, step), g))
  {
    hide Apply, Enabled, Grows, ClaimsOk, PassesOk, WalletDisk.ClientsOk;
    hide Claims.Inv, EntriesOk, ConfigOk, ItemOk, ClaimOk;
    var s' := Apply(s, step);
    assert ManagerOk(s, g, ManagerOf(s, g));
    ManagerKept(s, s', g, ManagerOf(s, g));
    if step.ListContract? {
      ListedItemIsOk(s, step);
      ItemKept(s, s', ListedItem(s, step));
    } else if step.PlanConfig? && step.g == g {
      PlanIsOk(s, step);
      ConfigKept(s, s', g, PlannedConfig(g, ManagerOf(s, g).disk.default.value));
    } else if step.ClaimContract? {
      ClaimingNeedsListing(s, step);
      ClaimingIsRight(s, step);
    }
    ClaimsAfter(s, step, s', g);
    PassesAfter(s, step, s', g);
    ManagerClientsAfter(s, step, g);
  }

  lemma ItemKept(s: State, s': State, item: Item)
    requires Grows(s, s') && ItemOk(s, item)
    ensures ItemOk(s', item)
  {
  }

  lemma StepKeepsInv(s: State, step: Step)
    requires Inv(s) && Enabled(s, step)
    ensures Inv(Apply(s, step)) && Grows(s, Apply(s, step))
  {
    var s' := Apply(s, step);
    StepGrows(s, step);
    StepKeepsEntries(s, step, s');
    StepKeepsClocks(s, step);
    StepKeepsLedger(s, step);
    forall m ensures MachineOk(s', m, MachineOf(s', m)) {
      StepKeepsMachine(s, step, m);
    }
    forall g ensures ManagerOk(s', g, ManagerOf(s', g)) {
      StepKeepsManager(s, step, g);
    }
  }

  lemma {:induction false} RunKeepsInv(s: State, steps: seq<Step>)
    requires Inv(s) && Legal(s, steps)
    ensures Inv(Run(s, steps)) && Grows(s, Run(s, steps))
    decreases |steps|
  {
    hide Inv, Grows, Apply, Enabled;
    if steps == [] {
      GrowsIsReflexive(s);
    } else {
      var s' := Apply(s, steps[0]);
      StepKeepsInv(s, steps[0]);
      RunKeepsInv(s', steps[1..]);
      GrowsIsTransitive(s, s', Run(s', steps[1..]));
    }
  }

  lemma {:induction false} RunAppends(s: State, steps: seq<Step>, step: Step)
    requires Legal(s, steps) && Enabled(Run(s, steps), step)
    ensures Legal(s, steps + [step]) && Run(s, steps + [step]) == Apply(Run(s, steps), step)
    decreases |steps|
  {
    hide Apply, Enabled;
    var all := steps + [step];
    if steps == [] {
      assert all[1..] == [];
    } else {
      assert all[1..] == steps[1..] + [step];
      RunAppends(Apply(s, steps[0]), steps[1..], step);
    }
  }
}
