/**
 The whole system as one interleaved state machine: the claim handshake, the machine docs and
 their replicas, the wallets of machines and managers, and what running calls hold in memory.
 A step is one atomic action of one actor; a call that fails takes no step, and an aborted task
 or a crash simply takes no further ones.
 */
module Vending {
  import opened Types
  import opened Docs
  import Claims
  import WalletDisk

  /** A contract as listed by a manager: (machine, federation, contract). */
  datatype Item = Item(machine: MachineId, federation: Hash, contract: Contract)
  {
    function Pay(): PayId {
      PayId(federation, contract.id)
    }
  }

  /** What the federation knows of a receive contract, and which machine asked for it. */
  datatype Terms = Terms(issuer: MachineId, claimPk: ClaimKey, amount: nat)

  /** `disk` is the wallet's client map with the directories it mirrors; a wallet that is not running has
      no clients. `wallet` holds the paid contracts and is durable. `seen` are the configs that running
      calls have read, `batch` the contracts the running syncer pass fetched and `written` those of them
      it put in the doc. */
  datatype MachineData = MachineData(
    disk: WalletDisk.State, running: bool, wallet: map<PayId, Contract>,
    seen: set<MachineConfig>, batch: map<PayId, Contract>, written: set<PayId>)

  /** `claimed` and `credit` are durable. `listed`, `swept` and `plans` are in memory: contracts read from
      docs, those of them claimed, and the configs that running passes want to write. */
  datatype ManagerData = ManagerData(
    disk: WalletDisk.State, running: bool, claimed: set<PayId>, credit: nat,
    listed: set<Item>, swept: set<Item>, plans: set<MachineConfig>)

  datatype State = State(
    claims: Claims.State, replicas: map<(Device, DocId), Replica>,
    machines: map<MachineId, MachineData>, managers: map<ManagerId, ManagerData>,
    ledger: map<PayId, Terms>, funded: set<PayId>)

  datatype Step =
    | Handshake(step: Claims.Step)
    | ReadConfig(m: MachineId)
    | MachineSetsDefault(m: MachineId, config: MachineConfig, join: WalletDisk.Join, written: bool)
    | RestartMachine(m: MachineId)
    | Request(m: MachineId, config: MachineConfig, contract: Hash, amount: nat)
    | Fund(pay: PayId, outpoint: nat)
    | FetchBatch(m: MachineId, config: MachineConfig)
    | WritePayment(m: MachineId, pay: PayId, ts: nat)
    | RemovePayments(m: MachineId, pays: set<PayId>)
    | ManagerSetsDefault(g: ManagerId, invite: Invite, join: WalletDisk.Join, written: bool)
    | RestartManager(g: ManagerId)
    | PlanConfig(g: ManagerId)
    | WriteConfig(g: ManagerId, m: MachineId, config: MachineConfig, ts: nat)
    | ListContract(g: ManagerId, m: MachineId, pay: PayId)
    | ClaimContract(g: ManagerId, item: Item)
    | DeleteContract(g: ManagerId, item: Item, ts: nat)
    | MachineSetsKv(m: MachineId, user: Bytes, bytes: Bytes, ts: nat)
    | ManagerSetsKv(g: ManagerId, m: MachineId, user: Bytes, bytes: Bytes, ts: nat)
    | Sync(from: Device, to: Device, doc: DocId, slot: Slot)

  const INIT := State(Claims.INIT, map[], map[], map[], map[], {})

  function ClaimedMachine(s: State, m: MachineId): Claims.Machine {
    Claims.MachineOf(s.claims, m)
  }

  /** The ticket files of a manager: the machines it lists and their docs. */
  function Tickets(s: State, g: ManagerId): map<MachineId, DocId> {
    Claims.ManagerOf(s.claims, g).tickets
  }

  const NEW_MACHINE := MachineData(WalletDisk.FRESH, true, map[], {}, map[], {})
  const NEW_MANAGER := ManagerData(WalletDisk.FRESH, true, {}, 0, {}, {}, {})

  function MachineOf(s: State, m: MachineId): MachineData {
    if m in s.machines then s.machines[m] else NEW_MACHINE
  }

  function ManagerOf(s: State, g: ManagerId): ManagerData {
    if g in s.managers then s.managers[g] else NEW_MANAGER
  }

  /** The federations that a device has a client for. */
  function MachineClients(s: State, m: MachineId): set<Hash> {
    MachineOf(s, m).disk.clients
  }

  function ManagerClients(s: State, g: ManagerId): set<Hash> {
    ManagerOf(s, g).disk.clients
  }

  function Rep(s: State, d: Device, doc: DocId): Replica {
    if (d, doc) in s.replicas then s.replicas[(d, doc)] else map[]
  }

  /** The devices that keep a replica of a doc. */
  predicate HoldsDoc(s: State, d: Device, doc: DocId) {
    match d
    case Machine(m) => ClaimedMachine(s, m).ticket == Some(doc)
    case Manager(g) => doc in Claims.ManagerOf(s.claims, g).imported
  }

  /** The machine's replica of its own doc. */
  function OwnReplica(s: State, m: MachineId): Replica {
    var ticket := ClaimedMachine(s, m).ticket;
    if ticket.Some? then Rep(s, Machine(m), ticket.value) else map[]
  }

  /** The config the machine sees, `get_machine_config` on the machine's side. */
  function SeenConfig(s: State, m: MachineId): Option<MachineConfig> {
    var v := Visible(OwnReplica(s, m), ConfigKey);
    if v.Some? && v.value.ConfigValue? then Some(v.value.config) else None
  }

  predicate CanWrite(s: State, d: Device, doc: DocId, key: DocKey, ts: nat) {
    Acceptable(Rep(s, d, doc), Slot(d, key), ts)
  }

  predicate Enabled(s: State, step: Step) {
    match step
    case Handshake(cs) => Claims.Enabled(s.claims, cs)
    case ReadConfig(m) => ClaimedMachine(s, m).mem.Some? && SeenConfig(s, m).Some?
    case MachineSetsDefault(m, config, _, _) => config in MachineOf(s, m).seen && MachineOf(s, m).running
    case RestartMachine(m) => !MachineOf(s, m).running && WalletDisk.AllInitialized(MachineOf(s, m).disk)
    case Request(m, config, contract, _) =>
      && config in MachineOf(s, m).seen && config.invite.federation in MachineClients(s, m)
      && PayId(config.invite.federation, contract) !in s.ledger
    case Fund(pay, _) => pay in s.ledger
    case FetchBatch(m, config) =>
      config in MachineOf(s, m).seen && config.invite.federation in MachineClients(s, m)
    case WritePayment(m, pay, ts) =>
      && pay in MachineOf(s, m).batch && ClaimedMachine(s, m).ticket.Some?
      && CanWrite(s, Machine(m), ClaimedMachine(s, m).ticket.value, ContractKey(pay), ts)
    case RemovePayments(m, pays) => pays <= MachineOf(s, m).written
    case ManagerSetsDefault(g, _, _, _) => ManagerOf(s, g).running
    case RestartManager(g) => !ManagerOf(s, g).running && WalletDisk.AllInitialized(ManagerOf(s, g).disk)
    case PlanConfig(g) =>
      ManagerOf(s, g).disk.default.Some? && ManagerOf(s, g).disk.default.value.federation in ManagerClients(s, g)
    case WriteConfig(g, m, config, ts) =>
      && config in ManagerOf(s, g).plans && m in Tickets(s, g)
      && CanWrite(s, Manager(g), Tickets(s, g)[m], ConfigKey, ts)
    case ListContract(g, m, pay) =>
      && m in Tickets(s, g)
      && var v := Visible(Rep(s, Manager(g), Tickets(s, g)[m]), ContractKey(pay));
         v.Some? && v.value.ContractValue?
    case ClaimContract(g, item) =>
      && item in ManagerOf(s, g).listed && item.federation in ManagerClients(s, g)
      && item.Pay() in s.funded && item.Pay() in s.ledger
      && s.ledger[item.Pay()].claimPk == ClaimKey(g, item.federation)
    case DeleteContract(g, item, ts) =>
      && item in ManagerOf(s, g).swept && item.machine in Tickets(s, g)
      && CanWrite(s, Manager(g), Tickets(s, g)[item.machine], ContractKey(item.Pay()), ts)
    case MachineSetsKv(m, user, _, ts) =>
      && ClaimedMachine(s, m).ticket.Some?
      && CanWrite(s, Machine(m), ClaimedMachine(s, m).ticket.value, KvKey(user), ts)
    case ManagerSetsKv(g, m, user, _, ts) =>
      m in Tickets(s, g) && CanWrite(s, Manager(g), Tickets(s, g)[m], KvKey(user), ts)
    case Sync(from, to, doc, slot) =>
      HoldsDoc(s, from, doc) && HoldsDoc(s, to, doc) && slot in Rep(s, from, doc)
  }

  function SetMachine(s: State, m: MachineId, d: MachineData): State {
    s.(machines := s.machines[m := d])
  }

  function SetManager(s: State, g: ManagerId, d: ManagerData): State {
    s.(managers := s.managers[g := d])
  }

  function PutEntry(s: State, d: Device, doc: DocId, slot: Slot, e: Entry): State {
    s.(replicas := s.replicas[(d, doc) := Rep(s, d, doc)[slot := e]])
  }

  function NoClients(d: WalletDisk.State): WalletDisk.State {
    d.(clients := {})
  }

  /** Memory is lost with the process, and so are the clients until the wallet is up again. The protocol
      side comes up before the wallet and does not depend on it. */
  function Forget(s: State, step: Claims.Step): State {
    match step
    case CrashMachine(m) =>
      var d := MachineOf(s, m);
      SetMachine(s, m, d.(disk := NoClients(d.disk), running := false, seen := {}, batch := map[], written := {}))
    case CrashManager(g) =>
      var d := ManagerOf(s, g);
      SetManager(s, g, d.(disk := NoClients(d.disk), running := false, listed := {}, swept := {}, plans := {}))
    case _ => s
  }

  function Apply(s: State, step: Step): State
    requires Enabled(s, step)
  {
    match step
    case Handshake(cs) => Forget(s.(claims := Claims.Apply(s.claims, cs)), cs)
    case ReadConfig(m) =>
      var d := MachineOf(s, m);
      SetMachine(s, m, d.(seen := d.seen + {SeenConfig(s, m).value}))
    case MachineSetsDefault(m, config, join, written) =>
      var d := MachineOf(s, m);
      SetMachine(s, m, d.(disk := WalletDisk.AfterSet(d.disk, config.invite, join, written)))
    case RestartMachine(m) =>
      var d := MachineOf(s, m);
      SetMachine(s, m, d.(disk := WalletDisk.AfterRestart(d.disk), running := true))
    case Request(m, config, contract, amount) =>
      s.(ledger := s.ledger[PayId(config.invite.federation, contract) := Terms(m, config.claimerPk, amount)])
    case Fund(pay, outpoint) =>
      var t := s.ledger[pay];
      var d := MachineOf(s, t.issuer);
      SetMachine(s, t.issuer, d.(wallet := d.wallet[pay := Contract(pay.contract, t.claimPk, t.amount, outpoint)]))
        .(funded := s.funded + {pay})
    case FetchBatch(m, config) =>
      var d := MachineOf(s, m);
      SetMachine(s, m, d.(written := {}, batch := Claimable(d.wallet, config)))
    case WritePayment(m, pay, ts) =>
      var d := MachineOf(s, m);
      PutEntry(SetMachine(s, m, d.(written := d.written + {pay})), Machine(m), ClaimedMachine(s, m).ticket.value,
               Slot(Machine(m), ContractKey(pay)), Entry(ts, ContractValue(d.batch[pay])))
    case RemovePayments(m, pays) =>
      var d := MachineOf(s, m);
      SetMachine(s, m, d.(wallet := d.wallet - pays, batch := map[], written := {}))
    case ManagerSetsDefault(g, invite, join, written) =>
      var d := ManagerOf(s, g);
      SetManager(s, g, d.(disk := WalletDisk.AfterSet(d.disk, invite, join, written)))
    case RestartManager(g) =>
      var d := ManagerOf(s, g);
      SetManager(s, g, d.(disk := WalletDisk.AfterRestart(d.disk), running := true))
    case PlanConfig(g) =>
      var d := ManagerOf(s, g);
      SetManager(s, g, d.(plans := d.plans + {PlannedConfig(g, d.disk.default.value)}))
    case WriteConfig(g, m, config, ts) =>
      PutEntry(s, Manager(g), Tickets(s, g)[m], Slot(Manager(g), ConfigKey), Entry(ts, ConfigValue(config)))
    case ListContract(g, m, pay) =>
      var d := ManagerOf(s, g);
      var v := Visible(Rep(s, Manager(g), Tickets(s, g)[m]), ContractKey(pay)).value;
      SetManager(s, g, d.(listed := d.listed + {Item(m, pay.federation, v.contract)}))
    case ClaimContract(g, item) =>
      var d := ManagerOf(s, g);
      SetManager(s, g, d.(claimed := d.claimed + {item.Pay()}, swept := d.swept + {item},
                          credit := d.credit + if item.Pay() in d.claimed then 0 else s.ledger[item.Pay()].amount))
    case DeleteContract(g, item, ts) =>
      PutEntry(s, Manager(g), Tickets(s, g)[item.machine], Slot(Manager(g), ContractKey(item.Pay())), Entry(ts, Empty))
    case MachineSetsKv(m, user, bytes, ts) =>
      PutEntry(s, Machine(m), ClaimedMachine(s, m).ticket.value, Slot(Machine(m), KvKey(user)),
        Entry(ts, KvValue(bytes)))
    case ManagerSetsKv(g, m, user, bytes, ts) =>
      PutEntry(s, Manager(g), Tickets(s, g)[m], Slot(Manager(g), KvKey(user)), Entry(ts, KvValue(bytes)))
    case Sync(from, to, doc, slot) =>
      var e := Rep(s, from, doc)[slot];
      if Acceptable(Rep(s, to, doc), slot, e.ts) then PutEntry(s, to, doc, slot, e) else s
  }

  /** The contracts of one federation and key that a wallet can hand over. */
  function Claimable(wallet: map<PayId, Contract>, config: MachineConfig): map<PayId, Contract> {
    map pay | pay in wallet && pay.federation == config.invite.federation && wallet[pay].claimPk == config.claimerPk ::
      wallet[pay]
  }

  /** The config a manager writes: its default federation with its own claim key for it. */
  function PlannedConfig(g: ManagerId, invite: Invite): MachineConfig {
    MachineConfig(invite, ClaimKey(g, invite.federation))
  }

  predicate Legal(s: State, steps: seq<Step>)
    decreases |steps|
  {
    steps == [] || (Enabled(s, steps[0]) && Legal(Apply(s, steps[0]), steps[1..]))
  }

  function Run(s: State, steps: seq<Step>): State
    requires Legal(s, steps)
    decreases |steps|
  {
    if steps == [] then s else Run(Apply(s, steps[0]), steps[1..])
  }

  // ---------------------------------------------------------------------------------------------
  // Weights
  // ---------------------------------------------------------------------------------------------

  ghost function Total(ledger: map<PayId, Terms>, pays: set<PayId>): nat
    requires pays <= ledger.Keys
  {
    if pays == {} then 0 else
      var p :| p in pays;
      ledger[p].amount + Total(ledger, pays - {p})
  }

  lemma {:induction false} TotalRemoves(ledger: map<PayId, Terms>, pays: set<PayId>, p: PayId)
    requires pays <= ledger.Keys && p in pays
    ensures Total(ledger, pays) == ledger[p].amount + Total(ledger, pays - {p})
    decreases |pays|
  {
    var q :| q in pays && Total(ledger, pays) == ledger[q].amount + Total(ledger, pays - {q});
    if q != p {
      TotalRemoves(ledger, pays - {q}, p);
      TotalRemoves(ledger, pays - {p}, q);
      assert pays - {q} - {p} == pays - {p} - {q};
    }
  }

  lemma TotalAdds(ledger: map<PayId, Terms>, pays: set<PayId>, p: PayId)
    requires pays <= ledger.Keys && p in ledger && p !in pays
    ensures Total(ledger, pays + {p}) == Total(ledger, pays) + ledger[p].amount
  {
    TotalRemoves(ledger, pays + {p}, p);
    assert pays + {p} - {p} == pays;
  }

  /** Later requests do not change what earlier contracts are worth. */
  lemma {:induction false} TotalKept(a: map<PayId, Terms>, b: map<PayId, Terms>, pays: set<PayId>)
    requires pays <= a.Keys && forall p :: p in a ==> p in b && a[p] == b[p]
    ensures Total(a, pays) == Total(b, pays)
    decreases |pays|
  {
    if pays != {} {
      var p :| p in pays;
      TotalKept(a, b, pays - {p});
      TotalRemoves(a, pays, p);
      TotalRemoves(b, pays, p);
    }
  }

  lemma {:induction false} TotalSplits(ledger: map<PayId, Terms>, a: set<PayId>, b: set<PayId>)
    requires a <= ledger.Keys && b <= ledger.Keys && a !! b
    ensures Total(ledger, a + b) == Total(ledger, a) + Total(ledger, b)
    decreases |b|
  {
    if b == {} {
      assert a + b == a;
    } else {
      var p :| p in b;
      TotalSplits(ledger, a, b - {p});
      TotalRemoves(ledger, b, p);
      TotalRemoves(ledger, a + b, p);
      assert a + b - {p} == a + (b - {p});
    }
  }
}
