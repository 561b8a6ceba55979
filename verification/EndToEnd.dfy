/** One whole run, step by step: a machine is claimed and configured, and a payment goes all the way. */
module EndToEnd {
  import opened Types
  import opened Docs
  import opened Vending
  import opened VendingTheorems
  import opened Quiescence
  import opened ConfigSyncer
  import opened VendingInvariant
  import opened JoinFailures
  import Claims
  import WalletDisk

  ghost predicate Reachable(s: State) {
    exists steps :: Legal(INIT, steps) && Run(INIT, steps) == s
  }

  lemma Next(s: State, step: Step) returns (s': State)
    requires Reachable(s) && Enabled(s, step)
    ensures s' == Apply(s, step) && Reachable(s')
  {
    hide Apply, Enabled;
    var steps :| Legal(INIT, steps) && Run(INIT, steps) == s;
    RunAppends(INIT, steps, step);
    s' := Apply(s, step);
  }

  // ---------------------------------------------------------------------------------------------
  // The claim
  // ---------------------------------------------------------------------------------------------

  /** Machine 0 and manager 0 on connection 0, and nothing else in the world. */
  function Claiming(k: Claims.Conn, mach: Claims.Machine, mgr: Claims.Manager, makers: map<DocId, MachineId>): State {
    INIT.(claims := Claims.State.State(map[0 := mach], map[0 := mgr], map[0 := k], makers))
  }

  lemma PartiesStay(act: Claims.Act, l: Claims.Local)
    requires Claims.CanAct(act, l)
    ensures
      var k := Claims.Perform(0, act, l).conn;
      k.machine == l.conn.machine && k.manager == l.conn.manager
  {
  }

  lemma ClaimStep(
    k: Claims.Conn, mach: Claims.Machine, mgr: Claims.Manager, makers: map<DocId, MachineId>, act: Claims.Act)
    returns (l: Claims.Local, makers': map<DocId, MachineId>)
    requires k.machine == 0 && k.manager == 0 && Reachable(Claiming(k, mach, mgr, makers))
    requires Claims.CanAct(act, Claims.Local(k, mach, mgr))
    requires act.PrepareDoc? ==> act.spare !in makers
    ensures l == Claims.Perform(0, act, Claims.Local(k, mach, mgr))
    ensures makers' == if mach.ticket.None? && l.mach.ticket.Some? then makers[l.mach.ticket.value := 0] else makers
    ensures l.conn.machine == 0 && l.conn.manager == 0 && Reachable(Claiming(l.conn, l.mach, l.mgr, makers'))
  {
    hide Reachable, Claims.Perform, Claims.CanAct;
    PartiesStay(act, Claims.Local(k, mach, mgr));
    l := Claims.Perform(0, act, Claims.Local(k, mach, mgr));
    makers' := if mach.ticket.None? && l.mach.ticket.Some? then makers[l.mach.ticket.value := 0] else makers;
    var s := Claiming(k, mach, mgr, makers);
    assert Claims.LocalOf(s.claims, 0) == Claims.Local(k, mach, mgr);
    var s' := Next(s, Handshake(Claims.OnConn(0, act)));
    assert s'.claims.machines == map[0 := l.mach] && s'.claims.managers == map[0 := l.mgr];
    assert s'.claims.conns == map[0 := l.conn];
    assert s' == Claiming(l.conn, l.mach, l.mgr, makers');
  }

  const UNCLAIMED := Claims.Machine.Machine(None, None, None, None)
  const IDLE := Claims.Manager.Manager(map[], {})

  function Keying(): Claims.Keying {
    seq(32, _ => 0)
  }

  function Fresh(): Claims.Conn {
    var pin := Claims.Pin(Keying());
    Claims.Conn.Conn(0, 0, Keying(), Claims.Waiting, None, None, Claims.Deciding, pin, None, None, None)
  }

  lemma HandshakeBegins()
    ensures
      var k := Fresh().(handler := Claims.Prompting, machinePin := Some(Claims.Pin(Keying())));
      Reachable(Claiming(k, UNCLAIMED.(lock := Some(0)), IDLE, map[]))
  {
    assert Legal(INIT, []) && Run(INIT, []) == INIT;
    var s1 := Next(INIT, Handshake(Claims.Connect(0, 0, 0, Keying())));
    var s2 := Next(s1, Handshake(Claims.OnConn(0, Claims.TakeLock)));
    var k := Fresh().(handler := Claims.Prompting, machinePin := Some(Claims.Pin(Keying())));
    assert s2.claims.machines == map[0 := UNCLAIMED.(lock := Some(0))] && s2.claims.managers == map[0 := IDLE];
    assert s2.claims.conns == map[0 := k];
    assert s2 == Claiming(k, UNCLAIMED.(lock := Some(0)), IDLE, map[]);
  }

  /** Both users agree. */
  lemma BothAgree() returns (k: Claims.Conn)
    ensures k.machine == 0 && k.manager == 0 && k.handler.Pinged? && k.claimer.Reading?
    ensures Reachable(Claiming(k, UNCLAIMED.(lock := Some(0)), IDLE, map[]))
  {
    hide Reachable;
    HandshakeBegins();
    k := Fresh().(handler := Claims.Prompting, machinePin := Some(Claims.Pin(Keying())));
    var l, makers := ClaimStep(k, UNCLAIMED.(lock := Some(0)), IDLE, map[], Claims.MachineAnswers(true));
    l, makers := ClaimStep(l.conn, l.mach, l.mgr, makers, Claims.ManagerAnswers(true));
    l, makers := ClaimStep(l.conn, l.mach, l.mgr, makers, Claims.SendPing);
    l, makers := ClaimStep(l.conn, l.mach, l.mgr, makers, Claims.ReadPing);
    k := l.conn;
  }

  const OWNED := Claims.Machine.Machine(Some(0), Some(0), None, Some(0))
  const LISTING := Claims.Manager.Manager(map[0 := 0], {0})

  lemma OwnerIsRecorded() returns (k: Claims.Conn)
    ensures k.machine == 0 && k.manager == 0 && k.handler == Claims.Sending(0) && k.claimer.Reading?
    ensures Reachable(Claiming(k, OWNED, IDLE, map[0 := 0]))
  {
    hide Reachable;
    k := BothAgree();
    var l, makers := ClaimStep(k, UNCLAIMED.(lock := Some(0)), IDLE, map[], Claims.PrepareDoc(0));
    l, makers := ClaimStep(l.conn, l.mach, l.mgr, makers, Claims.RecordOwner);
    l, makers := ClaimStep(l.conn, l.mach, l.mgr, makers, Claims.CommitOwner);
    k := l.conn;
    assert l.mach == OWNED && l.mgr == IDLE && makers == map[0 := 0];
  }

  lemma MachineIsClaimed() returns (k: Claims.Conn)
    ensures Reachable(Claiming(k, OWNED, LISTING, map[0 := 0]))
  {
    hide Reachable;
    k := OwnerIsRecorded();
    var l, makers := ClaimStep(k, OWNED, IDLE, map[0 := 0], Claims.SendTicket);
    l, makers := ClaimStep(l.conn, l.mach, l.mgr, makers, Claims.ImportTicket);
    l, makers := ClaimStep(l.conn, l.mach, l.mgr, makers, Claims.StoreTicket);
    k := l.conn;
    assert l.mach == OWNED && l.mgr == LISTING && makers == map[0 := 0];
  }

  // ---------------------------------------------------------------------------------------------
  // Configuration and payment
  // ---------------------------------------------------------------------------------------------

  /** The claimed machine and its manager, with what their wallets and replicas hold. */
  predicate Working(s: State, mine: Replica, theirs: Replica, md: MachineData, gd: ManagerData) {
    && ClaimedMachine(s, 0) == OWNED && Claims.ManagerOf(s.claims, 0) == LISTING
    && Rep(s, Machine(0), 0) == mine && Rep(s, Manager(0), 0) == theirs
    && MachineOf(s, 0) == md && ManagerOf(s, 0) == gd
  }

  function ConfigEntry(config: MachineConfig): Replica {
    map[Slot(Manager(0), ConfigKey) := Entry(1, ConfigValue(config))]
  }

  /** A wallet that has joined one federation and made it the default. */
  function JoinedOne(invite: Invite): WalletDisk.State {
    WalletDisk.State(map[invite.federation := true], {invite.federation}, Some(invite))
  }

  /** The manager joins a federation, makes it the default and writes the machine's config. */
  lemma ConfigIsWritten(invite: Invite) returns (s: State, gd: ManagerData)
    ensures Reachable(s) && Working(s, map[], ConfigEntry(PlannedConfig(0, invite)), NEW_MACHINE, gd)
    ensures gd.disk == JoinedOne(invite) && Untouched(gd)
    ensures s.ledger == map[] && s.funded == {}
  {
    hide Reachable, Visible, Claims.Apply, Claims.Enabled;
    var k := MachineIsClaimed();
    s := Claiming(k, OWNED, LISTING, map[0 := 0]);
    s := Next(s, ManagerSetsDefault(0, invite, WalletDisk.Joined, true));
    s := Next(s, PlanConfig(0));
    gd := ManagerOf(s, 0);
    s := Next(s, WriteConfig(0, 0, PlannedConfig(0, invite), 1));
  }

  /** A manager that is up and has neither listed nor claimed anything. */
  predicate Untouched(gd: ManagerData) {
    gd.running && gd.claimed == {} && gd.credit == 0 && gd.listed == {} && gd.swept == {}
  }

  lemma OneEntryShows(r: Replica, slot: Slot, e: Entry)
    requires r == map[slot := e] && !e.value.IsEmpty()
    ensures Visible(r, slot.key) == Some(e.value)
  {
    assert slot in r;
    assert LatestSlot(r, slot.key).Some? && LatestSlot(r, slot.key).value in r;
  }

  /** The machine receives the config. */
  lemma ConfigIsSeen(invite: Invite) returns (s: State, md: MachineData, gd: ManagerData)
    ensures
      var config := PlannedConfig(0, invite);
      && Reachable(s) && Working(s, ConfigEntry(config), ConfigEntry(config), md, gd)
      && md == NEW_MACHINE.(seen := {config}) && gd.disk == JoinedOne(invite) && Untouched(gd)
      && SeenConfig(s, 0) == Some(config) && s.ledger == map[] && s.funded == {}
  {
    hide Reachable, Visible, Claims.Apply, Claims.Enabled;
    s, gd := ConfigIsWritten(invite);
    var config := PlannedConfig(0, invite);
    var slot := Slot(Manager(0), ConfigKey);
    s := Next(s, Sync(Manager(0), Machine(0), 0, slot));
    assert Rep(s, Machine(0), 0) == ConfigEntry(config);
    OneEntryShows(Rep(s, Machine(0), 0), slot, Entry(1, ConfigValue(config)));
    s := Next(s, ReadConfig(0));
    md := MachineOf(s, 0);
  }

  /** The first join of the machine may break off: then it is claimed, configured and up, and will never
      ask for a payment. */
  lemma MachineCanBreak(invite: Invite) returns (s: State)
    ensures Reachable(s) && MachineOf(s, 0).running && ClaimedMachine(s, 0).mem == Some(0)
    ensures SeenConfig(s, 0) == Some(PlannedConfig(0, invite)) && 0 in Tickets(s, 0)
    ensures Broken(MachineOf(s, 0).disk, invite.federation)
    ensures WalletDisk.Stuck(MachineOf(s, 0).disk, invite.federation)
  {
    hide Reachable, Visible, Claims.Apply, Claims.Enabled;
    var md, gd;
    s, md, gd := ConfigIsSeen(invite);
    s := Next(s, MachineSetsDefault(0, PlannedConfig(0, invite), WalletDisk.NotJoined(false), true));
  }

  /** And so may the manager's: it lists a machine that it will never configure for that federation. */
  lemma ManagerCanBreak(invite: Invite) returns (s: State)
    ensures Reachable(s) && ManagerOf(s, 0).running && 0 in Tickets(s, 0)
    ensures Broken(ManagerOf(s, 0).disk, invite.federation)
    ensures WalletDisk.Stuck(ManagerOf(s, 0).disk, invite.federation)
  {
    hide Reachable, Visible, Claims.Apply, Claims.Enabled;
    var k := MachineIsClaimed();
    s := Claiming(k, OWNED, LISTING, map[0 := 0]);
    s := Next(s, ManagerSetsDefault(0, invite, WalletDisk.NotOpened(true), true));
  }

  /** Otherwise the machine joins and asks for a payment, which is made. */
  lemma PaymentIsMade(invite: Invite, id: Hash, amount: nat, outpoint: nat)
    returns (s: State, md: MachineData, gd: ManagerData)
    ensures
      var config := PlannedConfig(0, invite);
      var pay := PayId(invite.federation, id);
      && Reachable(s) && Working(s, ConfigEntry(config), ConfigEntry(config), md, gd)
      && md.wallet == map[pay := Contract(id, config.claimerPk, amount, outpoint)] && md.seen == {config}
      && md.disk.clients == {invite.federation} && gd.disk == JoinedOne(invite) && Untouched(gd)
      && s.ledger == map[pay := Terms(0, config.claimerPk, amount)] && s.funded == {pay}
  {
    hide Reachable, Visible, Claims.Apply, Claims.Enabled;
    s, md, gd := ConfigIsSeen(invite);
    var config := PlannedConfig(0, invite);
    var pay := PayId(invite.federation, id);
    s := Next(s, MachineSetsDefault(0, config, WalletDisk.Joined, true));
    s := Next(s, Request(0, config, id, amount));
    s := Next(s, Fund(pay, outpoint));
    md := MachineOf(s, 0);
    assert md.wallet == map[pay := Contract(id, config.claimerPk, amount, outpoint)];
  }

  function PaymentEntries(config: MachineConfig, c: Contract): Replica {
    ConfigEntry(config)[Slot(Machine(0), ContractKey(PayId(config.invite.federation, c.id))) :=
      Entry(1, ContractValue(c))]
  }

  /** The machine takes it into a batch. */
  lemma PaymentIsFetched(invite: Invite, id: Hash, amount: nat, outpoint: nat)
    returns (s: State, md: MachineData, gd: ManagerData)
    ensures
      var config := PlannedConfig(0, invite);
      var pay := PayId(invite.federation, id);
      var c := Contract(id, config.claimerPk, amount, outpoint);
      && Reachable(s) && Working(s, ConfigEntry(config), ConfigEntry(config), md, gd)
      && md.batch == map[pay := c] && md.written == {} && md.wallet.Keys == {pay}
      && gd.disk == JoinedOne(invite) && Untouched(gd)
      && s.ledger == map[pay := Terms(0, config.claimerPk, amount)] && s.funded == {pay}
  {
    hide Reachable, Visible, Claims.Apply, Claims.Enabled;
    s, md, gd := PaymentIsMade(invite, id, amount, outpoint);
    var config := PlannedConfig(0, invite);
    var pay := PayId(invite.federation, id);
    var c := Contract(id, config.claimerPk, amount, outpoint);
    s := Next(s, FetchBatch(0, config));
    assert MachineOf(s, 0).batch == map[pay := c];
    md := MachineOf(s, 0);
  }

  /** The machine writes it to its replica. */
  lemma PaymentIsWritten(invite: Invite, id: Hash, amount: nat, outpoint: nat)
    returns (s: State, md: MachineData, gd: ManagerData)
    ensures
      var config := PlannedConfig(0, invite);
      var pay := PayId(invite.federation, id);
      var c := Contract(id, config.claimerPk, amount, outpoint);
      && Reachable(s) && Working(s, PaymentEntries(config, c), ConfigEntry(config), md, gd)
      && md.written == {pay} && md.wallet.Keys == {pay}
      && gd.disk == JoinedOne(invite) && Untouched(gd)
      && s.ledger == map[pay := Terms(0, config.claimerPk, amount)] && s.funded == {pay}
  {
    hide Reachable, Visible, Claims.Apply, Claims.Enabled;
    s, md, gd := PaymentIsFetched(invite, id, amount, outpoint);
    var config := PlannedConfig(0, invite);
    var pay := PayId(invite.federation, id);
    var c := Contract(id, config.claimerPk, amount, outpoint);
    s := Next(s, WritePayment(0, pay, 1));
    md := MachineOf(s, 0);
  }

  /** Then it drops it from its wallet, and the manager receives it. */
  lemma PaymentArrives(invite: Invite, id: Hash, amount: nat, outpoint: nat)
    returns (s: State, md: MachineData, gd: ManagerData)
    ensures
      var config := PlannedConfig(0, invite);
      var pay := PayId(invite.federation, id);
      var c := Contract(id, config.claimerPk, amount, outpoint);
      && Reachable(s) && Working(s, PaymentEntries(config, c), PaymentEntries(config, c), md, gd) && md.wallet == map[]
      && gd.disk == JoinedOne(invite) && Untouched(gd)
      && s.ledger == map[pay := Terms(0, config.claimerPk, amount)] && s.funded == {pay}
  {
    hide Reachable, Visible, Claims.Apply, Claims.Enabled;
    s, md, gd := PaymentIsWritten(invite, id, amount, outpoint);
    var config := PlannedConfig(0, invite);
    var pay := PayId(invite.federation, id);
    var c := Contract(id, config.claimerPk, amount, outpoint);
    s := Next(s, RemovePayments(0, {pay}));
    md := MachineOf(s, 0);
    assert md.wallet == map[];
    s := Next(s, Sync(Machine(0), Manager(0), 0, Slot(Machine(0), ContractKey(pay))));
    assert Rep(s, Manager(0), 0) == PaymentEntries(config, c);
  }

  lemma PaymentShows(config: MachineConfig, c: Contract)
    ensures Visible(PaymentEntries(config, c), ContractKey(PayId(config.invite.federation, c.id))) ==
      Some(ContractValue(c))
  {
    var r, key := PaymentEntries(config, c), ContractKey(PayId(config.invite.federation, c.id));
    assert Slot(Machine(0), key) in r;
    assert LatestSlot(r, key).Some? && LatestSlot(r, key).value == Slot(Machine(0), key);
  }

  /** The manager lists and claims it. */
  lemma PaymentIsClaimed(invite: Invite, id: Hash, amount: nat, outpoint: nat)
    returns (s: State, md: MachineData, gd: ManagerData)
    ensures
      var config := PlannedConfig(0, invite);
      var pay := PayId(invite.federation, id);
      var c := Contract(id, config.claimerPk, amount, outpoint);
      && Reachable(s) && Working(s, PaymentEntries(config, c), PaymentEntries(config, c), md, gd) && md.wallet == map[]
      && gd.claimed == {pay} && gd.credit == amount && gd.swept == {Item(0, invite.federation, c)}
      && s.ledger == map[pay := Terms(0, config.claimerPk, amount)] && s.funded == {pay}
  {
    hide Reachable, Visible, Claims.Apply, Claims.Enabled;
    s, md, gd := PaymentArrives(invite, id, amount, outpoint);
    var config := PlannedConfig(0, invite);
    var pay := PayId(invite.federation, id);
    var c := Contract(id, config.claimerPk, amount, outpoint);
    PaymentShows(config, c);
    s := Next(s, ListContract(0, 0, pay));
    s := Next(s, ClaimContract(0, Item(0, invite.federation, c)));
    gd := ManagerOf(s, 0);
  }

  /** The manager deletes it. In the state reached the manager has been credited the
      amount once, no work is left, and the payment is settled in the manager's replica: the promises
      about whole runs are about runs that exist. */
  lemma PaymentGoesThrough(invite: Invite, id: Hash, amount: nat, outpoint: nat) returns (s: State)
    ensures Reachable(s)
    ensures
      var pay := PayId(invite.federation, id);
      && pay in s.ledger && s.funded == {pay} && Paid(s, pay) && ManagerOf(s, 0).credit == amount
      && Stage(s, pay) == 0 && Settled(s, Manager(0), pay) && Configured(s, 0, 0, invite.federation)
      && Issuer(s, pay) == 0
  {
    hide Reachable, Visible, Claims.Apply, Claims.Enabled;
    var md, gd;
    s, md, gd := PaymentIsClaimed(invite, id, amount, outpoint);
    var config := PlannedConfig(0, invite);
    var pay := PayId(invite.federation, id);
    var c := Contract(id, config.claimerPk, amount, outpoint);
    s := Next(s, DeleteContract(0, Item(0, invite.federation, c), 2));
  }

  /** Why settling speaks of payments that are not made again: the sender can pay the settled contract once more,
      and then it is in the machine's wallet again, at the new outpoint. */
  lemma SettledCanBePaidAgain(invite: Invite, id: Hash, amount: nat, outpoint: nat, again: nat) returns (s: State)
    ensures Reachable(s)
    ensures
      var pay := PayId(invite.federation, id);
      && pay in s.ledger && Paid(s, pay) && !Settled(s, Manager(0), pay) && Stage(s, pay) > 0
      && pay in MachineOf(s, 0).wallet && MachineOf(s, 0).wallet[pay].outpoint == again
  {
    hide Reachable, Visible, Claims.Apply, Claims.Enabled;
    var pay := PayId(invite.federation, id);
    s := PaymentGoesThrough(invite, id, amount, outpoint);
    s := Next(s, Fund(pay, again));
  }

  // ---------------------------------------------------------------------------------------------
  // Overlapping calls
  // ---------------------------------------------------------------------------------------------

  /** Two calls of `update_federation` that overlap, in any reachable state in which the manager is up and no
      first join of the two federations has broken off: the first one has made its federation the default
      and connected it, the second one does the same before the first one's pass reads the default, and so
      both passes plan the second federation. */
  lemma OverlapPlansTheOther(s: State, g: ManagerId, a: Invite, b: Invite) returns (s1: State, s2: State)
    requires Reachable(s) && ManagerOf(s, g).running && a != b
    requires !WalletDisk.Stuck(ManagerOf(s, g).disk, a.federation)
    requires !WalletDisk.Stuck(ManagerOf(s, g).disk, b.federation)
    ensures Reachable(s2) && SetsDefault(s, s1, g, a) && SetsDefault(s1, s2, g, b)
    ensures a.federation in ManagerClients(s2, g)
    ensures Planned(s1, g) == Some(PlannedConfig(g, a)) && Planned(s2, g) == Some(PlannedConfig(g, b))
  {
    hide Reachable;
    s1 := Next(s, ManagerSetsDefault(g, a, WalletDisk.Joined, true));
    s2 := Next(s1, ManagerSetsDefault(g, b, WalletDisk.Joined, true));
    assert SetsDefault(s, s1, g, a) && SetsDefault(s1, s2, g, b);
  }
}
