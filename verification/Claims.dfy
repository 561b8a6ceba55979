/**
 The claim handshake between machines and managers, as a state machine. One step is one stretch
 of code between two await points, so every interleaving of handlers, claim tasks, user answers,
 failures and crashes is a sequence of these steps.
 */
module Claims {
  import opened Types

  const PING_MAGIC_BYTES: Bytes := [1, 2, 3, 4]

  /** What both ends of a connection export from it. */
  type Keying = k: Bytes | |k| == 32 witness seq(32, _ => 0)

  /** Where the machine's handler of one connection stands. */
  datatype Handler =
    | Waiting                // wants the owner lock
    | Prompting              // holds the lock; the PIN went to the machine's user
    | Accepted               // the user said yes; waits for the magic bytes
    | Pinged                 // the magic bytes arrived
    | Prepared(doc: DocId)   // the machine's doc is open and its ticket made
    | Recorded(doc: DocId)   // the owner is on disk, not yet in memory
    | Sending(doc: DocId)    // the owner is in memory, the lock released
    | Closed

  /** Where the manager's claim task of one connection stands. */
  datatype Claimer =
    | Deciding
    | Opening
    | Reading
    | Imported(doc: DocId)
    | Finished

  /** `keying` is the material both ends export from the connection; `ping` and `reply` are what
      has been delivered to the other end. */
  datatype Conn = Conn(
    machine: MachineId, manager: ManagerId, keying: Keying,
    handler: Handler, machinePin: Option<nat>, machineAnswer: Option<bool>,
    claimer: Claimer, managerPin: nat, managerAnswer: Option<bool>,
    ping: Option<Bytes>, reply: Option<DocId>)

  /** `disk` and `mem` are the owner in the key file and behind the mutex; `ticket` is the doc
      named by the machine's own ticket file. */
  datatype Machine = Machine(
    disk: Option<ManagerId>, mem: Option<ManagerId>, lock: Option<ConnId>, ticket: Option<DocId>)

  /** `tickets` is the directory of ticket files, which is what the manager lists. */
  datatype Manager = Manager(tickets: map<MachineId, DocId>, imported: set<DocId>)

  /** `makers` remembers which machine created a doc: docs of two machines never coincide. */
  datatype State = State(
    machines: map<MachineId, Machine>, managers: map<ManagerId, Manager>,
    conns: map<ConnId, Conn>, makers: map<DocId, MachineId>)

  /** What one connection's two ends can touch. */
  datatype Local = Local(conn: Conn, mach: Machine, mgr: Manager)

  datatype Act =
    | TakeLock
    | MachineAnswers(yes: bool)
    | ReadPing
    | PrepareDoc(spare: DocId)
    | RecordOwner
    | CommitOwner
    | SendTicket
    | HandlerFails
    | ManagerAnswers(yes: bool)
    | SendPing
    | ImportTicket
    | StoreTicket
    | ClaimerFails

  datatype Step =
    | Connect(c: ConnId, m: MachineId, g: ManagerId, keying: Keying)
    | OnConn(c: ConnId, act: Act)
    | EnsureDoc(m: MachineId, spare: DocId)
    | CrashMachine(m: MachineId)
    | CrashManager(g: ManagerId)

  const INIT := State(map[], map[], map[], map[])

  function MachineOf(s: State, m: MachineId): Machine {
    if m in s.machines then s.machines[m] else Machine.Machine(None, None, None, None)
  }

  function ManagerOf(s: State, g: ManagerId): Manager {
    if g in s.managers then s.managers[g] else Manager.Manager(map[], {})
  }

  function LocalOf(s: State, c: ConnId): Local
    requires c in s.conns
  {
    var k := s.conns[c];
    Local(k, MachineOf(s, k.machine), ManagerOf(s, k.manager))
  }

  /** `claim_pin_from_keying_material`: the first four bytes as one number, cut down to six digits. */
  function Pin(keying: Keying): nat {
    var a: int, b: int, c: int, d: int := keying[0], keying[1], keying[2], keying[3];
    (a * 0x100_0000 + b * 0x1_0000 + c * 0x100 + d) % 1_000_000
  }

  predicate Holding(h: Handler) {
    h.Prompting? || h.Accepted? || h.Pinged? || h.Prepared? || h.Recorded?
  }

  /** Another manager already owns the machine, as far as the handler can see. */
  predicate Taken(mach: Machine, g: ManagerId) {
    mach.mem.Some? && mach.mem.value != g
  }

  predicate CanAct(act: Act, l: Local) {
    var k := l.conn;
    match act
    case TakeLock => k.handler.Waiting? && l.mach.lock.None?
    case MachineAnswers(_) => k.handler.Prompting?
    case ReadPing => k.handler.Accepted? && k.ping.Some?
    case PrepareDoc(_) => k.handler.Pinged?
    case RecordOwner => k.handler.Prepared?
    case CommitOwner => k.handler.Recorded?
    case SendTicket => k.handler.Sending?
    case HandlerFails => !k.handler.Closed? && !k.handler.Recorded?
    case ManagerAnswers(_) => k.claimer.Deciding?
    case SendPing => k.claimer.Opening?
    case ImportTicket => k.claimer.Reading? && k.reply.Some?
    case StoreTicket => k.claimer.Imported?
    case ClaimerFails => !k.claimer.Finished?
  }

  /** Leave the handler; dropping its guard releases the lock if it was held. */
  function Leave(l: Local): Local {
    l.(conn := l.conn.(handler := Closed),
       mach := if Holding(l.conn.handler) then l.mach.(lock := None) else l.mach)
  }

  function Perform(c: ConnId, act: Act, l: Local): Local
    requires CanAct(act, l)
  {
    var k, mach, mgr := l.conn, l.mach, l.mgr;
    match act
    case TakeLock =>
      if Taken(mach, k.manager) then l.(conn := k.(handler := Closed))
      else l.(conn := k.(handler := Prompting, machinePin := Some(Pin(k.keying))),
              mach := mach.(lock := Some(c)))
    case MachineAnswers(yes) =>
      var l' := l.(conn := k.(machineAnswer := Some(yes)));
      if yes then l'.(conn := l'.conn.(handler := Accepted)) else Leave(l')
    case ReadPing =>
      if k.ping == Some(PING_MAGIC_BYTES) then l.(conn := k.(handler := Pinged)) else Leave(l)
    case PrepareDoc(spare) =>
      var doc := if mach.ticket.Some? then mach.ticket.value else spare;
      l.(conn := k.(handler := Prepared(doc)), mach := mach.(ticket := Some(doc)))
    case RecordOwner =>
      l.(conn := k.(handler := Recorded(k.handler.doc)), mach := mach.(disk := Some(k.manager)))
    case CommitOwner =>
      l.(conn := k.(handler := Sending(k.handler.doc)), mach := mach.(mem := Some(k.manager), lock := None))
    case SendTicket => l.(conn := k.(handler := Closed, reply := Some(k.handler.doc)))
    case HandlerFails => Leave(l)
    case ManagerAnswers(yes) =>
      l.(conn := k.(managerAnswer := Some(yes), claimer := if yes then Opening else Finished))
    case SendPing => l.(conn := k.(claimer := Reading, ping := Some(PING_MAGIC_BYTES)))
    case ImportTicket =>
      l.(conn := k.(claimer := Imported(k.reply.value)), mgr := mgr.(imported := mgr.imported + {k.reply.value}))
    case StoreTicket =>
      l.(conn := k.(claimer := Finished), mgr := mgr.(tickets := mgr.tickets[k.machine := k.claimer.doc]))
    case ClaimerFails => l.(conn := k.(claimer := Finished))
  }

  /** A doc the machine may still have to create gets an id nobody used before. */
  predicate DocAvailable(s: State, m: MachineId, spare: DocId) {
    MachineOf(s, m).ticket.None? ==> spare !in s.makers
  }

  predicate Enabled(s: State, step: Step) {
    match step
    case Connect(c, _, _, _) => c !in s.conns
    case OnConn(c, act) =>
      && c in s.conns && CanAct(act, LocalOf(s, c))
      && (act.PrepareDoc? ==> DocAvailable(s, s.conns[c].machine, act.spare))
    case EnsureDoc(m, spare) => DocAvailable(s, m, spare)
    case CrashMachine(_) => true
    case CrashManager(_) => true
  }

  /** Put a machine back; a ticket it did not have before names a doc it has just made. */
  function SetMachine(s: State, m: MachineId, mach: Machine): State {
    s.(machines := s.machines[m := mach],
       makers :=
         if MachineOf(s, m).ticket.None? && mach.ticket.Some? then s.makers[mach.ticket.value := m] else s.makers)
  }

  function SetLocal(s: State, c: ConnId, l: Local): State {
    SetMachine(s, l.conn.machine, l.mach)
      .(conns := s.conns[c := l.conn], managers := s.managers[l.conn.manager := l.mgr])
  }

  function Apply(s: State, step: Step): State
    requires Enabled(s, step)
  {
    match step
    case Connect(c, m, g, keying) =>
      s.(conns := s.conns[c := Conn.Conn(m, g, keying, Waiting, None, None, Deciding, Pin(keying), None, None, None)])
    case OnConn(c, act) => SetLocal(s, c, Perform(c, act, LocalOf(s, c)))
    case EnsureDoc(m, spare) =>
      var mach := MachineOf(s, m);
      SetMachine(s, m, if mach.ticket.Some? then mach else mach.(ticket := Some(spare)))
    case CrashMachine(m) =>
      var mach := MachineOf(s, m);
      SetMachine(s, m, mach.(mem := mach.disk, lock := None)).(
        conns := map c | c in s.conns ::
          if s.conns[c].machine == m then s.conns[c].(handler := Closed) else s.conns[c])
    case CrashManager(g) =>
      s.(conns := map c | c in s.conns ::
           if s.conns[c].manager == g then s.conns[c].(claimer := Finished) else s.conns[c])
  }

  predicate Legal(s: State, steps: seq<Step>)
    decreases |steps|
  {
    steps == [] || (Enabled(s, steps[0]) && Legal(Apply(s, steps[0]), steps[1..]))
  }

  function Run(s: State, steps: seq<Step>): State
    requires Legal(s, steps)
    decreases |steps|
  {
    if steps == [] then s else Run(Apply(s, steps[0]), steps[1..])
  }

  // ---------------------------------------------------------------------------------------------
  // The invariant
  // ---------------------------------------------------------------------------------------------

  /** Both users said yes on this one connection, after seeing the same PIN. */
  predicate Agreed(k: Conn) {
    k.machineAnswer == Some(true) && k.managerAnswer == Some(true) && k.machinePin == Some(k.managerPin)
  }

  ghost predicate Consented(s: State, m: MachineId, g: ManagerId) {
    exists c :: c in s.conns && s.conns[c].machine == m && s.conns[c].manager == g && Agreed(s.conns[c])
  }

  /** What a handler's progress says about the answers on its own connection. */
  predicate HandlerOk(k: Conn) {
    && k.managerPin == Pin(k.keying)
    && (k.machinePin.Some? ==> k.machinePin == Some(k.managerPin))
    && (Holding(k.handler) ==> k.machinePin.Some?)
    && (k.handler.Waiting? || k.handler.Prompting? ==> k.machineAnswer.None?)
    && (k.handler.Accepted? ==> k.machineAnswer == Some(true))
    && (k.handler.Pinged? || k.handler.Prepared? || k.handler.Recorded? || k.handler.Sending? ==> Agreed(k))
  }

  predicate ClaimerOk(k: Conn) {
    && (k.claimer.Deciding? ==> k.managerAnswer.None? && k.ping.None?)
    && (k.claimer.Opening? || k.ping.Some? ==> k.managerAnswer == Some(true))
    && (k.claimer.Imported? ==> k.reply == Some(k.claimer.doc))
  }

  /** The machine belongs to this connection's manager and its ticket file names this doc. */
  predicate Granted(k: Conn, mach: Machine, doc: DocId) {
    mach.mem == Some(k.manager) && mach.ticket == Some(doc)
  }

  predicate ConnOk(c: ConnId, k: Conn, mach: Machine) {
    && HandlerOk(k) && ClaimerOk(k)
    && (Holding(k.handler) ==> mach.lock == Some(c) && !Taken(mach, k.manager))
    && (Holding(k.handler) && !k.handler.Recorded? ==> mach.disk == mach.mem)
    && (k.handler.Prepared? ==> mach.ticket == Some(k.handler.doc))
    && (k.handler.Recorded? ==> mach.disk == Some(k.manager) && mach.ticket == Some(k.handler.doc))
    && (k.handler.Sending? ==> Granted(k, mach, k.handler.doc))
    && (k.reply.Some? ==> Granted(k, mach, k.reply.value))
  }

  /** The part of a machine's invariant that speaks of no other record. */
  predicate MachineSelfOk(mach: Machine) {
    && (mach.lock.None? ==> mach.disk == mach.mem)
    && (mach.mem.Some? ==> mach.disk == mach.mem)
  }

  ghost predicate MachineOk(s: State, m: MachineId, mach: Machine) {
    && (mach.lock.Some? ==>
          mach.lock.value in s.conns && s.conns[mach.lock.value].machine == m
            && Holding(s.conns[mach.lock.value].handler))
    && MachineSelfOk(mach)
    && (mach.disk.Some? ==> Consented(s, m, mach.disk.value))
    && (mach.ticket.Some? ==> mach.ticket.value in s.makers && s.makers[mach.ticket.value] == m)
  }

  ghost predicate ManagerOk(s: State, g: ManagerId, mgr: Manager) {
    && (forall m :: m in mgr.tickets ==>
          MachineOf(s, m).mem == Some(g) && MachineOf(s, m).ticket == Some(mgr.tickets[m])
          && mgr.tickets[m] in mgr.imported)
    && (forall d :: d in mgr.imported ==>
          d in s.makers && MachineOf(s, s.makers[d]).mem == Some(g) && MachineOf(s, s.makers[d]).ticket == Some(d))
  }

  /** A task that is about to store a ticket has imported the doc. */
  ghost predicate ImportsOk(s: State) {
    forall c :: c in s.conns && s.conns[c].claimer.Imported? ==>
      s.conns[c].claimer.doc in ManagerOf(s, s.conns[c].manager).imported
  }

  ghost predicate ConnsOk(s: State) {
    forall c :: c in s.conns ==> ConnOk(c, s.conns[c], MachineOf(s, s.conns[c].machine))
  }

  ghost predicate MachinesOk(s: State) {
    forall m :: m in s.machines ==> MachineOk(s, m, s.machines[m])
  }

  ghost predicate ManagersOk(s: State) {
    forall g :: ManagerOk(s, g, ManagerOf(s, g))
  }

  ghost predicate Inv(s: State) {
    ConnsOk(s) && MachinesOk(s) && ManagersOk(s) && ImportsOk(s)
  }

  // ---------------------------------------------------------------------------------------------
  // Every step keeps it
  // ---------------------------------------------------------------------------------------------

  /** A recorded owner and a doc ticket are never changed or taken away. */
  predicate Advances(a: Machine, b: Machine) {
    (a.disk.Some? ==> b.disk == a.disk) && (a.mem.Some? ==> b.mem == a.mem) && (a.ticket.Some? ==> b.ticket == a.ticket)
  }

  /** A manager loses no ticket file and no imported doc. */
  predicate KeepsDocs(a: Manager, b: Manager) {
    a.tickets.Keys <= b.tickets.Keys && a.imported <= b.imported
  }

  predicate SameParties(a: Conn, b: Conn) {
    a.machine == b.machine && a.manager == b.manager && (Agreed(a) ==> Agreed(b))
  }

  /** What any act of one connection's ends does to the records it can touch. */
  predicate Lawful(c: ConnId, l: Local, l': Local) {
    && ConnOk(c, l'.conn, l'.mach)
    && Advances(l.mach, l'.mach) && SameParties(l.conn, l'.conn) && KeepsDocs(l.mgr, l'.mgr)
    && (l'.mach != l.mach ==> l.mach.lock == None || l.mach.lock == Some(c))
    && l'.mach.lock ==
         (if Holding(l'.conn.handler) then Some(c) else if Holding(l.conn.handler) then None else l.mach.lock)
    && (l'.mach.disk != l.mach.disk ==> l'.mach.disk == Some(l.conn.manager) && Agreed(l'.conn))
    && (l'.mach.lock == None ==> l'.mach.disk == l'.mach.mem)
    && (l'.mach.mem.Some? ==> l'.mach.disk == l'.mach.mem)
  }

  lemma PerformIsLawful(c: ConnId, act: Act, l: Local)
    requires CanAct(act, l) && ConnOk(c, l.conn, l.mach) && MachineSelfOk(l.mach)
    ensures Lawful(c, l, Perform(c, act, l))
  {
    hide Pin;
  }

  /** A machine that another connection is allowed to change leaves this connection in order. */
  lemma OtherConnKept(c: ConnId, k: Conn, a: Machine, b: Machine, c': ConnId)
    requires ConnOk(c, k, a) && Advances(a, b) && c != c'
    requires a != b ==> a.lock == None || a.lock == Some(c')
    ensures ConnOk(c, k, b)
  {
  }

  ghost predicate Durable(s: State, s': State) {
    && (forall m {:trigger MachineOf(s', m)} :: Advances(MachineOf(s, m), MachineOf(s', m)))
    && (forall g {:trigger ManagerOf(s', g)} :: KeepsDocs(ManagerOf(s, g), ManagerOf(s', g)))
    && (forall d :: d in s.makers ==> d in s'.makers && s'.makers[d] == s.makers[d])
    && (forall c :: c in s.conns ==> c in s'.conns && SameParties(s.conns[c], s'.conns[c]))
  }

  lemma DurableIsReflexive(s: State)
    ensures Durable(s, s)
  {
  }

  lemma DurableIsTransitive(a: State, b: State, c: State)
    requires Durable(a, b) && Durable(b, c)
    ensures Durable(a, c)
  {
    forall m ensures Advances(MachineOf(a, m), MachineOf(c, m)) {
      assert Advances(MachineOf(a, m), MachineOf(b, m)) && Advances(MachineOf(b, m), MachineOf(c, m));
    }
    forall g ensures KeepsDocs(ManagerOf(a, g), ManagerOf(c, g)) {
      assert KeepsDocs(ManagerOf(a, g), ManagerOf(b, g)) && KeepsDocs(ManagerOf(b, g), ManagerOf(c, g));
    }
    forall k | k in a.conns ensures k in c.conns && SameParties(a.conns[k], c.conns[k]) {
      assert SameParties(a.conns[k], b.conns[k]) && SameParties(b.conns[k], c.conns[k]);
    }
  }

  lemma SetLocalIsDurable(s: State, c: ConnId, l': Local)
    requires c in s.conns && Lawful(c, LocalOf(s, c), l')
    requires LocalOf(s, c).mach.ticket.None? && l'.mach.ticket.Some? ==> l'.mach.ticket.value !in s.makers
    ensures Durable(s, SetLocal(s, c, l'))
  {
  }

  /** An act of a connection is lawful and, when it makes a doc, uses a new id. */
  lemma ActIsLawful(s: State, c: ConnId, act: Act)
    requires ConnsOk(s) && MachinesOk(s) && Enabled(s, OnConn(c, act))
    ensures c in s.conns
    ensures
      var l, l' := LocalOf(s, c), Perform(c, act, LocalOf(s, c));
      && CanAct(act, l) && Lawful(c, l, l') && Apply(s, OnConn(c, act)) == SetLocal(s, c, l')
      && (l.mach.ticket.None? && l'.mach.ticket.Some? ==> l'.mach.ticket.value !in s.makers)
  {
    var l := LocalOf(s, c);
    assert l.conn.machine in s.machines ==> MachineOk(s, l.conn.machine, l.mach);
    assert ConnOk(c, l.conn, l.mach);
    PerformIsLawful(c, act, l);
    if l.mach.ticket.None? && Perform(c, act, l).mach.ticket.Some? {
      NewTicketIsSpare(c, act, l);
    }
  }

  lemma NewTicketIsSpare(c: ConnId, act: Act, l: Local)
    requires CanAct(act, l) && l.mach.ticket.None? && Perform(c, act, l).mach.ticket.Some?
    ensures act.PrepareDoc? && Perform(c, act, l).mach.ticket.value == act.spare
  {
  }

  lemma CrashIsDurable(s: State, m: MachineId)
    requires MachineSelfOk(MachineOf(s, m))
    ensures Durable(s, Apply(s, CrashMachine(m)))
  {
  }

  lemma SelfIsOk(s: State, m: MachineId)
    requires MachinesOk(s)
    ensures MachineSelfOk(MachineOf(s, m))
  {
    assert m in s.machines ==> MachineOk(s, m, s.machines[m]);
  }

  lemma OtherStepsAreDurable(s: State, step: Step)
    requires Enabled(s, step) && !step.OnConn? && !step.CrashMachine?
    ensures Durable(s, Apply(s, step))
  {
    hide CanAct, Perform;
  }

  /** Owners, tickets, doc makers and given consent survive every step, crashes included. */
  lemma StepIsDurable(s: State, step: Step)
    requires Inv(s) && Enabled(s, step)
    ensures Durable(s, Apply(s, step))
  {
    hide Enabled, Apply, Durable, Perform, CanAct, ConnsOk, MachinesOk, ManagersOk, ImportsOk, Lawful;
    if step.OnConn? {
      ActIsLawful(s, step.c, step.act);
      SetLocalIsDurable(s, step.c, Perform(step.c, step.act, LocalOf(s, step.c)));
    } else if step.CrashMachine? {
      SelfIsOk(s, step.m);
      CrashIsDurable(s, step.m);
    } else {
      OtherStepsAreDurable(s, step);
    }
  }

  lemma ConsentSurvives(s: State, s': State, m: MachineId, g: ManagerId)
    requires Durable(s, s') && Consented(s, m, g)
    ensures Consented(s', m, g)
  {
    var c :| c in s.conns && s.conns[c].machine == m && s.conns[c].manager == g && Agreed(s.conns[c]);
    assert c in s'.conns && SameParties(s.conns[c], s'.conns[c]);
  }

  lemma SetLocalKeepsConns(s: State, c: ConnId, l': Local)
    requires ConnsOk(s) && c in s.conns && Lawful(c, LocalOf(s, c), l')
    ensures ConnsOk(SetLocal(s, c, l'))
  {
    var s' := SetLocal(s, c, l');
    forall d | d in s'.conns && d != c ensures ConnOk(d, s'.conns[d], MachineOf(s', s'.conns[d].machine)) {
      var m := s.conns[d].machine;
      OtherConnKept(d, s.conns[d], MachineOf(s, m), MachineOf(s', m), c);
    }
  }

  /** The lock of the machine after an act: this connection's, another's that was left alone, or free. */
  lemma LockAfterAct(s: State, c: ConnId, l': Local, m: MachineId)
    requires ConnsOk(s) && MachinesOk(s) && c in s.conns && Lawful(c, LocalOf(s, c), l')
    requires MachineOf(SetLocal(s, c, l'), m).lock.Some?
    ensures
      var s' := SetLocal(s, c, l');
      var holder := MachineOf(s', m).lock.value;
      holder in s'.conns && s'.conns[holder].machine == m && Holding(s'.conns[holder].handler)
  {
    hide MachineSelfOk, Advances;
    assert ConnOk(c, s.conns[c], LocalOf(s, c).mach);
    assert m in s.machines ==> MachineOk(s, m, MachineOf(s, m));
  }

  lemma OwnerAfterAct(s: State, c: ConnId, l': Local, m: MachineId)
    requires MachinesOk(s) && c in s.conns && Lawful(c, LocalOf(s, c), l') && Durable(s, SetLocal(s, c, l'))
    requires MachineOf(SetLocal(s, c, l'), m).disk.Some?
    ensures Consented(SetLocal(s, c, l'), m, MachineOf(SetLocal(s, c, l'), m).disk.value)
  {
    hide Durable, ConnOk;
    var s' := SetLocal(s, c, l');
    if MachineOf(s', m).disk != MachineOf(s, m).disk {
      assert s'.conns[c] == l'.conn;
    } else {
      assert MachineOk(s, m, MachineOf(s, m));
      ConsentSurvives(s, s', m, MachineOf(s, m).disk.value);
    }
  }

  lemma RestAfterAct(s: State, c: ConnId, l': Local, m: MachineId)
    requires MachinesOk(s) && c in s.conns && Lawful(c, LocalOf(s, c), l') && Durable(s, SetLocal(s, c, l'))
    ensures
      var s' := SetLocal(s, c, l');
      var mach := MachineOf(s', m);
      && MachineSelfOk(mach)
      && (mach.ticket.Some? ==> mach.ticket.value in s'.makers && s'.makers[mach.ticket.value] == m)
  {
    hide ConnOk, Consented;
    assert m in s.machines ==> MachineOk(s, m, MachineOf(s, m));
  }

  lemma SetLocalKeepsMachine(s: State, c: ConnId, l': Local, m: MachineId)
    requires ConnsOk(s) && MachinesOk(s) && c in s.conns && Lawful(c, LocalOf(s, c), l')
    requires Durable(s, SetLocal(s, c, l')) && m in SetLocal(s, c, l').machines
    ensures MachineOk(SetLocal(s, c, l'), m, SetLocal(s, c, l').machines[m])
  {
    hide ConnsOk, MachinesOk, Lawful, Durable, SetLocal, Consented, MachineSelfOk, Holding;
    var mach := MachineOf(SetLocal(s, c, l'), m);
    RestAfterAct(s, c, l', m);
    if mach.lock.Some? {
      LockAfterAct(s, c, l', m);
    }
    if mach.disk.Some? {
      OwnerAfterAct(s, c, l', m);
    }
  }

  lemma OtherStepsKeepConns(s: State, step: Step)
    requires ConnsOk(s) && MachinesOk(s) && Enabled(s, step) && !step.OnConn?
    ensures ConnsOk(Apply(s, step))
  {
    hide CanAct, Perform;
  }

  lemma StepKeepsConns(s: State, step: Step)
    requires ConnsOk(s) && MachinesOk(s) && Enabled(s, step)
    ensures ConnsOk(Apply(s, step))
  {
    hide Enabled, Apply, Perform, CanAct, ConnsOk, MachinesOk, Lawful;
    if step.OnConn? {
      ActIsLawful(s, step.c, step.act);
      SetLocalKeepsConns(s, step.c, Perform(step.c, step.act, LocalOf(s, step.c)));
    } else {
      OtherStepsKeepConns(s, step);
    }
  }

  lemma OtherStepsKeepMachine(s: State, step: Step, m: MachineId)
    requires ConnsOk(s) && MachinesOk(s) && Enabled(s, step) && Durable(s, Apply(s, step)) && !step.OnConn?
    requires m in Apply(s, step).machines
    ensures MachineOk(Apply(s, step), m, Apply(s, step).machines[m])
  {
    hide CanAct, Perform, Durable, ConnOk;
    assert m in s.machines ==> MachineOk(s, m, s.machines[m]);
    if MachineOf(s, m).disk.Some? {
      ConsentSurvives(s, Apply(s, step), m, MachineOf(s, m).disk.value);
    }
  }

  lemma StepKeepsMachines(s: State, step: Step)
    requires ConnsOk(s) && MachinesOk(s) && Enabled(s, step) && Durable(s, Apply(s, step))
    ensures MachinesOk(Apply(s, step))
  {
    hide Enabled, Apply, Durable, Perform, CanAct, ConnsOk, Lawful, MachineOk;
    var s' := Apply(s, step);
    forall m | m in s'.machines ensures MachineOk(s', m, s'.machines[m]) {
      if step.OnConn? {
        ActIsLawful(s, step.c, step.act);
        SetLocalKeepsMachine(s, step.c, Perform(step.c, step.act, LocalOf(s, step.c)), m);
      } else {
        OtherStepsKeepMachine(s, step, m);
      }
    }
  }

  /** What a manager lists and imported stays right, and so does anything granted to it since. */
  lemma ManagerKept(s: State, s': State, g: ManagerId, mgr: Manager)
    requires ManagerOk(s, g, mgr) && Durable(s, s')
    ensures ManagerOk(s', g, mgr)
  {
    forall m | m in mgr.tickets ensures Advances(MachineOf(s, m), MachineOf(s', m)) {}
    forall d | d in mgr.imported ensures Advances(MachineOf(s, s.makers[d]), MachineOf(s', s.makers[d])) {}
  }

  /** The ticket a granted connection delivers may be imported, and then stored. */
  lemma GrantedMayBeStored(s: State, k: Conn)
    requires ManagerOk(s, k.manager, ManagerOf(s, k.manager)) && MachinesOk(s)
    requires k.reply.Some? && Granted(k, MachineOf(s, k.machine), k.reply.value)
    ensures
      var mgr := ManagerOf(s, k.manager);
      && ManagerOk(s, k.manager, mgr.(imported := mgr.imported + {k.reply.value}))
      && (k.reply.value in mgr.imported ==>
           ManagerOk(s, k.manager, mgr.(tickets := mgr.tickets[k.machine := k.reply.value])))
  {
    assert k.machine in s.machines && MachineOk(s, k.machine, s.machines[k.machine]);
  }

  /** A step leaves a manager as it was, or imports or stores the ticket that its connection brought. */
  lemma ManagerAfter(s: State, step: Step, g: ManagerId)
    requires Enabled(s, step)
    ensures
      var a, b := ManagerOf(s, g), ManagerOf(Apply(s, step), g);
      || b == a
      || (step.OnConn? && s.conns[step.c].manager == g
          && ((step.act.ImportTicket? && s.conns[step.c].reply.Some?
               && b == a.(imported := a.imported + {s.conns[step.c].reply.value}))
              || (step.act.StoreTicket? && s.conns[step.c].claimer.Imported?
                  && b == a.(tickets := a.tickets[s.conns[step.c].machine := s.conns[step.c].claimer.doc]))))
  {
  }

  lemma ReplyIsGranted(s: State, c: ConnId)
    requires ConnsOk(s) && c in s.conns
    ensures
      var k := s.conns[c];
      && (k.reply.Some? ==> Granted(k, MachineOf(s, k.machine), k.reply.value))
      && (k.claimer.Imported? ==> k.reply == Some(k.claimer.doc))
  {
    assert ConnOk(c, s.conns[c], MachineOf(s, s.conns[c].machine));
  }

  lemma StepKeepsManagers(s: State, step: Step)
    requires Inv(s) && Enabled(s, step) && Durable(s, Apply(s, step))
    ensures ManagersOk(Apply(s, step))
  {
    hide Enabled, Apply, Durable, ConnsOk, MachinesOk, ManagerOk, Granted;
    var s' := Apply(s, step);
    forall g ensures ManagerOk(s', g, ManagerOf(s', g)) {
      assert ManagerOk(s, g, ManagerOf(s, g));
      ManagerAfter(s, step, g);
      if ManagerOf(s', g) != ManagerOf(s, g) {
        assert step.c in s.conns by {
          ActsNeedConn(s, step);
        }
        ReplyIsGranted(s, step.c);
        GrantedMayBeStored(s, s.conns[step.c]);
      }
      ManagerKept(s, s', g, ManagerOf(s', g));
    }
  }

  lemma ActsNeedConn(s: State, step: Step)
    requires Enabled(s, step) && step.OnConn?
    ensures step.c in s.conns
  {
    hide CanAct;
  }

  lemma NewImport(s: State, step: Step, c: ConnId)
    requires Enabled(s, step) && c in Apply(s, step).conns && Apply(s, step).conns[c].claimer.Imported?
    ensures c in s.conns && Apply(s, step).conns[c].manager == s.conns[c].manager
    ensures
      var k, k' := s.conns[c], Apply(s, step).conns[c];
      if step == OnConn(c, ImportTicket) then k'.claimer.doc in ManagerOf(Apply(s, step), k'.manager).imported
      else k.claimer == k'.claimer
  {
    hide Taken, Holding;
  }

  lemma StepKeepsImports(s: State, step: Step)
    requires ImportsOk(s) && Enabled(s, step)
    ensures ImportsOk(Apply(s, step))
  {
    hide Enabled, Apply;
    var s' := Apply(s, step);
    forall c | c in s'.conns && s'.conns[c].claimer.Imported?
      ensures s'.conns[c].claimer.doc in ManagerOf(s', s'.conns[c].manager).imported
    {
      NewImport(s, step, c);
      ManagerAfter(s, step, s'.conns[c].manager);
    }
  }

  lemma StepKeepsInv(s: State, step: Step)
    requires Inv(s) && Enabled(s, step)
    ensures Inv(Apply(s, step))
  {
    StepIsDurable(s, step);
    StepKeepsConns(s, step);
    StepKeepsMachines(s, step);
    StepKeepsManagers(s, step);
    StepKeepsImports(s, step);
  }
}
