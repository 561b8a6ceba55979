/** What holds of the claim handshake over whole runs: any managers, connections and crashes. */
module ClaimTheorems {
  import opened Types
  import opened Claims

  lemma {:induction false} RunKeepsInv(s: State, steps: seq<Step>)
    requires Inv(s) && Legal(s, steps)
    ensures Inv(Run(s, steps))
    decreases |steps|
  {
    if steps != [] {
      StepKeepsInv(s, steps[0]);
      RunKeepsInv(Apply(s, steps[0]), steps[1..]);
    }
  }

  lemma {:induction false} RunIsDurable(s: State, steps: seq<Step>)
    requires Inv(s) && Legal(s, steps)
    ensures Durable(s, Run(s, steps))
    decreases |steps|
  {
    if steps == [] {
    } else {
      var s' := Apply(s, steps[0]);
      StepIsDurable(s, steps[0]);
      StepKeepsInv(s, steps[0]);
      RunIsDurable(s', steps[1..]);
      DurableIsTransitive(s, s', Run(s', steps[1..]));
    }
  }

  /** Once recorded, an owner is never another manager again, in the file or in memory, whatever
      happens; and what a restart reloads is that owner. */
  lemma OwnerNeverChanges(past: seq<Step>, future: seq<Step>, m: MachineId)
    requires Legal(INIT, past) && Legal(Run(INIT, past), future)
    ensures
      var s, s' := Run(INIT, past), Run(Run(INIT, past), future);
      && (MachineOf(s, m).disk.Some? ==> MachineOf(s', m).disk == MachineOf(s, m).disk)
      && (MachineOf(s, m).mem.Some? ==> MachineOf(s', m).mem == MachineOf(s, m).mem)
      && (MachineOf(s, m).disk.Some? ==> MachineOf(Apply(s', CrashMachine(m)), m).mem == MachineOf(s, m).disk)
  {
    RunKeepsInv(INIT, past);
    RunIsDurable(Run(INIT, past), future);
    assert Advances(MachineOf(Run(INIT, past), m), MachineOf(Run(Run(INIT, past), future), m));
  }

  /** The key file and memory name different owners only while a handler stands between its two
      writes, holding the lock; memory is then the one that lags behind. */
  lemma OwnerRecordsDiffer(steps: seq<Step>, m: MachineId)
    requires Legal(INIT, steps)
    requires MachineOf(Run(INIT, steps), m).disk != MachineOf(Run(INIT, steps), m).mem
    ensures
      var s := Run(INIT, steps);
      var mach := MachineOf(s, m);
      && mach.mem.None? && mach.lock.Some? && mach.lock.value in s.conns
      && s.conns[mach.lock.value].handler.Recorded? && s.conns[mach.lock.value].machine == m
      && mach.disk == Some(s.conns[mach.lock.value].manager)
  {
    RunKeepsInv(INIT, steps);
    var s := Run(INIT, steps);
    assert MachineOk(s, m, MachineOf(s, m));
    var c := MachineOf(s, m).lock.value;
    assert ConnOk(c, s.conns[c], MachineOf(s, m));
  }

  /** If a manager lists a machine then the machine is that manager's, on disk, in memory and after
      any restart, and the stored ticket names the machine's own persistent doc. */
  lemma ListingAgreesWithOwner(steps: seq<Step>, g: ManagerId, m: MachineId)
    requires Legal(INIT, steps) && m in ManagerOf(Run(INIT, steps), g).tickets
    ensures
      var s := Run(INIT, steps);
      && MachineOf(s, m).mem == Some(g) && MachineOf(s, m).disk == Some(g)
      && MachineOf(Apply(s, CrashMachine(m)), m).mem == Some(g)
      && MachineOf(s, m).ticket == Some(ManagerOf(s, g).tickets[m])
      && ManagerOf(s, g).tickets[m] in s.makers && s.makers[ManagerOf(s, g).tickets[m]] == m
  {
    RunKeepsInv(INIT, steps);
    var s := Run(INIT, steps);
    assert ManagerOk(s, g, ManagerOf(s, g));
    assert MachineOk(s, m, MachineOf(s, m));
  }

  /** A machine that reports itself unclaimed is listed by nobody, and no two managers list the same one. */
  lemma AtMostOneManagerLists(steps: seq<Step>, m: MachineId, g: ManagerId, g': ManagerId)
    requires Legal(INIT, steps)
    requires m in ManagerOf(Run(INIT, steps), g).tickets
    ensures MachineOf(Run(INIT, steps), m).mem.Some?
    ensures m in ManagerOf(Run(INIT, steps), g').tickets ==> g == g'
  {
    ListingAgreesWithOwner(steps, g, m);
    if m in ManagerOf(Run(INIT, steps), g').tickets {
      ListingAgreesWithOwner(steps, g', m);
    }
  }

  /** Machines never share a doc. */
  lemma DocsAreDistinct(steps: seq<Step>, m: MachineId, m': MachineId)
    requires Legal(INIT, steps)
    requires MachineOf(Run(INIT, steps), m).ticket.Some?
    requires MachineOf(Run(INIT, steps), m').ticket == MachineOf(Run(INIT, steps), m).ticket
    ensures m == m'
  {
    RunKeepsInv(INIT, steps);
    var s := Run(INIT, steps);
    assert MachineOk(s, m, MachineOf(s, m)) && MachineOk(s, m', MachineOf(s, m'));
  }

  /** The number that these bytes are, the highest first. */
  function BigEndian(bytes: Bytes): nat {
    if bytes == [] then 0 else BigEndian(bytes[..|bytes| - 1]) * 256 + bytes[|bytes| - 1]
  }

  /** The six digits that belong to this keying material. */
  function Digits(keying: Keying): nat {
    BigEndian(keying[..4]) % 1_000_000
  }

  lemma PinIsDigits(keying: Keying)
    ensures Pin(keying) == Digits(keying)
  {
    var four := keying[..4];
    assert four[..3] == keying[..3] && keying[..3][..2] == keying[..2] && keying[..2][..1] == keying[..1];
    assert keying[..1][..0] == [];
    var a: int, b: int, c: int := keying[0], keying[1], keying[2];
    assert BigEndian(keying[..1]) == a;
    assert BigEndian(keying[..2]) == a * 256 + b;
    assert BigEndian(keying[..3]) == (a * 256 + b) * 256 + c;
  }

  /** The users see the same PIN on a machine and on a manager, on two machines or on two managers, of one
      connection or of two, if and only if the keying materials agree in their first four bytes modulo a
      million. So when somebody in between has brought about two connections, what the users compare is the
      material of the one with that of the other. */
  lemma PinsCompareKeying(steps: seq<Step>, c: ConnId, c': ConnId)
    requires Legal(INIT, steps)
    requires c in Run(INIT, steps).conns && c' in Run(INIT, steps).conns
    ensures
      var k, k' := Run(INIT, steps).conns[c], Run(INIT, steps).conns[c'];
      && (k.managerPin == k'.managerPin <==> Digits(k.keying) == Digits(k'.keying))
      && (k.machinePin.Some? ==> (k.machinePin.value == k'.managerPin <==> Digits(k.keying) == Digits(k'.keying)))
      && (k.machinePin.Some? && k'.machinePin.Some? ==>
            (k.machinePin == k'.machinePin <==> Digits(k.keying) == Digits(k'.keying)))
  {
    RunKeepsInv(INIT, steps);
    var s := Run(INIT, steps);
    assert ConnOk(c, s.conns[c], MachineOf(s, s.conns[c].machine));
    assert ConnOk(c', s.conns[c'], MachineOf(s, s.conns[c'].machine));
    PinIsDigits(s.conns[c].keying);
    PinIsDigits(s.conns[c'].keying);
  }

  /** Some run shows this PIN, to both users. */
  ghost predicate IsShown(pin: nat) {
    exists steps, c :: Shows(steps, c, pin)
  }

  predicate Shows(steps: seq<Step>, c: ConnId, pin: nat) {
    && Legal(INIT, steps) && c in Run(INIT, steps).conns
    && Run(INIT, steps).conns[c].managerPin == pin && Run(INIT, steps).conns[c].machinePin == Some(pin)
  }

  /** The PINs are the numbers of up to six digits, and every one of them occurs. */
  lemma PinsAreSixDigits(pin: nat)
    ensures IsShown(pin) <==> pin < 1_000_000
  {
    hide Pin, Run, Legal;
    if IsShown(pin) {
      var steps, c :| Shows(steps, c, pin);
      RunKeepsInv(INIT, steps);
      assert ConnOk(c, Run(INIT, steps).conns[c], MachineOf(Run(INIT, steps), Run(INIT, steps).conns[c].machine));
      PinIsDigits(Run(INIT, steps).conns[c].keying);
    }
    if pin < 1_000_000 {
      var keying := KeyingFor(pin);
      PromptShows(keying);
      assert Shows([Connect(0, 0, 0, keying), OnConn(0, TakeLock)], 0, pin);
    }
  }

  /** Some keying material with these digits. */
  lemma KeyingFor(pin: nat) returns (keying: Keying)
    requires pin < 1_000_000
    ensures Pin(keying) == pin
  {
    var high, low := pin / 0x1_0000, pin % 0x1_0000;
    var b: Byte, c: Byte, d: Byte := high, low / 0x100, low % 0x100;
    keying := [0, b, c, d] + seq(28, _ => 0);
    assert keying[0] == 0 && keying[1] == b && keying[2] == c && keying[3] == d;
    assert high * 0x1_0000 + c as int * 0x100 + d as int == pin;
  }

  lemma PromptShows(keying: Keying)
    ensures Shows([Connect(0, 0, 0, keying), OnConn(0, TakeLock)], 0, Pin(keying))
  {
    hide Pin;
    var steps := [Connect(0, 0, 0, keying), OnConn(0, TakeLock)];
    var s1 := Apply(INIT, steps[0]);
    var s2 := Apply(s1, steps[1]);
    assert steps[1..][0] == steps[1] && steps[1..][1..] == [];
    assert Legal(s2, []) && Run(s2, []) == s2;
    assert Legal(s1, steps[1..]) && Run(s1, steps[1..]) == s2;
    assert Legal(INIT, steps) && Run(INIT, steps) == s2;
  }

  /** Both users said yes on this connection, and each was shown the digits of its keying material. */
  ghost predicate ConsentedOnKeying(s: State, m: MachineId, g: ManagerId) {
    exists c ::
      && c in s.conns && s.conns[c].machine == m && s.conns[c].manager == g
      && s.conns[c].machineAnswer == s.conns[c].managerAnswer == Some(true)
      && s.conns[c].machinePin == Some(Digits(s.conns[c].keying)) && s.conns[c].managerPin == Digits(s.conns[c].keying)
  }

  /** An owner is recorded, or a machine listed, only after the users of that machine and of that
      manager both said yes on one connection that showed both of them the digits of its keying material. */
  lemma NothingHappensWithoutConsent(steps: seq<Step>, m: MachineId, g: ManagerId)
    requires Legal(INIT, steps)
    ensures
      var s := Run(INIT, steps);
      MachineOf(s, m).disk == Some(g) || MachineOf(s, m).mem == Some(g) || m in ManagerOf(s, g).tickets ==>
        Consented(s, m, g) && ConsentedOnKeying(s, m, g)
  {
    RunKeepsInv(INIT, steps);
    var s := Run(INIT, steps);
    if m in ManagerOf(s, g).tickets {
      ListingAgreesWithOwner(steps, g, m);
    }
    if m in s.machines {
      assert MachineOk(s, m, s.machines[m]);
    }
    if Consented(s, m, g) {
      ConsentIsOnKeying(s, m, g);
    }
  }

  lemma ConsentIsOnKeying(s: State, m: MachineId, g: ManagerId)
    requires Inv(s) && Consented(s, m, g)
    ensures ConsentedOnKeying(s, m, g)
  {
    var c :| c in s.conns && s.conns[c].machine == m && s.conns[c].manager == g && Agreed(s.conns[c]);
    assert ConnOk(c, s.conns[c], MachineOf(s, m));
    PinIsDigits(s.conns[c].keying);
  }

  /** So when on every connection of a machine somebody refused, dropped the question or has not
      answered yet, the machine is unclaimed and nobody lists it. */
  lemma RefusalLeavesBothSidesUnchanged(steps: seq<Step>, m: MachineId)
    requires Legal(INIT, steps)
    requires
      var s := Run(INIT, steps);
      forall c :: c in s.conns && s.conns[c].machine == m ==>
        s.conns[c].machineAnswer != Some(true) || s.conns[c].managerAnswer != Some(true)
    ensures MachineOf(Run(INIT, steps), m).disk.None? && MachineOf(Run(INIT, steps), m).mem.None?
    ensures forall g: ManagerId :: m !in ManagerOf(Run(INIT, steps), g).tickets
  {
    var s := Run(INIT, steps);
    RunKeepsInv(INIT, steps);
    assert m in s.machines ==> MachineOk(s, m, s.machines[m]);
    forall g: ManagerId ensures m !in ManagerOf(s, g).tickets {
      NothingHappensWithoutConsent(steps, m, g);
    }
  }

  /** At most one claim prompt of a machine is undecided, and none of them is for a manager other
      than a recorded owner. */
  lemma PromptsExclude(steps: seq<Step>, c: ConnId, c': ConnId)
    requires Legal(INIT, steps)
    requires c in Run(INIT, steps).conns && c' in Run(INIT, steps).conns
    requires Run(INIT, steps).conns[c].handler.Prompting?
    ensures
      var s := Run(INIT, steps);
      var k := s.conns[c];
      && (s.conns[c'].handler.Prompting? && s.conns[c'].machine == k.machine ==> c == c')
      && (MachineOf(s, k.machine).disk.Some? ==> MachineOf(s, k.machine).disk.value == k.manager)
  {
    RunKeepsInv(INIT, steps);
    var s := Run(INIT, steps);
    assert ConnOk(c, s.conns[c], MachineOf(s, s.conns[c].machine));
    assert ConnOk(c', s.conns[c'], MachineOf(s, s.conns[c'].machine));
  }

  /** Whenever a handler stops holding the lock, on any path or by a crash, the lock is free again
      and the owner is either what it was before, or this handler's manager in both places. */
  lemma HandlerExitIsCleanOrComplete(steps: seq<Step>, step: Step, c: ConnId)
    requires Legal(INIT, steps) && Enabled(Run(INIT, steps), step) && c in Run(INIT, steps).conns
    requires Holding(Run(INIT, steps).conns[c].handler)
    requires !Holding(Apply(Run(INIT, steps), step).conns[c].handler)
    ensures
      var s, s' := Run(INIT, steps), Apply(Run(INIT, steps), step);
      var m := s.conns[c].machine;
      var a, b := MachineOf(s, m), MachineOf(s', m);
      && b.lock.None?
      && ((b.disk == a.disk && b.mem == a.mem && a.disk == a.mem) || b.disk == b.mem == Some(s.conns[c].manager))
  {
    RunKeepsInv(INIT, steps);
    var s := Run(INIT, steps);
    assert ConnOk(c, s.conns[c], MachineOf(s, s.conns[c].machine));
    if step.OnConn? {
      PerformIsLawful(step.c, step.act, LocalOf(s, step.c));
    }
  }

  /** Every claim that gets through on a machine, the owner's repeated ones included, delivers a
      ticket for the same doc to the same manager. */
  lemma ReclaimYieldsSameDoc(steps: seq<Step>, c: ConnId, c': ConnId)
    requires Legal(INIT, steps)
    requires c in Run(INIT, steps).conns && c' in Run(INIT, steps).conns
    requires Run(INIT, steps).conns[c].machine == Run(INIT, steps).conns[c'].machine
    requires Run(INIT, steps).conns[c].reply.Some? && Run(INIT, steps).conns[c'].reply.Some?
    ensures Run(INIT, steps).conns[c].reply == Run(INIT, steps).conns[c'].reply
    ensures Run(INIT, steps).conns[c].manager == Run(INIT, steps).conns[c'].manager
  {
    RunKeepsInv(INIT, steps);
    var s := Run(INIT, steps);
    assert ConnOk(c, s.conns[c], MachineOf(s, s.conns[c].machine));
    assert ConnOk(c', s.conns[c'], MachineOf(s, s.conns[c'].machine));
  }

  // ---------------------------------------------------------------------------------------------
  // Claims that go through
  // ---------------------------------------------------------------------------------------------

  ghost predicate Leads(s: State, steps: seq<Step>, s': State) {
    Legal(s, steps) && Run(s, steps) == s'
  }

  lemma {:induction false} OneMoreStep(s: State, steps: seq<Step>, step: Step)
    requires Legal(s, steps) && Enabled(Run(s, steps), step)
    ensures Leads(s, steps + [step], Apply(Run(s, steps), step))
    decreases |steps|
  {
    hide Apply, Enabled;
    if steps == [] {
      assert [step][1..] == [] && Legal(Apply(s, step), []) && Run(Apply(s, step), []) == Apply(s, step);
      assert Legal(s, [step]) && Run(s, [step]) == Apply(s, step);
      assert steps + [step] == [step];
    } else {
      OneMoreStep(Apply(s, steps[0]), steps[1..], step);
      assert (steps + [step])[1..] == steps[1..] + [step];
    }
  }

  lemma ActIsLocal(s: State, c: ConnId, act: Act)
    requires Enabled(s, OnConn(c, act))
    ensures
      var s' := Apply(s, OnConn(c, act));
      && c in s'.conns && LocalOf(s', c) == Perform(c, act, LocalOf(s, c))
      && (!act.PrepareDoc? ==> s'.makers == s.makers)
  {
  }

  /** One more act on this connection, in a run that began at `start`. */
  lemma Act(start: State, steps: seq<Step>, s: State, c: ConnId, act: Act) returns (steps': seq<Step>, s': State)
    requires Leads(start, steps, s) && Enabled(s, OnConn(c, act))
    ensures Leads(start, steps', s') && c in s'.conns && LocalOf(s', c) == Perform(c, act, LocalOf(s, c))
    ensures !act.PrepareDoc? ==> s'.makers == s.makers
  {
    hide Apply, Enabled, Perform;
    OneMoreStep(start, steps, OnConn(c, act));
    ActIsLocal(s, c, act);
    steps', s' := steps + [OnConn(c, act)], Apply(s, OnConn(c, act));
  }

  lemma NothingHappened(start: State)
    ensures Leads(start, [], start)
  {
  }

  lemma ConnectionOpens(start: State, c: ConnId, m: MachineId, g: ManagerId, keying: Keying)
    returns (steps: seq<Step>, s: State)
    requires c !in start.conns && MachineOf(start, m).lock.None? && !Taken(MachineOf(start, m), g)
    ensures Leads(start, steps, s) && c in s.conns && s.makers == start.makers
    ensures
      var l := LocalOf(s, c);
      && l.conn.machine == m && l.conn.manager == g && l.conn.handler.Waiting? && l.conn.claimer.Deciding?
      && l.mach == MachineOf(start, m) && l.mgr == ManagerOf(start, g)
      && l.conn.ping.None? && l.conn.reply.None?
  {
    hide Leads;
    NothingHappened(start);
    var step := Connect(c, m, g, keying);
    ConnectionIsNew(start, step);
    LeadsThere(start, [], start);
    OneMoreStep(start, [], step);
    steps, s := [] + [step], Apply(start, step);
  }

  lemma ConnectionIsNew(s: State, step: Step)
    requires step.Connect? && Enabled(s, step)
    ensures
      var s' := Apply(s, step);
      && s'.machines == s.machines && s'.managers == s.managers && s'.makers == s.makers && step.c in s'.conns
      && s'.conns[step.c] ==
           Conn.Conn(step.m, step.g, step.keying, Waiting, None, None, Deciding, Pin(step.keying), None, None, None)
  {
  }

  lemma ActIsEnabled(s: State, c: ConnId, act: Act)
    requires c in s.conns && CanAct(act, LocalOf(s, c)) && (act.PrepareDoc? ==> act.spare !in s.makers)
    ensures Enabled(s, OnConn(c, act))
  {
  }

  /** One more act that this end can take. */
  lemma NextAct(start: State, steps: seq<Step>, s: State, c: ConnId, act: Act) returns (steps': seq<Step>, s': State)
    requires Leads(start, steps, s) && c in s.conns && CanAct(act, LocalOf(s, c))
    requires act.PrepareDoc? ==> act.spare !in s.makers
    ensures Leads(start, steps', s') && c in s'.conns && LocalOf(s', c) == Perform(c, act, LocalOf(s, c))
    ensures !act.PrepareDoc? ==> s'.makers == s.makers
  {
    hide Apply, Enabled, Perform, CanAct, Leads;
    ActIsEnabled(s, c, act);
    steps', s' := Act(start, steps, s, c, act);
  }

  /** Both users are asked and agree, and the magic bytes arrive. */
  lemma BothAgree(start: State, c: ConnId, m: MachineId, g: ManagerId, keying: Keying)
    returns (steps: seq<Step>, s: State)
    requires c !in start.conns && MachineOf(start, m).lock.None? && !Taken(MachineOf(start, m), g)
    ensures Leads(start, steps, s) && c in s.conns && s.makers == start.makers
    ensures
      var l := LocalOf(s, c);
      && l.conn.machine == m && l.conn.manager == g && l.conn.handler.Pinged? && l.conn.claimer.Reading?
      && l.mach == MachineOf(start, m).(lock := Some(c)) && l.mgr == ManagerOf(start, g)
  {
    hide Leads, Apply, Enabled, LocalOf;
    steps, s := ConnectionOpens(start, c, m, g, keying);
    steps, s := NextAct(start, steps, s, c, TakeLock);
    steps, s := NextAct(start, steps, s, c, MachineAnswers(true));
    steps, s := NextAct(start, steps, s, c, ManagerAnswers(true));
    steps, s := NextAct(start, steps, s, c, SendPing);
    steps, s := NextAct(start, steps, s, c, ReadPing);
  }

  /** In every state, whatever has happened before, a claim on a new connection can go through to the end when
      the lock is free and the machine has no other owner: an unclaimed machine can be claimed by anybody,
      and a claimed one again by its owner, who then gets the ticket of the doc that the machine has. */
  lemma ClaimCanGoThrough(start: State, c: ConnId, m: MachineId, g: ManagerId, keying: Keying, spare: DocId)
    returns (steps: seq<Step>)
    requires c !in start.conns && spare !in start.makers
    requires MachineOf(start, m).lock.None? && !Taken(MachineOf(start, m), g)
    ensures Legal(start, steps)
    ensures
      var s := Run(start, steps);
      var ticket := if MachineOf(start, m).ticket.Some? then MachineOf(start, m).ticket else Some(spare);
      && MachineOf(s, m) == Machine.Machine(Some(g), Some(g), None, ticket)
      && m in ManagerOf(s, g).tickets && Some(ManagerOf(s, g).tickets[m]) == ticket
  {
    hide Leads, Apply, Enabled;
    var s;
    steps, s := BothAgree(start, c, m, g, keying);
    steps, s := NextAct(start, steps, s, c, PrepareDoc(spare));
    steps, s := NextAct(start, steps, s, c, RecordOwner);
    steps, s := NextAct(start, steps, s, c, CommitOwner);
    steps, s := NextAct(start, steps, s, c, SendTicket);
    steps, s := NextAct(start, steps, s, c, ImportTicket);
    steps, s := NextAct(start, steps, s, c, StoreTicket);
    LeadsThere(start, steps, s);
  }

  lemma LeadsThere(start: State, steps: seq<Step>, s: State)
    requires Leads(start, steps, s)
    ensures Legal(start, steps) && Run(start, steps) == s
  {
  }
}
