/** The machine's handler of one claim connection as it is coded, between whatever the others do. */
module ClaimHandler {
  import opened Types
  import opened Claims

  /** What the handler cannot control, by the number of the await point: the others' steps, whether the
      call succeeds, what the machine's user answers (None when the question is dropped), and the id a
      new doc would get. */
  datatype World = World(
    others: nat -> seq<Step>, fine: nat -> bool, answer: nat -> Option<bool>, spare: nat -> DocId)

  datatype Exit =
    | StillWaiting     // another handler holds the lock
    | AlreadyClaimed   // by another manager
    | Rejected         // the user said no, or nothing
    | Failed           // some call failed before the owner was recorded
    | Unsent           // the owner is recorded, sending the ticket failed
    | Claimed

  predicate IsHandlerAct(act: Act) {
    !act.ManagerAnswers? && !act.SendPing? && !act.ImportTicket? && !act.StoreTicket? && !act.ClaimerFails?
  }

  /** The steps that only this handler takes, and the crash that ends it. */
  predicate IsOwn(c: ConnId, m: MachineId, step: Step) {
    (step.OnConn? && step.c == c && IsHandlerAct(step.act)) || step == CrashMachine(m)
  }

  /** What nobody else touches: how far the handler is, and the owner records while it holds the lock. */
  ghost predicate Kept(c: ConnId, s: State, s': State) {
    && c in s.conns && c in s'.conns
    && s'.conns[c].handler == s.conns[c].handler && s'.conns[c].machine == s.conns[c].machine
    && s'.conns[c].manager == s.conns[c].manager
    && (Holding(s.conns[c].handler) ==> SameOwner(s, s', s.conns[c].machine))
  }

  predicate SameOwner(s: State, s': State, m: MachineId) {
    MachineOf(s', m).disk == MachineOf(s, m).disk && MachineOf(s', m).mem == MachineOf(s, m).mem
  }

  lemma OthersKeepHandler(c: ConnId, s: State, step: Step)
    requires Inv(s) && Enabled(s, step) && c in s.conns && !IsOwn(c, s.conns[c].machine, step)
    ensures Kept(c, s, Apply(s, step))
  {
    assert ConnOk(c, s.conns[c], MachineOf(s, s.conns[c].machine));
    if step.OnConn? {
      var l := LocalOf(s, step.c);
      PerformIsLawful(step.c, step.act, l);
      if step.c == c {
        ClaimerLeavesMachine(c, step.act, l);
      }
    }
  }

  lemma ClaimerLeavesMachine(c: ConnId, act: Act, l: Local)
    requires CanAct(act, l) && !IsHandlerAct(act)
    ensures Perform(c, act, l).mach == l.mach && Perform(c, act, l).conn.handler == l.conn.handler
  {
  }

  ghost predicate Next(s: State, s': State) {
    exists step :: Enabled(s, step) && s' == Apply(s, step)
  }

  ghost predicate LinkedAt(trace: seq<State>, i: nat) {
    i + 1 < |trace| ==> Next(trace[i], trace[i + 1])
  }

  /** The states of a run of the handshake. */
  ghost predicate IsRun(trace: seq<State>) {
    |trace| > 0 && trace[0] == INIT && forall i :: LinkedAt(trace, i)
  }

  lemma InitIsOk()
    ensures Inv(INIT)
  {
  }

  lemma {:induction false} RunIsOk(trace: seq<State>, i: nat)
    requires IsRun(trace) && i < |trace|
    ensures Inv(trace[i])
  {
    hide Apply, Enabled, Inv;
    if i == 0 {
      InitIsOk();
    } else {
      RunIsOk(trace, i - 1);
      assert LinkedAt(trace, i - 1);
      var step :| Enabled(trace[i - 1], step) && trace[i] == Apply(trace[i - 1], step);
      StepKeepsInv(trace[i - 1], step);
    }
  }

  /** Whatever a method does through it, between what everybody else does, is part of one run. */
  class Runtime {
    var st: State
    var tick: nat
    ghost var trace: seq<State>

    ghost predicate Valid()
      reads this
    {
      IsRun(trace) && trace[|trace| - 1] == st
    }

    constructor ()
      ensures Valid() && st == INIT && tick == 0
    {
      st := INIT;
      tick := 0;
      trace := [INIT];
    }

    lemma IsOk()
      requires Valid()
      ensures Inv(st)
    {
      RunIsOk(trace, |trace| - 1);
    }

    method Take(step: Step)
      requires Valid() && Enabled(st, step)
      modifies this
      ensures Valid() && trace == old(trace) + [st] && tick == old(tick)
      ensures st == Apply(old(st), step) && Durable(old(st), st)
    {
      hide Inv, Apply, Enabled, Durable;
      IsOk();
      StepIsDurable(st, step);
      ghost var before := st;
      st := Apply(st, step);
      assert Next(before, st);
      ghost var extended := trace + [st];
      forall i: nat ensures LinkedAt(extended, i) {
        assert LinkedAt(trace, i);
      }
      trace := extended;
    }

    method Await(c: ConnId, w: World) returns (fine: bool)
      requires Valid() && c in st.conns
      modifies this
      ensures Valid() && old(trace) <= trace && tick == old(tick) + 1
      ensures Kept(c, old(st), st) && Durable(old(st), st) && fine == w.fine(old(tick))
    {
      hide Inv, Apply, Enabled, Durable;
      var steps := w.others(tick);
      DurableIsReflexive(st);
      for i := 0 to |steps|
        invariant Valid() && old(trace) <= trace && tick == old(tick) && Kept(c, old(st), st) && Durable(old(st), st)
      {
        if Enabled(st, steps[i]) && !IsOwn(c, st.conns[c].machine, steps[i]) {
          ghost var before := st;
          IsOk();
          OthersKeepHandler(c, st, steps[i]);
          Take(steps[i]);
          DurableIsTransitive(old(st), before, st);
        }
      }
      fine := w.fine(tick);
      tick := tick + 1;
    }
  }

  /** The handler's acts as they show in the whole state. */
  lemma ActShows(s: State, c: ConnId, act: Act)
    requires Inv(s) && Enabled(s, OnConn(c, act))
    ensures
      var s' := Apply(s, OnConn(c, act));
      var l := Perform(c, act, LocalOf(s, c));
      && c in s'.conns && s'.conns[c] == l.conn && MachineOf(s', s.conns[c].machine) == l.mach
      && Lawful(c, LocalOf(s, c), l)
  {
    assert ConnOk(c, s.conns[c], MachineOf(s, s.conns[c].machine));
    assert MachineSelfOk(MachineOf(s, s.conns[c].machine)) by {
      if s.conns[c].machine in s.machines {
        assert MachineOk(s, s.conns[c].machine, s.machines[s.conns[c].machine]);
      }
    }
    PerformIsLawful(c, act, LocalOf(s, c));
  }

  /** Take one act of the handler. */
  method Act(rt: Runtime, c: ConnId, act: Act)
    requires rt.Valid() && Enabled(rt.st, OnConn(c, act))
    modifies rt
    ensures rt.Valid() && rt.trace == old(rt.trace) + [rt.st] && rt.tick == old(rt.tick)
    ensures rt.st == Apply(old(rt.st), OnConn(c, act)) && Durable(old(rt.st), rt.st)
    ensures
      var l, l' := LocalOf(old(rt.st), c), Perform(c, act, LocalOf(old(rt.st), c));
      && c in rt.st.conns && rt.st.conns[c] == l'.conn && MachineOf(rt.st, l.conn.machine) == l'.mach
      && Lawful(c, l, l')
  {
    hide Apply, Inv, Durable, Perform, Lawful, IsRun;
    rt.IsOk();
    ActShows(rt.st, c, act);
    rt.Take(OnConn(c, act));
  }

  predicate IsParty(s: State, c: ConnId, m: MachineId, g: ManagerId) {
    c in s.conns && s.conns[c].machine == m && s.conns[c].manager == g
  }

  /** The handler has left: the lock is free and the owner is what it was at this earlier state. */
  predicate LeftAsBefore(s: State, s': State, c: ConnId, m: MachineId) {
    c in s'.conns && s'.conns[c].handler.Closed? && SameOwner(s, s', m) && MachineOf(s', m).lock.None?
  }

  /** What leaving keeps besides. */
  predicate SameMessages(s: State, s': State, c: ConnId) {
    c in s.conns && c in s'.conns && s'.conns[c].ping == s.conns[c].ping && s'.makers == s.makers
  }

  lemma LeavingKeeps(s: State, c: ConnId)
    requires Enabled(s, OnConn(c, HandlerFails))
    ensures SameMessages(s, Apply(s, OnConn(c, HandlerFails)), c)
  {
  }

  /** Wait for a call; take the act it makes possible, or leave when the call or the act fails. */
  method Attempt(rt: Runtime, c: ConnId, m: MachineId, g: ManagerId, act: Act, w: World)
    returns (ok: bool, ghost mid: State)
    requires rt.Valid() && IsParty(rt.st, c, m, g) && Holding(rt.st.conns[c].handler)
    requires !rt.st.conns[c].handler.Recorded?
    requires IsHandlerAct(act) && act != HandlerFails
    modifies rt
    ensures rt.Valid() && old(rt.trace) <= rt.trace && rt.tick == old(rt.tick) + 1
    ensures IsParty(rt.st, c, m, g) && Durable(old(rt.st), rt.st) && IsParty(mid, c, m, g)
    ensures SameOwner(old(rt.st), mid, m) && mid.conns[c].handler == old(rt.st.conns[c].handler)
    ensures
      if ok then
        Enabled(mid, OnConn(c, act)) && rt.st == Apply(mid, OnConn(c, act))
      else LeftAsBefore(old(rt.st), rt.st, c, m) && SameMessages(mid, rt.st, c)
    ensures
      ok ==>
        var l := LocalOf(mid, c);
        rt.st.conns[c] == Perform(c, act, l).conn && MachineOf(rt.st, m) == Perform(c, act, l).mach
    ensures w.fine(old(rt.tick)) && Enabled(mid, OnConn(c, act)) ==> ok
  {
    hide Inv, Apply, Durable, IsRun;
    var fine := rt.Await(c, w);
    mid := rt.st;
    ok := fine && Enabled(rt.st, OnConn(c, act));
    if ok {
      Act(rt, c, act);
    } else {
      LeavingKeeps(rt.st, c);
      Act(rt, c, HandlerFails);
    }
    DurableIsTransitive(old(rt.st), mid, rt.st);
  }

  /** Between these two states of the run the handler of this connection looked at the owner, with the lock. */
  predicate TakesLock(s: State, s': State, c: ConnId) {
    Enabled(s, OnConn(c, TakeLock)) && s' == Apply(s, OnConn(c, TakeLock))
  }

  /** Nothing fails. */
  ghost predicate AllFine(w: World) {
    forall i :: w.fine(i)
  }

  /** From the lock to the user's answer. No exit yet when the lock was had and the user said yes. */
  method Ask(rt: Runtime, c: ConnId, m: MachineId, g: ManagerId, w: World)
    returns (exit: Option<Exit>, ghost locked: nat)
    requires rt.Valid() && IsParty(rt.st, c, m, g) && rt.st.conns[c].handler.Waiting?
    modifies rt
    ensures rt.Valid() && old(rt.trace) <= rt.trace && IsParty(rt.st, c, m, g) && Durable(old(rt.st), rt.st)
    ensures |old(rt.trace)| <= locked <= |rt.trace| && IsParty(rt.trace[locked - 1], c, m, g)
    ensures
      exit == Some(StillWaiting) ==>
        && locked == |rt.trace| && rt.st.conns[c].handler.Waiting? && MachineOf(rt.st, m).lock.Some?
    ensures
      exit != Some(StillWaiting) ==>
        && locked < |rt.trace| && TakesLock(rt.trace[locked - 1], rt.trace[locked], c)
        && (exit == Some(AlreadyClaimed) <==> Taken(MachineOf(rt.trace[locked - 1], m), g))
    ensures
      exit.None? ==>
        && rt.st.conns[c].handler.Accepted? && SameOwner(rt.trace[locked - 1], rt.st, m)
        && rt.tick == old(rt.tick) + 2 && w.answer(old(rt.tick) + 1) == Some(true)
    ensures
      exit.Some? && exit.value != StillWaiting ==>
        exit.value in {AlreadyClaimed, Rejected, Failed} && LeftAsBefore(rt.trace[locked - 1], rt.st, c, m)
    ensures
      exit == Some(Rejected) ==>
        w.answer(old(rt.tick) + 1) != Some(true) && rt.st.conns[c].machineAnswer == Some(false)
    ensures AllFine(w) ==> exit != Some(Failed)
  {
    hide Inv, Apply, Durable, LinkedAt;
    var _ := rt.Await(c, w);
    locked := |rt.trace|;
    ghost var s := rt.st;
    if MachineOf(rt.st, m).lock.Some? {
      return Some(StillWaiting), locked;
    }
    Act(rt, c, TakeLock);
    DurableIsTransitive(old(rt.st), s, rt.st);
    ghost var prompted := rt.st;
    if rt.st.conns[c].handler.Closed? {
      return Some(AlreadyClaimed), locked;
    }
    var yes := w.answer(rt.tick) == Some(true);
    var ok, mid := Attempt(rt, c, m, g, MachineAnswers(yes), w);
    DurableIsTransitive(old(rt.st), prompted, rt.st);
    exit := if !ok then Some(Failed) else if !yes then Some(Rejected) else None;
    assert rt.trace[locked - 1] == s && rt.trace[locked] == prompted;
  }

  lemma ReadingKeepsMessages(s: State, c: ConnId)
    requires Enabled(s, OnConn(c, ReadPing))
    ensures SameMessages(s, Apply(s, OnConn(c, ReadPing)), c)
  {
  }

  /** Read the magic bytes. With no failure that works exactly when they have come. */
  method ReadMagic(rt: Runtime, c: ConnId, m: MachineId, g: ManagerId, w: World) returns (ok: bool)
    requires rt.Valid() && IsParty(rt.st, c, m, g) && rt.st.conns[c].handler.Accepted?
    modifies rt
    ensures rt.Valid() && old(rt.trace) <= rt.trace && rt.tick == old(rt.tick) + 1
    ensures IsParty(rt.st, c, m, g) && Durable(old(rt.st), rt.st)
    ensures if ok then rt.st.conns[c].handler.Pinged? && SameOwner(old(rt.st), rt.st, m)
            else LeftAsBefore(old(rt.st), rt.st, c, m)
    ensures ok ==> rt.st.conns[c].ping == Some(PING_MAGIC_BYTES)
    ensures AllFine(w) && rt.st.conns[c].ping == Some(PING_MAGIC_BYTES) ==> ok
  {
    hide Inv, Apply, Durable, IsRun;
    ghost var mid;
    ok, mid := Attempt(rt, c, m, g, ReadPing, w);
    if ok {
      ReadingKeepsMessages(mid, c);
    }
    ok := ok && rt.st.conns[c].handler.Pinged?;
  }

  /** Open the doc and record the owner on disk. */
  method Record(rt: Runtime, c: ConnId, m: MachineId, g: ManagerId, w: World) returns (ok: bool)
    requires rt.Valid() && IsParty(rt.st, c, m, g) && rt.st.conns[c].handler.Pinged?
    modifies rt
    ensures rt.Valid() && old(rt.trace) <= rt.trace && IsParty(rt.st, c, m, g) && Durable(old(rt.st), rt.st)
    ensures !ok ==> LeftAsBefore(old(rt.st), rt.st, c, m)
    ensures ok ==> rt.st.conns[c].handler.Recorded?
    ensures old(rt.tick) <= rt.tick
    ensures AllFine(w) && w.spare(old(rt.tick)) !in rt.st.makers ==> ok
  {
    hide Inv, Apply, Durable, IsRun, Enabled;
    ghost var mid;
    ok, mid := Attempt(rt, c, m, g, PrepareDoc(w.spare(rt.tick)), w);
    PreparingEnabled(mid, c, w.spare(old(rt.tick)));
    if !ok {
      return;
    }
    ghost var prepared := rt.st;
    ok, mid := Attempt(rt, c, m, g, RecordOwner, w);
    RecordingEnabled(mid, c);
    DurableIsTransitive(old(rt.st), prepared, rt.st);
  }

  lemma PreparingEnabled(s: State, c: ConnId, spare: DocId)
    requires c in s.conns && s.conns[c].handler.Pinged?
    ensures spare !in s.makers ==> Enabled(s, OnConn(c, PrepareDoc(spare)))
  {
  }

  lemma RecordingEnabled(s: State, c: ConnId)
    requires c in s.conns && s.conns[c].handler.Prepared?
    ensures Enabled(s, OnConn(c, RecordOwner))
  {
  }

  lemma OwnerStays(s: State, s': State, m: MachineId, g: ManagerId)
    requires Durable(s, s') && MachineOf(s, m).disk == MachineOf(s, m).mem == Some(g)
    ensures MachineOf(s', m).disk == MachineOf(s', m).mem == Some(g)
  {
    assert Advances(MachineOf(s, m), MachineOf(s', m));
  }

  lemma ClosedFacts(s: State, c: ConnId)
    requires Inv(s) && c in s.conns
    ensures s.conns[c].handler.Recorded? ==> Agreed(s.conns[c])
    ensures s.conns[c].reply.Some? ==> MachineOf(s, s.conns[c].machine).ticket == s.conns[c].reply
  {
    assert ConnOk(c, s.conns[c], MachineOf(s, s.conns[c].machine));
  }

  lemma AgreementStays(s: State, s': State, c: ConnId)
    requires Durable(s, s') && c in s.conns && Agreed(s.conns[c])
    ensures c in s'.conns && Agreed(s'.conns[c])
  {
    assert SameParties(s.conns[c], s'.conns[c]);
  }

  /** Put the owner in memory too, release the lock, and only then send the ticket. */
  method CommitAndSend(rt: Runtime, c: ConnId, m: MachineId, g: ManagerId, w: World) returns (sent: bool)
    requires rt.Valid() && IsParty(rt.st, c, m, g) && rt.st.conns[c].handler.Recorded?
    modifies rt
    ensures rt.Valid() && old(rt.trace) <= rt.trace && IsParty(rt.st, c, m, g) && rt.st.conns[c].handler.Closed?
    ensures MachineOf(rt.st, m).disk == MachineOf(rt.st, m).mem == Some(g) && Agreed(rt.st.conns[c])
    ensures sent ==> rt.st.conns[c].reply.Some? && rt.st.conns[c].reply == MachineOf(rt.st, m).ticket
    ensures AllFine(w) ==> sent
  {
    hide Inv, Apply, Durable, IsRun;
    rt.IsOk();
    ClosedFacts(rt.st, c);
    ghost var recorded := rt.st;
    Act(rt, c, CommitOwner);
    ghost var committed := rt.st;
    AgreementStays(recorded, committed, c);
    sent := rt.Await(c, w);
    ghost var waited := rt.st;
    OwnerStays(committed, waited, m, g);
    AgreementStays(committed, waited, c);
    Act(rt, c, if sent then SendTicket else HandlerFails);
    OwnerStays(waited, rt.st, m, g);
    AgreementStays(waited, rt.st, c);
    rt.IsOk();
    ClosedFacts(rt.st, c);
  }

  /** `accept`, from an arriving connection to whichever of its exits. A machine of another manager is
      never asked about; an exit before the commit frees the lock and leaves the owner as it was when
      the lock was had; an exit after it leaves this manager as owner on disk and in memory, after
      both users agreed. The exits are exactly these: when nothing fails, the handler that had the lock for
      a machine that was not taken ends in a claim, unless its user did not say yes, or the magic bytes
      did not come, or the id for a new doc was in use. */
  method Accept(rt: Runtime, c: ConnId, m: MachineId, g: ManagerId, w: World) returns (exit: Exit, ghost locked: nat)
    requires rt.Valid() && IsParty(rt.st, c, m, g) && rt.st.conns[c].handler.Waiting?
    modifies rt
    ensures rt.Valid() && old(rt.trace) <= rt.trace && IsParty(rt.st, c, m, g)
    ensures |old(rt.trace)| <= locked <= |rt.trace|
    ensures
      if exit == StillWaiting then
        locked == |rt.trace| && MachineOf(rt.st, m).lock.Some? && rt.st.conns[c].handler.Waiting?
      else
        && locked < |rt.trace| && TakesLock(rt.trace[locked - 1], rt.trace[locked], c)
        && rt.st.conns[c].handler.Closed?
    ensures exit == AlreadyClaimed <==> exit != StillWaiting && Taken(MachineOf(rt.trace[locked - 1], m), g)
    ensures exit in {AlreadyClaimed, Rejected, Failed} ==> LeftAsBefore(rt.trace[locked - 1], rt.st, c, m)
    ensures
      exit in {Unsent, Claimed} ==>
        MachineOf(rt.st, m).disk == MachineOf(rt.st, m).mem == Some(g) && Agreed(rt.st.conns[c])
    ensures exit == Claimed ==> rt.st.conns[c].reply.Some? && rt.st.conns[c].reply == MachineOf(rt.st, m).ticket
    ensures
      var yes := w.answer(old(rt.tick) + 1) == Some(true);
      && (exit == Rejected ==> !yes && rt.st.conns[c].machineAnswer == Some(false))
      && (exit in {Unsent, Claimed} ==> yes)
      && (AllFine(w) && exit !in {StillWaiting, AlreadyClaimed} ==>
            && (exit == Rejected <==> !yes)
            && (yes && rt.st.conns[c].ping == Some(PING_MAGIC_BYTES) && w.spare(old(rt.tick) + 3) !in rt.st.makers ==>
                  exit == Claimed)
            && (exit == Failed ==> old(rt.tick) + 3 <= rt.tick))
  {
    hide Inv, Apply, Durable, Taken, Agreed, LinkedAt, TakesLock;
    var early;
    early, locked := Ask(rt, c, m, g, w);
    if early.Some? {
      return early.value, locked;
    }
    var ok := ReadMagic(rt, c, m, g, w);
    if ok {
      ok := Record(rt, c, m, g, w);
    }
    if !ok {
      return Failed, locked;
    }
    var sent := CommitAndSend(rt, c, m, g, w);
    exit := if sent then Claimed else Unsent;
  }
}
