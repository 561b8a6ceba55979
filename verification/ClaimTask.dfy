/** The manager's task for one claim connection as it is coded, between whatever the others do. */
module ClaimTask {
  import opened Types
  import opened Claims
  import opened ClaimHandler

  datatype TaskExit = Refused | BrokenOff | Stored

  /** The steps that only this task takes, and the crash that ends it. */
  predicate IsTasks(c: ConnId, g: ManagerId, step: Step) {
    (step.OnConn? && step.c == c && !IsHandlerAct(step.act)) || step == CrashManager(g)
  }

  /** What nobody else touches: how far this claim task is, and what it has sent. */
  predicate TaskKept(c: ConnId, s: State, s': State) {
    && c in s.conns && c in s'.conns && s'.conns[c].claimer == s.conns[c].claimer
    && s'.conns[c].machine == s.conns[c].machine && s'.conns[c].manager == s.conns[c].manager
    && s'.conns[c].managerAnswer == s.conns[c].managerAnswer && s'.conns[c].ping == s.conns[c].ping
  }

  lemma HandlerLeavesTask(c: ConnId, act: Act, l: Local)
    requires CanAct(act, l) && IsHandlerAct(act)
    ensures
      var k := Perform(c, act, l).conn;
      && k.claimer == l.conn.claimer && k.machine == l.conn.machine && k.manager == l.conn.manager
      && k.managerAnswer == l.conn.managerAnswer && k.ping == l.conn.ping
  {
  }

  lemma OthersKeepTask(c: ConnId, s: State, step: Step)
    requires Enabled(s, step) && c in s.conns && !IsTasks(c, s.conns[c].manager, step)
    ensures TaskKept(c, s, Apply(s, step))
  {
    if step.OnConn? && step.c == c {
      HandlerLeavesTask(c, step.act, LocalOf(s, c));
    }
  }

  method AwaitOthers(rt: Runtime, c: ConnId, w: World) returns (fine: bool)
    requires rt.Valid() && c in rt.st.conns
    modifies rt
    ensures rt.Valid() && old(rt.trace) <= rt.trace && rt.tick == old(rt.tick) + 1
    ensures TaskKept(c, old(rt.st), rt.st) && fine == w.fine(old(rt.tick))
  {
    hide Inv, Apply, Enabled, IsRun;
    var steps := w.others(rt.tick);
    for i := 0 to |steps|
      invariant rt.Valid() && old(rt.trace) <= rt.trace && rt.tick == old(rt.tick) && TaskKept(c, old(rt.st), rt.st)
    {
      if Enabled(rt.st, steps[i]) && !IsTasks(c, rt.st.conns[c].manager, steps[i]) {
        OthersKeepTask(c, rt.st, steps[i]);
        rt.Take(steps[i]);
      }
    }
    fine := w.fine(rt.tick);
    rt.tick := rt.tick + 1;
  }

  lemma TaskActShows(s: State, c: ConnId, act: Act)
    requires Enabled(s, OnConn(c, act))
    ensures
      var s' := Apply(s, OnConn(c, act));
      c in s'.conns && s'.conns[c] == Perform(c, act, LocalOf(s, c)).conn
      && ManagerOf(s', s.conns[c].manager) == Perform(c, act, LocalOf(s, c)).mgr
  {
  }

  /** Wait for a call; take the act it makes possible, or end the claim task when the call fails. */
  method TaskAttempt(rt: Runtime, c: ConnId, m: MachineId, g: ManagerId, act: Act, w: World)
    returns (ok: bool, ghost mid: State)
    requires rt.Valid() && IsParty(rt.st, c, m, g) && !rt.st.conns[c].claimer.Finished?
    requires !IsHandlerAct(act) && act != ClaimerFails
    modifies rt
    ensures rt.Valid() && old(rt.trace) <= rt.trace && IsParty(rt.st, c, m, g) && TaskKept(c, old(rt.st), mid)
    ensures
      var l := LocalOf(mid, c);
      if ok then
        CanAct(act, l) && rt.st.conns[c] == Perform(c, act, l).conn && ManagerOf(rt.st, g) == Perform(c, act, l).mgr
      else rt.st.conns[c] == mid.conns[c].(claimer := Finished)
    ensures w.fine(old(rt.tick)) && CanAct(act, LocalOf(mid, c)) ==> ok
  {
    hide Inv, Apply, IsRun;
    var fine := AwaitOthers(rt, c, w);
    mid := rt.st;
    ok := fine && Enabled(rt.st, OnConn(c, act));
    var taken := if ok then act else ClaimerFails;
    TaskActShows(rt.st, c, taken);
    rt.Take(OnConn(c, taken));
  }

  /** What a stored ticket means, by the invariant. */
  lemma StoredFacts(s: State, c: ConnId, m: MachineId, g: ManagerId)
    requires Inv(s) && IsParty(s, c, m, g) && m in ManagerOf(s, g).tickets
    ensures MachineOf(s, m).disk == MachineOf(s, m).mem == Some(g)
    ensures MachineOf(s, m).ticket == Some(ManagerOf(s, g).tickets[m])
    ensures Consented(s, m, g)
  {
    assert ManagerOk(s, g, ManagerOf(s, g));
    assert MachineOk(s, m, MachineOf(s, m));
  }

  /** Without the manager's yes no handler can get as far as recording an owner on this connection. */
  lemma NoYesNoGrant(s: State, c: ConnId)
    requires Inv(s) && c in s.conns && s.conns[c].managerAnswer != Some(true)
    ensures var h := s.conns[c].handler; !h.Pinged? && !h.Prepared? && !h.Recorded? && !h.Sending?
  {
    assert ConnOk(c, s.conns[c], MachineOf(s, s.conns[c].machine));
  }

  /** Send the magic bytes, then import and store the ticket that comes back. */
  method FetchTicket(rt: Runtime, c: ConnId, m: MachineId, g: ManagerId, w: World) returns (stored: bool)
    requires rt.Valid() && IsParty(rt.st, c, m, g) && rt.st.conns[c].claimer.Opening?
    modifies rt
    ensures rt.Valid() && old(rt.trace) <= rt.trace
    ensures IsParty(rt.st, c, m, g) && rt.st.conns[c].claimer.Finished?
    ensures stored ==> m in ManagerOf(rt.st, g).tickets
    ensures
      AllFine(w) ==>
        rt.st.conns[c].ping == Some(PING_MAGIC_BYTES) && (rt.st.conns[c].reply.Some? ==> stored)
  {
    hide Inv, Apply, Enabled, IsRun;
    ghost var mid;
    stored, mid := TaskAttempt(rt, c, m, g, SendPing, w);
    if stored {
      stored := StoreReply(rt, c, m, g, w);
    }
  }

  method StoreReply(rt: Runtime, c: ConnId, m: MachineId, g: ManagerId, w: World) returns (stored: bool)
    requires rt.Valid() && IsParty(rt.st, c, m, g) && rt.st.conns[c].claimer.Reading?
    modifies rt
    ensures rt.Valid() && old(rt.trace) <= rt.trace && IsParty(rt.st, c, m, g)
    ensures rt.st.conns[c].claimer.Finished? && rt.st.conns[c].ping == old(rt.st.conns[c].ping)
    ensures stored ==> m in ManagerOf(rt.st, g).tickets
    ensures AllFine(w) && rt.st.conns[c].reply.Some? ==> stored
  {
    hide Inv, Apply, Enabled, IsRun;
    ghost var mid;
    stored, mid := TaskAttempt(rt, c, m, g, ImportTicket, w);
    if !stored {
      return;
    }
    stored, mid := TaskAttempt(rt, c, m, g, StoreTicket, w);
  }

  /** `claim_machine`'s task. Unless the manager's user says yes, nothing is sent and nothing granted.
      A ticket is stored only for a machine that has this manager as its owner, on disk and in memory,
      and it names the machine's own doc. When nothing fails, the task ends as the user says: refused, or
      with the magic bytes sent and the ticket stored if one came back. */
  method ClaimMachine(rt: Runtime, c: ConnId, m: MachineId, g: ManagerId, w: World) returns (exit: TaskExit)
    requires rt.Valid() && IsParty(rt.st, c, m, g) && rt.st.conns[c].claimer.Deciding?
    modifies rt
    ensures rt.Valid() && old(rt.trace) <= rt.trace
    ensures IsParty(rt.st, c, m, g) && rt.st.conns[c].claimer.Finished?
    ensures
      old(rt.st.conns[c].ping).None? && w.answer(old(rt.tick)) != Some(true) ==>
        exit != Stored && rt.st.conns[c].ping.None? && (exit == Refused ==> rt.st.conns[c].managerAnswer == Some(false))
    ensures exit == Refused ==> w.answer(old(rt.tick)) != Some(true)
    ensures
      AllFine(w) ==>
        && (exit == Refused <==> w.answer(old(rt.tick)) != Some(true))
        && (exit != Refused ==>
              && rt.st.conns[c].ping == Some(PING_MAGIC_BYTES)
              && (rt.st.conns[c].reply.Some? ==> exit == Stored))
    ensures
      exit == Stored ==>
        && m in ManagerOf(rt.st, g).tickets && MachineOf(rt.st, m).ticket == Some(ManagerOf(rt.st, g).tickets[m])
        && MachineOf(rt.st, m).disk == MachineOf(rt.st, m).mem == Some(g) && Consented(rt.st, m, g)
  {
    hide Inv, Apply, IsRun;
    var yes := w.answer(rt.tick) == Some(true);
    var ok, mid := TaskAttempt(rt, c, m, g, ManagerAnswers(yes), w);
    if !ok {
      return BrokenOff;
    }
    if !yes {
      return Refused;
    }
    var stored := FetchTicket(rt, c, m, g, w);
    if !stored {
      return BrokenOff;
    }
    rt.IsOk();
    StoredFacts(rt.st, c, m, g);
    exit := Stored;
  }
}
