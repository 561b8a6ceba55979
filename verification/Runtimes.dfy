/**
 Running code against an arbitrary environment: at every await point any steps of anybody else may
 happen, and any call may fail. Whatever a method does through a Runtime is part of one run.
 */
module Runtimes {
  import opened Types
  import opened Docs
  import opened Vending
  import opened VendingInvariant
  import opened VendingTheorems
  import Claims
  import WalletDisk

  /** How one awaited call of a pass ends: well, with an error that is skipped, or with one that
      ends the call it happens in. */
  datatype Outcome = Fine | Skip | Fail

  /** Everything a pass cannot control, by the number of the await point: what the others do
      meanwhile, how the call ends, how a first join ends, and what the device's clock shows. */
  datatype World = World(
    others: nat -> seq<Step>, outcome: nat -> Outcome, join: nat -> WalletDisk.Join, clock: nat -> nat)

  /** What a run is limited to: `once` names contracts that are never paid twice in it, and `up` managers
      that are never stopped in it. Both may be empty. */
  datatype Limits = Limits(once: set<PayId>, up: set<ManagerId>)

  predicate Excluded(limits: Limits, s: State, step: Step) {
    || (step.Fund? && step.pay in limits.once && step.pay in s.funded)
    || (step.Handshake? && step.step.CrashManager? && step.step.g in limits.up)
  }

  ghost predicate Next(limits: Limits, s: State, s': State) {
    exists step :: Enabled(s, step) && s' == Apply(s, step) && !Excluded(limits, s, step)
  }

  ghost predicate LinkedAt(limits: Limits, trace: seq<State>, i: nat) {
    i + 1 < |trace| ==> Next(limits, trace[i], trace[i + 1])
  }

  /** The states of a run within these limits. */
  ghost predicate IsRun(limits: Limits, trace: seq<State>) {
    |trace| > 0 && trace[0] == INIT && forall i :: LinkedAt(limits, trace, i)
  }

  function Last(trace: seq<State>): State
    requires |trace| > 0
  {
    trace[|trace| - 1]
  }

  lemma NextKeepsInv(limits: Limits, s: State, s': State)
    requires Inv(s) && Next(limits, s, s')
    ensures Inv(s') && Grows(s, s')
  {
    hide Inv, Grows, Apply, Enabled;
    var step :| Enabled(s, step) && s' == Apply(s, step) && !Excluded(limits, s, step);
    StepKeepsInv(s, step);
  }

  /** Every state on the way is reached by a legal run, so all that holds of runs holds of it. */
  lemma {:induction false} TraceIsRun(limits: Limits, trace: seq<State>, i: nat) returns (steps: seq<Step>)
    requires IsRun(limits, trace) && i < |trace|
    ensures Legal(INIT, steps) && Run(INIT, steps) == trace[i]
  {
    hide Apply, Enabled;
    if i == 0 {
      steps := [];
    } else {
      var before := TraceIsRun(limits, trace, i - 1);
      assert LinkedAt(limits, trace, i - 1);
      var step :| Enabled(trace[i - 1], step) && trace[i] == Apply(trace[i - 1], step)
        && !Excluded(limits, trace[i - 1], step);
      RunAppends(INIT, before, step);
      steps := before + [step];
    }
  }

  const NO_LIMITS := Limits({}, {})

  /** And the other way round: without limits every legal run is the trace of some runtime, so what holds of all
      traces holds of all runs. */
  lemma {:induction false} RunIsTrace(steps: seq<Step>) returns (trace: seq<State>)
    requires Legal(INIT, steps)
    ensures IsRun(NO_LIMITS, trace) && |trace| == |steps| + 1
    ensures forall i :: 0 <= i <= |steps| ==> Legal(INIT, steps[..i]) && Run(INIT, steps[..i]) == trace[i]
    decreases |steps|
  {
    hide Apply, Enabled;
    if steps == [] {
      trace := [INIT];
    } else {
      var n := |steps| - 1;
      var front, last := steps[..n], steps[n];
      assert front + [last] == steps;
      LegalSplits(INIT, front, last);
      var before := RunIsTrace(front);
      assert front[..n] == front;
      var s := before[n];
      trace := before + [Apply(s, last)];
      RunAppends(INIT, front, last);
      assert !Excluded(NO_LIMITS, s, last) && Next(NO_LIMITS, s, trace[n + 1]);
      forall i: nat ensures LinkedAt(NO_LIMITS, trace, i) {
        assert LinkedAt(NO_LIMITS, before, i);
      }
      forall i | 0 <= i <= |steps| ensures Legal(INIT, steps[..i]) && Run(INIT, steps[..i]) == trace[i] {
        assert i <= n ==> steps[..i] == front[..i];
        assert i == n + 1 ==> steps[..i] == steps;
      }
    }
  }

  lemma {:induction false} LegalSplits(s: State, front: seq<Step>, last: Step)
    requires Legal(s, front + [last])
    ensures Legal(s, front) && Enabled(Run(s, front), last)
    decreases |front|
  {
    hide Apply, Enabled;
    if front != [] {
      assert (front + [last])[1..] == front[1..] + [last];
      LegalSplits(Apply(s, front[0]), front[1..], last);
    }
  }

  lemma RunIsOk(limits: Limits, trace: seq<State>, i: nat)
    requires IsRun(limits, trace) && i < |trace|
    ensures Inv(trace[i])
  {
    var steps := TraceIsRun(limits, trace, i);
    ReachedIsOk(steps);
  }

  lemma {:induction false} RunGrows(limits: Limits, trace: seq<State>, i: nat, j: nat)
    requires IsRun(limits, trace) && i <= j < |trace|
    ensures Grows(trace[i], trace[j])
    decreases j
  {
    hide Inv, Grows;
    if i == j {
      GrowsIsReflexive(trace[i]);
    } else {
      RunGrows(limits, trace, i, j - 1);
      RunIsOk(limits, trace, j - 1);
      assert LinkedAt(limits, trace, j - 1);
      NextKeepsInv(limits, trace[j - 1], trace[j]);
      GrowsIsTransitive(trace[i], trace[j - 1], trace[j]);
    }
  }

  /** The calls and passes that running tasks make; a configuring pass works towards one federation. */
  datatype Pass =
    | Handing(m: MachineId)
    | Requesting(m: MachineId)
    | Sweeping(g: ManagerId)
    | Serving(g: ManagerId)
    | Configuring(g: ManagerId, federation: Hash)

  function DeviceOf(p: Pass): Device {
    match p
    case Handing(m) => Machine(m)
    case Requesting(m) => Machine(m)
    case Sweeping(g) => Manager(g)
    case Serving(g) => Manager(g)
    case Configuring(g, _) => Manager(g)
  }

  /** The steps that only the pass itself takes while it runs, and the crash that ends it. Requests run
      beside the machine's own syncer, and a manager's calls beside everything else that it does.
      Configuring passes do overlap; the ones excluded here are those that work towards another
      federation. */
  predicate IsOwn(p: Pass, step: Step) {
    match p
    case Handing(m) =>
      || (step.FetchBatch? && step.m == m) || (step.WritePayment? && step.m == m)
      || (step.RemovePayments? && step.m == m) || (step.MachineSetsDefault? && step.m == m)
      || (step.RestartMachine? && step.m == m) || step == Handshake(Claims.CrashMachine(m))
    case Requesting(m) => (step.RestartMachine? && step.m == m) || step == Handshake(Claims.CrashMachine(m))
    case Sweeping(g) =>
      || (step.ListContract? && step.g == g) || (step.ClaimContract? && step.g == g)
      || (step.DeleteContract? && step.g == g) || (step.RestartManager? && step.g == g)
      || step == Handshake(Claims.CrashManager(g))
    case Serving(g) => (step.RestartManager? && step.g == g) || step == Handshake(Claims.CrashManager(g))
    case Configuring(g, f) =>
      || (step.WriteConfig? && step.g == g && step.config.invite.federation != f)
      || step == Handshake(Claims.CrashManager(g))
  }

  /** The device's own payment entries. */
  ghost predicate OwnEntriesKept(d: Device, s: State, s': State) {
    forall doc: DocId, slot: Slot {:trigger slot in Rep(s', d, doc)} ::
      slot.author == d && slot.key.ContractKey? && slot in Rep(s', d, doc) ==>
        slot in Rep(s, d, doc) && Rep(s', d, doc)[slot] == Rep(s, d, doc)[slot]
  }

  /** In its own replica of this doc, the manager has set this federation. */
  predicate HasSet(s: State, g: ManagerId, doc: DocId, federation: Hash) {
    var r := Rep(s, Manager(g), doc);
    var slot := Slot(Manager(g), ConfigKey);
    slot in r && r[slot].value.ConfigValue? && r[slot].value.config.invite.federation == federation
  }

  predicate MemoryKept(p: Pass, s: State, s': State) {
    match p
    case Handing(m) =>
      var d, d' := MachineOf(s, m), MachineOf(s', m);
      && d'.batch == d.batch && d'.written == d.written && d'.disk == d.disk && d'.running == d.running
      && d.wallet.Keys <= d'.wallet.Keys && d.seen <= d'.seen
    case Requesting(m) =>
      var d, d' := MachineOf(s, m), MachineOf(s', m);
      d.seen <= d'.seen && SameJoins(d.disk, d.running, d'.disk, d'.running)
    case Sweeping(g) =>
      var d, d' := ManagerOf(s, g), ManagerOf(s', g);
      d'.listed == d.listed && d'.swept == d.swept && d.disk.clients <= d'.disk.clients
    case Serving(g) =>
      var d, d' := ManagerOf(s, g), ManagerOf(s', g);
      SameJoins(d.disk, d.running, d'.disk, d'.running)
    case Configuring(g, _) => ManagerOf(s, g).plans <= ManagerOf(s', g).plans
  }

  /** While a wallet is up, a federation that has a directory neither gains nor loses its client. */
  predicate SameJoins(d: WalletDisk.State, running: bool, d': WalletDisk.State, running': bool) {
    && running == running' && d.clients <= d'.clients
    && (forall f :: f in d.dirs ==> f in d'.dirs && (f in d'.clients ==> f in d.clients))
  }

  lemma SettingKeepsJoins(d: WalletDisk.State, running: bool, invite: Invite, join: WalletDisk.Join, written: bool)
    ensures SameJoins(d, running, d, running)
    ensures SameJoins(d, running, WalletDisk.AfterSet(d, invite, join, written), running)
  {
  }

  /** What nobody else changes while a pass runs. */
  ghost predicate PassKept(p: Pass, s: State, s': State) {
    MemoryKept(p, s, s') &&
    match p
    case Requesting(_) => true
    case Serving(_) => true
    case Configuring(g, f) => forall doc :: HasSet(s, g, doc, f) ==> HasSet(s', g, doc, f)
    case _ => OwnEntriesKept(DeviceOf(p), s, s')
  }

  lemma OthersKeepMachine(m: MachineId, s: State, step: Step)
    requires Enabled(s, step) && !IsOwn(Handing(m), step)
    ensures MemoryKept(Handing(m), s, Apply(s, step))
  {
    hide Apply, Enabled, SeenConfig, Claimable, WalletDisk.AfterSet, WalletDisk.AfterRestart;
    StepOnMachine(s, step, m);
  }

  lemma OthersKeepSeen(m: MachineId, s: State, step: Step)
    requires Enabled(s, step) && !IsOwn(Requesting(m), step)
    ensures MemoryKept(Requesting(m), s, Apply(s, step))
  {
    hide Apply, Enabled, SeenConfig, Claimable, WalletDisk.AfterSet, WalletDisk.AfterRestart, SameJoins;
    StepOnMachine(s, step, m);
    var d := MachineOf(s, m);
    if step.MachineSetsDefault? {
      SettingKeepsJoins(d.disk, d.running, step.config.invite, step.join, step.written);
    } else {
      SettingKeepsJoins(d.disk, d.running, Invite(seq(32, _ => 0), 0), WalletDisk.Joined, false);
    }
  }

  lemma OthersKeepServing(g: ManagerId, s: State, step: Step)
    requires Enabled(s, step) && !IsOwn(Serving(g), step)
    ensures MemoryKept(Serving(g), s, Apply(s, step))
  {
    hide Apply, Enabled, ListedItem, WalletDisk.AfterSet, WalletDisk.AfterRestart, SameJoins;
    StepOnManager(s, step, g);
    var d := ManagerOf(s, g);
    if step.ManagerSetsDefault? {
      SettingKeepsJoins(d.disk, d.running, step.invite, step.join, step.written);
    } else {
      SettingKeepsJoins(d.disk, d.running, Invite(seq(32, _ => 0), 0), WalletDisk.Joined, false);
    }
  }

  lemma OthersKeepListings(g: ManagerId, s: State, step: Step)
    requires Enabled(s, step) && !IsOwn(Sweeping(g), step)
    ensures MemoryKept(Sweeping(g), s, Apply(s, step))
  {
    hide Apply, Enabled, ListedItem, WalletDisk.AfterRestart;
    StepOnManager(s, step, g);
  }

  lemma OthersKeepPlans(g: ManagerId, f: Hash, s: State, step: Step)
    requires Enabled(s, step) && !IsOwn(Configuring(g, f), step)
    ensures MemoryKept(Configuring(g, f), s, Apply(s, step))
  {
    hide Apply, Enabled, ListedItem, WalletDisk.AfterSet, WalletDisk.AfterRestart;
    StepOnManager(s, step, g);
  }

  lemma OnlyConfiguringSets(s: State, step: Step, g: ManagerId)
    requires Enabled(s, step) && PutOf(s, step).Put? && PutOf(s, step).slot == Slot(Manager(g), ConfigKey)
    ensures step.Sync? || (step.WriteConfig? && step.g == g)
  {
  }

  lemma WritingSets(s: State, step: Step, doc: DocId)
    requires step.WriteConfig? && Enabled(s, step)
    ensures
      var f := step.config.invite.federation;
      HasSet(s, step.g, doc, f) || doc == Tickets(s, step.g)[step.m] ==> HasSet(Apply(s, step), step.g, doc, f)
  {
  }

  lemma OnlyConfiguringResets(g: ManagerId, f: Hash, s: State, step: Step, doc: DocId)
    requires ClocksOk(s) && Enabled(s, step) && !(step.WriteConfig? && step.g == g) && HasSet(s, g, doc, f)
    ensures HasSet(Apply(s, step), g, doc, f)
  {
    var slot := Slot(Manager(g), ConfigKey);
    if PutOf(s, step).Put? && PutOf(s, step).slot == slot {
      OnlyConfiguringSets(s, step, g);
    }
    OnlyAuthorWrites(s, step, Manager(g), doc, slot);
  }

  lemma OthersKeepSettings(g: ManagerId, f: Hash, s: State, step: Step, doc: DocId)
    requires ClocksOk(s) && Enabled(s, step) && !IsOwn(Configuring(g, f), step) && HasSet(s, g, doc, f)
    ensures HasSet(Apply(s, step), g, doc, f)
  {
    hide Apply, Enabled, HasSet;
    if step.WriteConfig? && step.g == g {
      WritingSets(s, step, doc);
    } else {
      OnlyConfiguringResets(g, f, s, step, doc);
    }
  }

  lemma OthersKeepPass(p: Pass, s: State, step: Step)
    requires ClocksOk(s) && Enabled(s, step) && !IsOwn(p, step)
    ensures PassKept(p, s, Apply(s, step))
  {
    hide Apply, Enabled, ClocksOk, OwnEntriesKept, HasSet, IsOwn, MemoryKept;
    match p {
      case Handing(m) =>
        OthersKeepMachine(m, s, step);
        OthersKeepEntries(p, s, step);
      case Requesting(m) => OthersKeepSeen(m, s, step);
      case Serving(g) => OthersKeepServing(g, s, step);
      case Sweeping(g) =>
        OthersKeepListings(g, s, step);
        OthersKeepEntries(p, s, step);
      case Configuring(g, f) =>
        OthersKeepPlans(g, f, s, step);
        forall doc | HasSet(s, g, doc, f) ensures HasSet(Apply(s, step), g, doc, f) {
          OthersKeepSettings(g, f, s, step, doc);
        }
    }
  }

  lemma OwnWritesAreOwn(p: Pass, s: State, step: Step)
    requires Enabled(s, step) && !IsOwn(p, step) && (p.Handing? || p.Sweeping?) && PutOf(s, step).Put?
    requires PutOf(s, step).slot.key.ContractKey? && PutOf(s, step).slot.author == DeviceOf(p)
    ensures step.Sync?
  {
    hide Claims.Apply, Claims.Enabled, Visible, CanWrite, WalletDisk.AllInitialized;
  }

  lemma OthersKeepEntries(p: Pass, s: State, step: Step)
    requires ClocksOk(s) && Enabled(s, step) && !IsOwn(p, step) && (p.Handing? || p.Sweeping?)
    ensures OwnEntriesKept(DeviceOf(p), s, Apply(s, step))
  {
    hide Apply, Enabled, ClocksOk, IsOwn, PutOf;
    var d, s' := DeviceOf(p), Apply(s, step);
    forall doc: DocId, slot: Slot | slot.author == d && slot.key.ContractKey? && slot in Rep(s', d, doc)
      ensures slot in Rep(s, d, doc) && Rep(s', d, doc)[slot] == Rep(s, d, doc)[slot]
    {
      if PutOf(s, step).Put? && PutOf(s, step).slot == slot {
        OwnWritesAreOwn(p, s, step);
      }
      OnlyAuthorWrites(s, step, d, doc, slot);
    }
  }

  /** A device's clock, moved on when the engine would refuse its reading as not newer than the
      author's own entry. */
  function Stamp(r: Replica, slot: Slot, now: nat): (ts: nat)
    ensures Acceptable(r, slot, ts) && ts >= now
  {
    if slot in r && now <= r[slot].ts then r[slot].ts + 1 else now
  }

  /** Nothing fails in this pass. */
  ghost predicate Clean(w: World) {
    forall i :: w.outcome(i) == Fine && w.join(i).Joined?
  }

  /** The device's clock never shows less than this. */
  ghost predicate ClockFrom(w: World, low: nat) {
    forall i :: low <= w.clock(i)
  }

  class Runtime {
    var st: State
    var tick: nat
    ghost var trace: seq<State>
    ghost var mine: seq<Step>
    const limits: Limits

    ghost predicate Valid()
      reads this
    {
      IsRun(limits, trace) && Last(trace) == st
    }

    constructor (within: Limits)
      ensures Valid() && st == INIT && tick == 0 && mine == [] && limits == within
    {
      st := INIT;
      tick := 0;
      trace := [INIT];
      mine := [];
      limits := within;
    }

    lemma IsOk()
      requires Valid()
      ensures Inv(st)
    {
      RunIsOk(limits, trace, |trace| - 1);
    }

    /** What was true after the first i states of this run and is never lost is true after j. */
    lemma GrownBetween(i: nat, j: nat)
      requires Valid() && 0 < i <= j <= |trace|
      ensures Grows(trace[i - 1], trace[j - 1]) && Inv(trace[i - 1]) && Inv(trace[j - 1])
    {
      hide Inv, Grows;
      RunGrows(limits, trace, i - 1, j - 1);
      RunIsOk(limits, trace, i - 1);
      RunIsOk(limits, trace, j - 1);
    }

    lemma GrownSince(n: nat)
      requires Valid() && 0 < n <= |trace|
      ensures Grows(trace[n - 1], st) && Inv(trace[n - 1]) && Inv(st)
    {
      hide Inv, Grows;
      GrownBetween(n, |trace|);
    }

    twostate lemma HasGrown()
      requires old(Valid()) && Valid() && old(trace) <= trace
      ensures Grows(old(st), st) && Inv(old(st)) && Inv(st)
    {
      GrownSince(|old(trace)|);
    }

    twostate lemma TicketKept(m: MachineId)
      requires old(Valid()) && Valid() && old(trace) <= trace && ClaimedMachine(old(st), m).ticket.Some?
      ensures ClaimedMachine(st, m).ticket == ClaimedMachine(old(st), m).ticket
    {
      HasGrown();
      OwnerKept(old(st), st, m);
    }

    /** One atomic action of the code itself; `mine` are all of them. */
    method Perform(step: Step)
      requires Valid() && Enabled(st, step) && !step.Fund? && !step.Handshake?
      modifies this
      ensures Valid() && trace == old(trace) + [st] && tick == old(tick) && st == Apply(old(st), step)
      ensures mine == old(mine) + [step]
    {
      hide Apply, Enabled;
      Take(step);
      mine := mine + [step];
    }

    method Take(step: Step)
      requires Valid() && Enabled(st, step) && !Excluded(limits, st, step)
      modifies this
      ensures Valid() && trace == old(trace) + [st] && tick == old(tick) && st == Apply(old(st), step)
      ensures mine == old(mine)
    {
      hide Apply, Enabled;
      ghost var before := st;
      st := Apply(st, step);
      assert Next(limits, before, st);
      ghost var extended := trace + [st];
      forall i: nat ensures LinkedAt(limits, extended, i) {
        assert LinkedAt(limits, trace, i);
      }
      trace := extended;
    }

    /** Wait for a call to come back: the others take any steps they like meanwhile. */
    method Await(me: Pass, w: World)
      requires Valid()
      modifies this
      ensures Valid() && old(trace) <= trace && tick == old(tick) + 1 && PassKept(me, old(st), st)
      ensures mine == old(mine)
    {
      hide Apply, Enabled, Inv, IsOwn;
      var steps := w.others(tick);
      for i := 0 to |steps|
        invariant Valid() && old(trace) <= trace && tick == old(tick) && PassKept(me, old(st), st)
        invariant mine == old(mine)
      {
        if Enabled(st, steps[i]) && !IsOwn(me, steps[i]) && !Excluded(limits, st, steps[i]) {
          IsOk();
          InvParts(st);
          OthersKeepPass(me, st, steps[i]);
          Take(steps[i]);
        }
      }
      tick := tick + 1;
    }
  }
}
