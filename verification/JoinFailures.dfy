/**
 What a first join that breaks off does to a device, over whole runs: the one await point of the passes
 at which stopping is not safe.
 */
module JoinFailures {
  import opened Types
  import opened Docs
  import opened Vending
  import opened VendingInvariant
  import Claims
  import WalletDisk

  /** The first join of this federation ends here and leaves a directory that was never initialized. */
  predicate BreaksOff(d: WalletDisk.State, invite: Invite, join: WalletDisk.Join) {
    invite.federation !in d.dirs && (join == WalletDisk.NotOpened(true) || join == WalletDisk.NotJoined(false))
  }

  lemma SettingKeepsInitialized(d: WalletDisk.State, invite: Invite, join: WalletDisk.Join, written: bool)
    requires WalletDisk.AllInitialized(d)
    ensures WalletDisk.AllInitialized(WalletDisk.AfterSet(d, invite, join, written)) <==> !BreaksOff(d, invite, join)
  {
    var d', f := WalletDisk.AfterSet(d, invite, join, written), invite.federation;
    if BreaksOff(d, invite, join) {
      assert f in d'.dirs && !d'.dirs[f];
    }
  }

  /** This step is a first join of the machine that breaks off. */
  predicate BreaksMachine(s: State, step: Step, m: MachineId) {
    step.MachineSetsDefault? && step.m == m && BreaksOff(MachineOf(s, m).disk, step.config.invite, step.join)
  }

  predicate BreaksManager(s: State, step: Step, g: ManagerId) {
    step.ManagerSetsDefault? && step.g == g && BreaksOff(ManagerOf(s, g).disk, step.invite, step.join)
  }

  /** Initialization is lost by one thing only: a first join of this machine that breaks off. */
  lemma InitializedLostOnlyByBrokenJoins(s: State, step: Step, m: MachineId)
    requires Enabled(s, step) && WalletDisk.AllInitialized(MachineOf(s, m).disk)
    ensures WalletDisk.AllInitialized(MachineOf(Apply(s, step), m).disk) <==> !BreaksMachine(s, step, m)
  {
    hide Apply, Enabled, SeenConfig, Claimable, WalletDisk.AfterSet, BreaksOff;
    StepOnMachine(s, step, m);
    if step.MachineSetsDefault? {
      SettingKeepsInitialized(MachineOf(s, m).disk, step.config.invite, step.join, step.written);
    }
  }

  lemma ManagerLostOnlyByBrokenJoins(s: State, step: Step, g: ManagerId)
    requires Enabled(s, step) && WalletDisk.AllInitialized(ManagerOf(s, g).disk)
    ensures WalletDisk.AllInitialized(ManagerOf(Apply(s, step), g).disk) <==> !BreaksManager(s, step, g)
  {
    hide Apply, Enabled, ListedItem, WalletDisk.AfterSet, BreaksOff;
    StepOnManager(s, step, g);
    if step.ManagerSetsDefault? {
      SettingKeepsInitialized(ManagerOf(s, g).disk, step.invite, step.join, step.written);
    }
  }

  // ---------------------------------------------------------------------------------------------
  // Starting again
  // ---------------------------------------------------------------------------------------------

  /** A directory whose database was never initialized. Nothing ever initializes it later. */
  predicate Uninitialized(d: WalletDisk.State, f: Hash) {
    f in d.dirs && !d.dirs[f]
  }

  lemma SettingKeepsUninitialized(
    d: WalletDisk.State, invite: Invite, join: WalletDisk.Join, written: bool, f: Hash)
    requires Uninitialized(d, f)
    ensures Uninitialized(WalletDisk.AfterSet(d, invite, join, written), f)
  {
  }

  lemma {:induction false} MachineStaysUninitialized(s: State, steps: seq<Step>, m: MachineId, f: Hash)
    requires Legal(s, steps) && Uninitialized(MachineOf(s, m).disk, f)
    ensures Uninitialized(MachineOf(Run(s, steps), m).disk, f)
    decreases |steps|
  {
    hide Apply, Enabled, SeenConfig, Claimable, WalletDisk.AfterSet;
    if steps != [] {
      StepOnMachine(s, steps[0], m);
      if steps[0].MachineSetsDefault? {
        SettingKeepsUninitialized(
          MachineOf(s, m).disk, steps[0].config.invite, steps[0].join, steps[0].written, f);
      }
      MachineStaysUninitialized(Apply(s, steps[0]), steps[1..], m, f);
    }
  }

  lemma {:induction false} ManagerStaysUninitialized(s: State, steps: seq<Step>, g: ManagerId, f: Hash)
    requires Legal(s, steps) && Uninitialized(ManagerOf(s, g).disk, f)
    ensures Uninitialized(ManagerOf(Run(s, steps), g).disk, f)
    decreases |steps|
  {
    hide Apply, Enabled, ListedItem, WalletDisk.AfterSet;
    if steps != [] {
      StepOnManager(s, steps[0], g);
      if steps[0].ManagerSetsDefault? {
        SettingKeepsUninitialized(ManagerOf(s, g).disk, steps[0].invite, steps[0].join, steps[0].written, f);
      }
      ManagerStaysUninitialized(Apply(s, steps[0]), steps[1..], g, f);
    }
  }

  /** No first join of this machine breaks off in the whole run. */
  predicate MachineNeverBreaks(s: State, steps: seq<Step>, m: MachineId)
    requires Legal(s, steps)
    decreases |steps|
  {
    steps == [] || (!BreaksMachine(s, steps[0], m) && MachineNeverBreaks(Apply(s, steps[0]), steps[1..], m))
  }

  predicate ManagerNeverBreaks(s: State, steps: seq<Step>, g: ManagerId)
    requires Legal(s, steps)
    decreases |steps|
  {
    steps == [] || (!BreaksManager(s, steps[0], g) && ManagerNeverBreaks(Apply(s, steps[0]), steps[1..], g))
  }

  lemma {:induction false} MachineInitializedUnlessBroken(s: State, steps: seq<Step>, m: MachineId)
    requires Legal(s, steps) && WalletDisk.AllInitialized(MachineOf(s, m).disk)
    ensures WalletDisk.AllInitialized(MachineOf(Run(s, steps), m).disk) <==> MachineNeverBreaks(s, steps, m)
    decreases |steps|
  {
    hide Apply, Enabled, BreaksMachine;
    if steps != [] {
      var s' := Apply(s, steps[0]);
      InitializedLostOnlyByBrokenJoins(s, steps[0], m);
      if BreaksMachine(s, steps[0], m) {
        var f :| f in MachineOf(s', m).disk.dirs && !MachineOf(s', m).disk.dirs[f];
        MachineStaysUninitialized(s', steps[1..], m, f);
      } else {
        MachineInitializedUnlessBroken(s', steps[1..], m);
      }
    }
  }

  lemma {:induction false} ManagerInitializedUnlessBroken(s: State, steps: seq<Step>, g: ManagerId)
    requires Legal(s, steps) && WalletDisk.AllInitialized(ManagerOf(s, g).disk)
    ensures WalletDisk.AllInitialized(ManagerOf(Run(s, steps), g).disk) <==> ManagerNeverBreaks(s, steps, g)
    decreases |steps|
  {
    hide Apply, Enabled, BreaksManager;
    if steps != [] {
      var s' := Apply(s, steps[0]);
      ManagerLostOnlyByBrokenJoins(s, steps[0], g);
      if BreaksManager(s, steps[0], g) {
        var f :| f in ManagerOf(s', g).disk.dirs && !ManagerOf(s', g).disk.dirs[f];
        ManagerStaysUninitialized(s', steps[1..], g, f);
      } else {
        ManagerInitializedUnlessBroken(s', steps[1..], g);
      }
    }
  }

  /** A restart over this disk gets through: what `WalletDisk.RestartWallet` succeeds with. */
  predicate RestartsWith(d: WalletDisk.State, opens: Hash -> bool) {
    forall f :: f in d.dirs ==> WalletDisk.Reopens(d, f, opens)
  }

  /** The guard of the restart is what the code of the restart needs. */
  lemma SomeRestartExactlyWhenInitialized(d: WalletDisk.State)
    ensures (exists opens :: RestartsWith(d, opens)) <==> WalletDisk.AllInitialized(d)
  {
    if WalletDisk.AllInitialized(d) {
      assert RestartsWith(d, _ => true);
    }
  }

  /** At whatever point of whatever run a machine is stopped, its wallet can start again if and only if no
      first join of it ever broke off in that run. */
  lemma MachineStartsAgainExactlyWhenNothingBroke(steps: seq<Step>, m: MachineId)
    requires Legal(INIT, steps)
    ensures
      var s := Run(INIT, steps);
      var stopped := Apply(s, Handshake(Claims.CrashMachine(m)));
      && ((exists opens :: RestartsWith(MachineOf(stopped, m).disk, opens)) <==> MachineNeverBreaks(INIT, steps, m))
      && (Enabled(stopped, RestartMachine(m)) <==> MachineNeverBreaks(INIT, steps, m))
  {
    hide Legal, Run, MachineNeverBreaks;
    MachineInitializedUnlessBroken(INIT, steps, m);
    var stopped := Apply(Run(INIT, steps), Handshake(Claims.CrashMachine(m)));
    SomeRestartExactlyWhenInitialized(MachineOf(stopped, m).disk);
  }

  /** And so it is with a manager. */
  lemma ManagerStartsAgainExactlyWhenNothingBroke(steps: seq<Step>, g: ManagerId)
    requires Legal(INIT, steps)
    ensures
      var s := Run(INIT, steps);
      var stopped := Apply(s, Handshake(Claims.CrashManager(g)));
      && ((exists opens :: RestartsWith(ManagerOf(stopped, g).disk, opens)) <==> ManagerNeverBreaks(INIT, steps, g))
      && (Enabled(stopped, RestartManager(g)) <==> ManagerNeverBreaks(INIT, steps, g))
  {
    hide Legal, Run, ManagerNeverBreaks;
    ManagerInitializedUnlessBroken(INIT, steps, g);
    var stopped := Apply(Run(INIT, steps), Handshake(Claims.CrashManager(g)));
    SomeRestartExactlyWhenInitialized(ManagerOf(stopped, g).disk);
  }

  // ---------------------------------------------------------------------------------------------
  // Going on
  // ---------------------------------------------------------------------------------------------

  /** A directory without a database, and no client. */
  predicate Broken(d: WalletDisk.State, f: Hash) {
    Uninitialized(d, f) && f !in d.clients
  }

  lemma SettingKeepsBroken(d: WalletDisk.State, invite: Invite, join: WalletDisk.Join, written: bool, f: Hash)
    requires Broken(d, f)
    ensures Broken(WalletDisk.AfterSet(d, invite, join, written), f) && Broken(NoClients(d), f)
  {
  }

  lemma StepKeepsMachineBroken(s: State, step: Step, m: MachineId, f: Hash)
    requires Enabled(s, step) && Broken(MachineOf(s, m).disk, f)
    ensures Broken(MachineOf(Apply(s, step), m).disk, f)
  {
    hide Apply, Enabled, SeenConfig, Claimable, WalletDisk.AfterSet, Broken, NoClients;
    StepOnMachine(s, step, m);
    RestartsNeedInitialized(s, step);
    BrokenIsNotInitialized(MachineOf(s, m).disk, f);
    if step.MachineSetsDefault? {
      SettingKeepsBroken(MachineOf(s, m).disk, step.config.invite, step.join, step.written, f);
    } else {
      SettingKeepsBroken(MachineOf(s, m).disk, Invite(f, 0), WalletDisk.Joined, false, f);
    }
  }

  lemma BrokenIsNotInitialized(d: WalletDisk.State, f: Hash)
    requires Broken(d, f)
    ensures !WalletDisk.AllInitialized(d)
  {
  }

  lemma StepKeepsManagerBroken(s: State, step: Step, g: ManagerId, f: Hash)
    requires Enabled(s, step) && Broken(ManagerOf(s, g).disk, f)
    ensures Broken(ManagerOf(Apply(s, step), g).disk, f)
  {
    hide Apply, Enabled, ListedItem, WalletDisk.AfterSet, Broken, NoClients;
    StepOnManager(s, step, g);
    RestartsNeedInitialized(s, step);
    BrokenIsNotInitialized(ManagerOf(s, g).disk, f);
    if step.ManagerSetsDefault? {
      SettingKeepsBroken(ManagerOf(s, g).disk, step.invite, step.join, step.written, f);
    } else {
      SettingKeepsBroken(ManagerOf(s, g).disk, Invite(f, 0), WalletDisk.Joined, false, f);
    }
  }

  lemma {:induction false} MachineStaysBroken(s: State, steps: seq<Step>, m: MachineId, f: Hash)
    requires Legal(s, steps) && Broken(MachineOf(s, m).disk, f)
    ensures Broken(MachineOf(Run(s, steps), m).disk, f)
    decreases |steps|
  {
    hide Apply, Enabled, Broken;
    if steps != [] {
      StepKeepsMachineBroken(s, steps[0], m, f);
      MachineStaysBroken(Apply(s, steps[0]), steps[1..], m, f);
    }
  }

  lemma {:induction false} ManagerStaysBroken(s: State, steps: seq<Step>, g: ManagerId, f: Hash)
    requires Legal(s, steps) && Broken(ManagerOf(s, g).disk, f)
    ensures Broken(ManagerOf(Run(s, steps), g).disk, f)
    decreases |steps|
  {
    hide Apply, Enabled, Broken;
    if steps != [] {
      StepKeepsManagerBroken(s, steps[0], g, f);
      ManagerStaysBroken(Apply(s, steps[0]), steps[1..], g, f);
    }
  }

  /** In every run after that, the machine never asks for a payment in this federation, never hands one
      over, and never gets up again once it is stopped. */
  lemma BrokenMachineIsStuckForever(
    s: State, steps: seq<Step>, m: MachineId, config: MachineConfig, id: Hash, amount: nat)
    requires Legal(s, steps) && Broken(MachineOf(s, m).disk, config.invite.federation)
    ensures
      var s' := Run(s, steps);
      && !Enabled(s', Request(m, config, id, amount)) && !Enabled(s', FetchBatch(m, config))
      && !Enabled(s', RestartMachine(m))
  {
    hide Apply, Legal;
    MachineStaysBroken(s, steps, m, config.invite.federation);
  }

  /** And such a manager never plans a config for the federation, never claims a contract of it, and never
      gets up again once it is stopped. */
  lemma BrokenManagerIsStuckForever(s: State, steps: seq<Step>, g: ManagerId, f: Hash, item: Item)
    requires Legal(s, steps) && Broken(ManagerOf(s, g).disk, f) && item.federation == f
    ensures
      var s' := Run(s, steps);
      && (Enabled(s', PlanConfig(g)) ==> ManagerOf(s', g).disk.default.value.federation != f)
      && !Enabled(s', ClaimContract(g, item)) && !Enabled(s', RestartManager(g))
  {
    hide Apply, Legal;
    ManagerStaysBroken(s, steps, g, f);
  }
}
