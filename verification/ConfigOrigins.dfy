/** Where configs come from: over whole runs, every config anywhere carries a default of the machine's owner. */
module ConfigOrigins {
  import opened Types
  import opened Docs
  import opened Vending
  import opened VendingInvariant
  import opened VendingTheorems
  import opened ConfigSyncer
  import Claims
  import WalletDisk

  /** What a step makes the default of whom. */
  function MadeBy(s: State, step: Step): set<(ManagerId, Invite)> {
    if
      && step.ManagerSetsDefault?
      && WalletDisk.SetSucceeds(ManagerOf(s, step.g).disk, step.invite, step.join, step.written)
    then {(step.g, step.invite)} else {}
  }

  /** What the steps of a run made the default of whom. */
  function DefaultsMade(s: State, steps: seq<Step>): set<(ManagerId, Invite)>
    requires Legal(s, steps)
    decreases |steps|
  {
    if steps == [] then {} else MadeBy(s, steps[0]) + DefaultsMade(Apply(s, steps[0]), steps[1..])
  }

  /** An invite that the manager made its default, with the manager's own key for that federation. */
  predicate Comes(made: set<(ManagerId, Invite)>, g: ManagerId, config: MachineConfig) {
    (g, config.invite) in made && config.claimerPk == ClaimKey(g, config.invite.federation)
  }

  predicate DefaultsCome(s: State, made: set<(ManagerId, Invite)>, g: ManagerId) {
    var default := ManagerOf(s, g).disk.default;
    default.Some? ==> (g, default.value) in made
  }

  predicate PlansCome(s: State, made: set<(ManagerId, Invite)>, g: ManagerId) {
    forall config :: config in ManagerOf(s, g).plans ==> Comes(made, g, config)
  }

  predicate EntryComes(made: set<(ManagerId, Invite)>, slot: Slot, e: Entry) {
    e.value.ConfigValue? ==> slot.author.Manager? && Comes(made, slot.author.manager, e.value.config)
  }

  ghost predicate EntriesCome(s: State, made: set<(ManagerId, Invite)>) {
    forall d, doc, slot :: slot in Rep(s, d, doc) ==> EntryComes(made, slot, Rep(s, d, doc)[slot])
  }

  /** What a machine has read, of its owner. */
  predicate SeenCome(s: State, made: set<(ManagerId, Invite)>, m: MachineId) {
    forall config :: config in MachineOf(s, m).seen ==>
      ClaimedMachine(s, m).disk.Some? && Comes(made, ClaimedMachine(s, m).disk.value, config)
  }

  ghost predicate ConfigsCome(s: State, made: set<(ManagerId, Invite)>) {
    && (forall g :: DefaultsCome(s, made, g) && PlansCome(s, made, g)) && EntriesCome(s, made)
    && (forall m :: SeenCome(s, made, m))
  }

  lemma StepKeepsDefaults(s: State, step: Step, made: set<(ManagerId, Invite)>, g: ManagerId)
    requires Enabled(s, step) && DefaultsCome(s, made, g)
    ensures DefaultsCome(Apply(s, step), made + MadeBy(s, step), g)
  {
    hide Apply, Enabled, ListedItem;
    StepOnManager(s, step, g);
  }

  lemma StepKeepsPlans(s: State, step: Step, made: set<(ManagerId, Invite)>, g: ManagerId)
    requires Enabled(s, step) && DefaultsCome(s, made, g) && PlansCome(s, made, g)
    ensures PlansCome(Apply(s, step), made + MadeBy(s, step), g)
  {
    hide Apply, Enabled, ListedItem, WalletDisk.AfterSet, WalletDisk.AfterRestart;
    StepOnManager(s, step, g);
    PlanningNeedsDefault(s, step);
  }

  lemma PlanningNeedsDefault(s: State, step: Step)
    requires Enabled(s, step)
    ensures step.PlanConfig? ==> ManagerOf(s, step.g).disk.default.Some?
    ensures step.WriteConfig? ==> step.config in ManagerOf(s, step.g).plans
  {
  }

  lemma PutComes(s: State, step: Step, made: set<(ManagerId, Invite)>)
    requires Enabled(s, step) && EntriesCome(s, made) && forall g :: PlansCome(s, made, g)
    ensures PutOf(s, step).Put? ==> EntryComes(made, PutOf(s, step).slot, PutOf(s, step).e)
  {
    hide Enabled;
    PlanningNeedsDefault(s, step);
    if step.WriteConfig? {
      assert PlansCome(s, made, step.g);
    } else if step.Sync? {
      SyncingHasEntry(s, step);
    }
  }

  lemma SyncingHasEntry(s: State, step: Step)
    requires Enabled(s, step)
    ensures step.Sync? ==> step.slot in Rep(s, step.from, step.doc)
  {
  }

  lemma StepKeepsEntriesCome(s: State, step: Step, made: set<(ManagerId, Invite)>)
    requires Enabled(s, step) && EntriesCome(s, made) && forall g :: PlansCome(s, made, g)
    ensures EntriesCome(Apply(s, step), made + MadeBy(s, step))
  {
    hide Apply, Enabled, PutOf, PlansCome, MadeBy;
    StepPuts(s, step);
    PutComes(s, step, made);
    var s', p := Apply(s, step), PutOf(s, step);
    forall d, doc, slot | slot in Rep(s', d, doc)
      ensures EntryComes(made + MadeBy(s, step), slot, Rep(s', d, doc)[slot])
    {
      var r := Rep(s, d, doc);
      assert Rep(s', d, doc) == if p.Put? && p.d == d && p.doc == doc then r[p.slot := p.e] else r;
    }
  }

  /** What a machine sees comes from its owner. */
  lemma SeenConfigComes(s: State, made: set<(ManagerId, Invite)>, m: MachineId)
    requires Inv(s) && EntriesCome(s, made) && SeenConfig(s, m).Some?
    ensures ClaimedMachine(s, m).disk.Some? && Comes(made, ClaimedMachine(s, m).disk.value, SeenConfig(s, m).value)
  {
    hide Inv, EntriesOk, Claims.Inv, SeenConfig;
    InvParts(s);
    SeesOwnersConfig(s, m);
    var slot := ConfigSlot(s, m);
    assert EntryComes(made, slot, OwnReplica(s, m)[slot]);
  }

  lemma ReadingSees(s: State, step: Step)
    requires Enabled(s, step)
    ensures step.ReadConfig? ==> SeenConfig(s, step.m).Some?
  {
  }

  lemma StepKeepsSeen(s: State, step: Step, made: set<(ManagerId, Invite)>, m: MachineId)
    requires Inv(s) && Enabled(s, step) && EntriesCome(s, made) && SeenCome(s, made, m)
    ensures SeenCome(Apply(s, step), made + MadeBy(s, step), m)
  {
    hide Apply, Enabled, Inv, Grows, SeenConfig, Claimable, WalletDisk.AfterSet, WalletDisk.AfterRestart;
    hide EntriesCome, MadeBy;
    StepOnMachine(s, step, m);
    StepKeepsInv(s, step);
    OwnerKept(s, Apply(s, step), m);
    ReadingSees(s, step);
    if SeenConfig(s, m).Some? {
      SeenConfigComes(s, made, m);
    }
  }

  lemma StepKeepsConfigs(s: State, step: Step, made: set<(ManagerId, Invite)>)
    requires Inv(s) && Enabled(s, step) && ConfigsCome(s, made)
    ensures ConfigsCome(Apply(s, step), made + MadeBy(s, step))
  {
    hide Apply, Enabled, Inv, DefaultsCome, PlansCome, EntriesCome, SeenCome, MadeBy;
    StepKeepsEntriesCome(s, step, made);
    forall g
      ensures DefaultsCome(Apply(s, step), made + MadeBy(s, step), g)
      ensures PlansCome(Apply(s, step), made + MadeBy(s, step), g)
    {
      StepKeepsDefaults(s, step, made, g);
      StepKeepsPlans(s, step, made, g);
    }
    forall m ensures SeenCome(Apply(s, step), made + MadeBy(s, step), m) {
      StepKeepsSeen(s, step, made, m);
    }
  }

  lemma {:induction false} RunKeepsConfigs(s: State, steps: seq<Step>, made: set<(ManagerId, Invite)>)
    requires Inv(s) && Legal(s, steps) && ConfigsCome(s, made)
    ensures ConfigsCome(Run(s, steps), made + DefaultsMade(s, steps))
    decreases |steps|
  {
    hide Apply, Enabled, Inv, ConfigsCome, MadeBy, Grows;
    if steps == [] {
      assert made + {} == made;
    } else {
      StepKeepsInv(s, steps[0]);
      StepKeepsConfigs(s, steps[0], made);
      var s', rest := Apply(s, steps[0]), steps[1..];
      RunKeepsConfigs(s', rest, made + MadeBy(s, steps[0]));
      assert made + MadeBy(s, steps[0]) + DefaultsMade(s', rest) == made + DefaultsMade(s, steps);
    }
  }

  lemma NothingConfiguredYet()
    ensures ConfigsCome(INIT, {})
  {
  }

  /** In every run, each config that stands in a replica, is planned by a manager or was read by a machine is
      one that the machine's owner made: its invite, every part of it, is one that a call on that manager
      made the default earlier in the run, and its key is the manager's for that federation. */
  lemma ConfigsAreDefaultsOfTheOwner(steps: seq<Step>)
    requires Legal(INIT, steps)
    ensures
      var s, made := Run(INIT, steps), DefaultsMade(INIT, steps);
      && (forall d, doc, slot :: slot in Rep(s, d, doc) && Rep(s, d, doc)[slot].value.ConfigValue? ==>
            slot.author.Manager? && Comes(made, slot.author.manager, Rep(s, d, doc)[slot].value.config))
      && (forall g, config :: config in ManagerOf(s, g).plans ==> Comes(made, g, config))
      && (forall m, config :: config in MachineOf(s, m).seen ==>
            ClaimedMachine(s, m).disk.Some? && Comes(made, ClaimedMachine(s, m).disk.value, config))
      && (forall m :: SeenConfig(s, m).Some? ==>
            ClaimedMachine(s, m).disk.Some? && Comes(made, ClaimedMachine(s, m).disk.value, SeenConfig(s, m).value))
  {
    hide Legal, Run, DefaultsMade, Inv, SeenConfig;
    RunIsFromInit(steps);
    NothingConfiguredYet();
    RunKeepsConfigs(INIT, steps, {});
    var s, made := Run(INIT, steps), DefaultsMade(INIT, steps);
    assert {} + made == made;
    forall g, config | config in ManagerOf(s, g).plans ensures Comes(made, g, config) {
      assert PlansCome(s, made, g);
    }
    forall m, config | config in MachineOf(s, m).seen
      ensures ClaimedMachine(s, m).disk.Some? && Comes(made, ClaimedMachine(s, m).disk.value, config)
    {
      assert SeenCome(s, made, m);
    }
    forall m | SeenConfig(s, m).Some?
      ensures ClaimedMachine(s, m).disk.Some?
      ensures Comes(made, ClaimedMachine(s, m).disk.value, SeenConfig(s, m).value)
    {
      SeenConfigComes(s, made, m);
    }
    forall d, doc, slot | slot in Rep(s, d, doc) ensures EntryComes(made, slot, Rep(s, d, doc)[slot]) {}
  }

  lemma RunIsFromInit(steps: seq<Step>)
    requires Legal(INIT, steps)
    ensures Inv(INIT) && Inv(Run(INIT, steps))
  {
    hide Inv;
    InitIsOk();
    RunKeepsInv(INIT, steps);
  }
}
