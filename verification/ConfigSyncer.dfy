/** The manager's config pass, and how configs travel to the machines. */
module ConfigSyncer {
  import opened Types
  import opened Docs
  import opened Vending
  import opened VendingInvariant
  import opened Runtimes
  import opened ManagerSyncer
  import Claims
  import WalletDisk

  /** A listed machine whose config, as the manager last set it, is for this federation. */
  predicate Configured(s: State, g: ManagerId, m: MachineId, federation: Hash) {
    m in Tickets(s, g) && HasSet(s, g, Tickets(s, g)[m], federation)
  }

  /** `get_machine_config` on the manager's side. */
  function ConfigFor(s: State, g: ManagerId, m: MachineId): Option<MachineConfig> {
    var v := Visible(ReplicaOf(s, g, m), ConfigKey);
    if v.Some? && v.value.ConfigValue? then Some(v.value.config) else None
  }

  /** Nobody but a machine's owner sets its config. */
  lemma OnlyOwnerSets(s: State, d: Device, doc: DocId, m: MachineId, slot: Slot)
    requires EntriesOk(s) && doc in s.claims.makers && s.claims.makers[doc] == m
    requires slot in Rep(s, d, doc) && slot.key == ConfigKey
    ensures ClaimedMachine(s, m).disk.Some? && slot == Slot(Manager(ClaimedMachine(s, m).disk.value), ConfigKey)
    ensures Rep(s, d, doc)[slot].value.ConfigValue?
  {
    assert EntryOk(s, doc, slot, Rep(s, d, doc)[slot]);
  }

  /** So a query for the config answers with the owner's entry, if the replica has one. */
  lemma ShowsOwnersConfig(s: State, d: Device, doc: DocId, m: MachineId, g: ManagerId)
    requires EntriesOk(s) && doc in s.claims.makers && s.claims.makers[doc] == m && OwnedBy(s, m, g)
    ensures
      var r, slot := Rep(s, d, doc), Slot(Manager(g), ConfigKey);
      Visible(r, ConfigKey) == if slot in r then Some(r[slot].value) else None
    ensures var r, slot := Rep(s, d, doc), Slot(Manager(g), ConfigKey); slot in r ==> r[slot].value.ConfigValue?
  {
    var r, slot := Rep(s, d, doc), Slot(Manager(g), ConfigKey);
    var latest := LatestSlot(r, ConfigKey);
    if latest.Some? {
      OnlyOwnerSets(s, d, doc, m, latest.value);
    }
  }

  lemma ReadsBackWhatItSet(s: State, g: ManagerId, m: MachineId, federation: Hash)
    requires Claims.Inv(s.claims) && EntriesOk(s) && m in Tickets(s, g)
    ensures Configured(s, g, m, federation) <==>
      ConfigFor(s, g, m).Some? && ConfigFor(s, g, m).value.invite.federation == federation
  {
    TicketFacts(s, m, g);
    ShowsOwnersConfig(s, Manager(g), Tickets(s, g)[m], m, g);
  }

  /** While a pass towards a federation runs, nobody takes that federation from a machine. */
  lemma ConfiguredKept(s: State, s': State, g: ManagerId, federation: Hash)
    requires Inv(s) && Inv(s') && Grows(s, s') && PassKept(Configuring(g, federation), s, s')
    ensures forall m :: m in Tickets(s, g) ==> m in Tickets(s', g) && Tickets(s', g)[m] == Tickets(s, g)[m]
    ensures forall m :: Configured(s, g, m, federation) ==> Configured(s', g, m, federation)
    ensures ManagerOf(s, g).plans <= ManagerOf(s', g).plans
  {
    hide Inv, Grows, HasSet;
    forall m | m in Tickets(s, g) ensures m in Tickets(s', g) && Tickets(s', g)[m] == Tickets(s, g)[m] {
      InvHasClaims(s);
      InvHasClaims(s');
      TicketsKept(s, s', g, m);
    }
  }

  /** The manager's own entry for the machine's config is this config, whole. */
  predicate HoldsConfig(s: State, g: ManagerId, m: MachineId, config: MachineConfig) {
    var slot := Slot(Manager(g), ConfigKey);
    slot in ReplicaOf(s, g, m) && ReplicaOf(s, g, m)[slot].value == ConfigValue(config)
  }

  /** It was, in some state of the run from the n-th on. */
  ghost predicate HeldSince(trace: seq<State>, n: nat, g: ManagerId, m: MachineId, config: MachineConfig) {
    exists i: nat :: n <= i + 1 && i < |trace| && HoldsConfig(trace[i], g, m, config)
  }

  lemma HeldLater(trace: seq<State>, trace': seq<State>, n: nat, n': nat, g: ManagerId, config: MachineConfig)
    requires trace <= trace' && n <= n'
    ensures forall m :: HeldSince(trace, n', g, m, config) ==> HeldSince(trace', n, g, m, config)
  {
    hide HoldsConfig;
    forall m | HeldSince(trace, n', g, m, config) ensures HeldSince(trace', n, g, m, config) {
      var i: nat :| n' <= i + 1 && i < |trace| && HoldsConfig(trace[i], g, m, config);
      assert HoldsConfig(trace'[i], g, m, config);
    }
  }

  /** What the code has done itself from one point on: write this config, once to each of these machines. */
  ghost predicate OnlyWritesTo(
    before: seq<Step>, after: seq<Step>, g: ManagerId, config: MachineConfig, wrote: set<MachineId>)
  {
    && before <= after && |after| == |before| + |wrote|
    && (forall i :: |before| <= i < |after| ==>
          after[i].WriteConfig? && after[i].g == g && after[i].config == config && after[i].m in wrote)
    && (forall i, j :: |before| <= i < j < |after| ==>
          !after[i].WriteConfig? || !after[j].WriteConfig? || after[i].m != after[j].m)
  }

  lemma WritesOneMore(
    a: seq<Step>, b: seq<Step>, c: seq<Step>, g: ManagerId, config: MachineConfig, wrote: set<MachineId>, m: MachineId)
    requires OnlyWritesTo(a, b, g, config, wrote) && OnlyWritesTo(b, c, g, config, {m}) && m !in wrote
    ensures OnlyWritesTo(a, c, g, config, wrote + {m})
  {
  }

  lemma WritesNothingYet(mine: seq<Step>, g: ManagerId, config: MachineConfig)
    ensures OnlyWritesTo(mine, mine, g, config, {})
  {
  }

  lemma WritesNoMore(
    a: seq<Step>, b: seq<Step>, c: seq<Step>, g: ManagerId, config: MachineConfig, wrote: set<MachineId>)
    requires OnlyWritesTo(a, b, g, config, wrote) && OnlyWritesTo(b, c, g, config, {})
    ensures OnlyWritesTo(a, c, g, config, wrote)
  {
  }

  lemma ConfigWritten(s: State, g: ManagerId, m: MachineId, config: MachineConfig, ts: nat)
    requires Enabled(s, WriteConfig(g, m, config, ts))
    ensures
      var s' := Apply(s, WriteConfig(g, m, config, ts));
      && Configured(s', g, m, config.invite.federation) && HoldsConfig(s', g, m, config)
      && Tickets(s', g) == Tickets(s, g)
      && ManagerOf(s', g) == ManagerOf(s, g)
      && (forall doc :: HasSet(s, g, doc, config.invite.federation) ==> HasSet(s', g, doc, config.invite.federation))
  {
  }

  /** One awaited call, during which other passes towards the same federation may run. */
  method AwaitCall(rt: Runtime, g: ManagerId, federation: Hash, w: World) returns (outcome: Outcome)
    requires rt.Valid()
    modifies rt
    ensures rt.Valid() && old(rt.trace) <= rt.trace && (Clean(w) ==> outcome == Fine)
      && Claims.Inv(rt.st.claims) && EntriesOk(rt.st)
    ensures forall m :: m in Tickets(old(rt.st), g) ==> m in Tickets(rt.st, g)
    ensures forall m :: Configured(old(rt.st), g, m, federation) ==> Configured(rt.st, g, m, federation)
    ensures old(ManagerOf(rt.st, g).plans) <= ManagerOf(rt.st, g).plans
    ensures rt.mine == old(rt.mine)
  {
    rt.Await(Configuring(g, federation), w);
    rt.HasGrown();
    ConfiguredKept(old(rt.st), rt.st, g, federation);
    InvParts(rt.st);
    outcome := w.outcome(rt.tick - 1);
  }

  lemma WritesOne(mine: seq<Step>, g: ManagerId, m: MachineId, config: MachineConfig, ts: nat)
    ensures OnlyWritesTo(mine, mine + [WriteConfig(g, m, config, ts)], g, config, {m})
  {
  }

  /** `set_machine_config`: await the write, which may fail. */
  method SetMachineConfig(rt: Runtime, g: ManagerId, m: MachineId, config: MachineConfig, w: World)
    returns (wrote: bool)
    requires rt.Valid() && m in Tickets(rt.st, g) && config in ManagerOf(rt.st, g).plans
    modifies rt
    ensures rt.Valid() && old(rt.trace) <= rt.trace
    ensures forall n :: n in Tickets(old(rt.st), g) ==> n in Tickets(rt.st, g)
    ensures forall n :: Configured(old(rt.st), g, n, config.invite.federation) ==>
      Configured(rt.st, g, n, config.invite.federation)
    ensures config in ManagerOf(rt.st, g).plans && (Clean(w) ==> wrote)
    ensures wrote ==> HoldsConfig(rt.st, g, m, config) && Configured(rt.st, g, m, config.invite.federation)
    ensures OnlyWritesTo(old(rt.mine), rt.mine, g, config, if wrote then {m} else {})
  {
    hide Inv, EntriesOk, Claims.Inv, HoldsConfig, OnlyWritesTo, LinkedAt;
    wrote := false;
    WritesNothingYet(rt.mine, g, config);
    var outcome := AwaitCall(rt, g, config.invite.federation, w);
    if outcome == Fine {
      var ts := Stamp(ReplicaOf(rt.st, g, m), Slot(Manager(g), ConfigKey), w.clock(rt.tick));
      ConfigWritten(rt.st, g, m, config, ts);
      WritesOne(rt.mine, g, m, config, ts);
      rt.Perform(WriteConfig(g, m, config, ts));
      wrote := true;
    }
  }

  /** One turn of the loop: read the machine's config and write the new one when the machine has none
      or one for another federation. Of the config that is there, only the federation counts. */
  method UpdateMachine(rt: Runtime, g: ManagerId, m: MachineId, config: MachineConfig, w: World) returns (wrote: bool)
    requires rt.Valid() && m in Tickets(rt.st, g) && config in ManagerOf(rt.st, g).plans
    modifies rt
    ensures rt.Valid() && old(rt.trace) <= rt.trace
    ensures forall n :: n in Tickets(old(rt.st), g) ==> n in Tickets(rt.st, g)
    ensures forall n :: Configured(old(rt.st), g, n, config.invite.federation) ==>
      Configured(rt.st, g, n, config.invite.federation)
    ensures config in ManagerOf(rt.st, g).plans
    ensures Clean(w) ==> Configured(rt.st, g, m, config.invite.federation)
    ensures wrote ==> !Configured(old(rt.st), g, m, config.invite.federation)
    ensures wrote ==> HeldSince(rt.trace, |old(rt.trace)|, g, m, config)
    ensures OnlyWritesTo(old(rt.mine), rt.mine, g, config, if wrote then {m} else {})
  {
    hide Inv, EntriesOk, Claims.Inv, HoldsConfig, Configured, OnlyWritesTo, LinkedAt;
    var federation := config.invite.federation;
    wrote := false;
    WritesNothingYet(rt.mine, g, config);
    var outcome := AwaitCall(rt, g, federation, w);
    if outcome != Fine {
      return;
    }
    ReadsBackWhatItSet(rt.st, g, m, federation);
    var cfg := ConfigFor(rt.st, g, m);
    var needsUpdate := cfg.None? || cfg.value.invite.federation != federation;
    if needsUpdate {
      wrote := SetMachineConfig(rt, g, m, config, w);
      assert HoldsConfig(rt.trace[|rt.trace| - 1], g, m, config) || !wrote;
    }
  }

  lemma PlanningKeeps(s: State, g: ManagerId)
    requires Enabled(s, PlanConfig(g))
    ensures
      var s' := Apply(s, PlanConfig(g));
      && s'.claims == s.claims && s'.replicas == s.replicas
      && ManagerOf(s', g).plans == ManagerOf(s, g).plans + {PlannedConfig(g, ManagerOf(s, g).disk.default.value)}
      && forall n, f :: Configured(s', g, n, f) <==> Configured(s, g, n, f)
  {
  }

  /** What a pass plans in this state. How much later than the default the client is looked up makes no
      difference, see `LaterLookupAgrees`. */
  function Planned(s: State, g: ManagerId): Option<MachineConfig> {
    var default := ManagerOf(s, g).disk.default;
    if default.Some? && default.value.federation in ManagerClients(s, g)
    then Some(PlannedConfig(g, default.value)) else None
  }

  /** A default has a directory. */
  lemma {:induction false} DefaultHasDir(limits: Limits, trace: seq<State>, i: nat, g: ManagerId)
    requires IsRun(limits, trace) && i < |trace|
    ensures
      var d := ManagerOf(trace[i], g).disk;
      d.default.Some? ==> d.default.value.federation in d.dirs
    decreases i
  {
    hide Apply, Enabled, ListedItem;
    if i > 0 {
      DefaultHasDir(limits, trace, i - 1, g);
      assert LinkedAt(limits, trace, i - 1);
      var step :| Enabled(trace[i - 1], step) && trace[i] == Apply(trace[i - 1], step);
      StepOnManager(trace[i - 1], step, g);
    }
  }

  /** While the manager is up, whether the default of a moment has a client does not change after that
      moment. */
  lemma LaterLookupAgrees(limits: Limits, trace: seq<State>, i: nat, s': State, g: ManagerId)
    requires IsRun(limits, trace) && i < |trace| && ManagerOf(trace[i], g).disk.default.Some?
    requires PassKept(Serving(g), trace[i], s')
    ensures
      var f := ManagerOf(trace[i], g).disk.default.value.federation;
      f in ManagerClients(s', g) <==> f in ManagerClients(trace[i], g)
  {
    DefaultHasDir(limits, trace, i, g);
  }

  lemma PlanningEnabled(s: State, g: ManagerId)
    requires Planned(s, g).Some?
    ensures Enabled(s, PlanConfig(g)) && Planned(s, g) == Some(PlannedConfig(g, ManagerOf(s, g).disk.default.value))
  {
  }

  /** `update_machine_configs`: the pass waits for the directory lock, and works with the default that it
      reads then. When nothing fails, every machine listed gets that federation; and a machine that has it
      already is never written to, so a further pass over the same machines writes nothing. */
  method UpdateMachineConfigs(rt: Runtime, g: ManagerId, w: World)
    returns (planned: Option<MachineConfig>, wrote: set<MachineId>, ghost read: nat)
    requires rt.Valid()
    modifies rt
    ensures rt.Valid() && old(rt.trace) <= rt.trace && |old(rt.trace)| <= read <= |rt.trace|
    ensures PassKept(Serving(g), old(rt.st), rt.trace[read - 1])
    ensures planned.Some? || Clean(w) ==> planned == Planned(rt.trace[read - 1], g)
    ensures
      planned.Some? && Clean(w) ==>
        forall m :: m in Tickets(old(rt.st), g) ==> Configured(rt.st, g, m, planned.value.invite.federation)
    ensures
      planned.Some? ==>
        forall m :: m in wrote ==>
          && m in Tickets(rt.st, g) && !Configured(rt.trace[read - 1], g, m, planned.value.invite.federation)
          && HeldSince(rt.trace, read, g, m, planned.value)
    ensures planned.None? ==> wrote == {} && rt.mine == old(rt.mine)
    ensures planned.Some? ==> OnlyWritesTo(old(rt.mine) + [PlanConfig(g)], rt.mine, g, planned.value, wrote)
  {
    hide OnlyWritesTo;
    hide Apply, Enabled, Inv, Grows, HasSet, Configured, Planned, PassKept, EntriesOk, Claims.Inv, LinkedAt, HeldSince;
    planned, wrote := None, {};
    rt.Await(Serving(g), w);
    rt.HasGrown();
    StillListed(old(rt.st), rt.st, g);
    read := |rt.trace|;
    ghost var s := rt.st;
    var outcome := w.outcome(rt.tick - 1);
    var found := Planned(rt.st, g);
    if outcome != Fine || found.None? {
      return;
    }
    planned := found;
    PlanningEnabled(rt.st, g);
    PlanningKeeps(rt.st, g);
    rt.Perform(PlanConfig(g));
    ghost var n := |rt.trace|;
    wrote := UpdateAllListed(rt, g, planned.value, w);
    HeldLater(rt.trace, rt.trace, read, n, g, planned.value);
    assert rt.trace[read - 1] == s;
  }

  lemma StillListed(s: State, s': State, g: ManagerId)
    requires Inv(s) && Inv(s') && Grows(s, s')
    ensures forall m :: m in Tickets(s, g) ==> m in Tickets(s', g)
  {
    hide Inv, Grows;
    InvHasClaims(s);
    InvHasClaims(s');
    forall m | m in Tickets(s, g) ensures m in Tickets(s', g) {
      TicketsKept(s, s', g, m);
    }
  }

  /** List the machines, and update them in any order. */
  method UpdateAllListed(rt: Runtime, g: ManagerId, config: MachineConfig, w: World) returns (wrote: set<MachineId>)
    requires rt.Valid() && config in ManagerOf(rt.st, g).plans
    modifies rt
    ensures rt.Valid() && old(rt.trace) <= rt.trace
    ensures
      Clean(w) ==> forall m :: m in Tickets(old(rt.st), g) ==> Configured(rt.st, g, m, config.invite.federation)
    ensures
      forall m :: m in wrote ==> m in Tickets(rt.st, g) && !Configured(old(rt.st), g, m, config.invite.federation)
    ensures forall m :: m in wrote ==> HeldSince(rt.trace, |old(rt.trace)|, g, m, config)
    ensures OnlyWritesTo(old(rt.mine), rt.mine, g, config, wrote)
  {
    hide Apply, Enabled, HasSet, EntriesOk, Claims.Inv;
    wrote := {};
    var outcome := AwaitCall(rt, g, config.invite.federation, w);
    if outcome == Fine {
      ghost var n := |rt.trace|;
      wrote := UpdateListed(rt, g, Tickets(rt.st, g).Keys, config, w);
      HeldLater(rt.trace, rt.trace, |old(rt.trace)|, n, g, config);
    }
  }

  method UpdateListed(rt: Runtime, g: ManagerId, machines: set<MachineId>, config: MachineConfig, w: World)
    returns (wrote: set<MachineId>)
    requires rt.Valid() && config in ManagerOf(rt.st, g).plans && machines <= Tickets(rt.st, g).Keys
    modifies rt
    ensures rt.Valid() && old(rt.trace) <= rt.trace
    ensures Clean(w) ==> forall m :: m in machines ==> Configured(rt.st, g, m, config.invite.federation)
    ensures forall m :: m in wrote ==> m in machines && !Configured(old(rt.st), g, m, config.invite.federation)
    ensures machines <= Tickets(rt.st, g).Keys
    ensures forall m :: m in wrote ==> HeldSince(rt.trace, |old(rt.trace)|, g, m, config)
    ensures OnlyWritesTo(old(rt.mine), rt.mine, g, config, wrote)
  {
    hide Apply, Enabled, HasSet, HeldSince, LinkedAt, OnlyWritesTo;
    wrote := {};
    WritesNothingYet(rt.mine, g, config);
    var todo := machines;
    while todo != {}
      invariant rt.Valid() && old(rt.trace) <= rt.trace && config in ManagerOf(rt.st, g).plans
      invariant todo <= machines && machines <= Tickets(rt.st, g).Keys
      invariant forall m :: Configured(old(rt.st), g, m, config.invite.federation) ==>
        Configured(rt.st, g, m, config.invite.federation)
      invariant Clean(w) ==> forall m :: m in machines - todo ==> Configured(rt.st, g, m, config.invite.federation)
      invariant forall m :: m in wrote ==> m in machines && !Configured(old(rt.st), g, m, config.invite.federation)
      invariant forall m :: m in wrote ==> HeldSince(rt.trace, |old(rt.trace)|, g, m, config)
      invariant OnlyWritesTo(old(rt.mine), rt.mine, g, config, wrote) && wrote !! todo
      decreases |todo|
    {
      var m :| m in todo;
      todo := todo - {m};
      ghost var trace, mine := rt.trace, rt.mine;
      var updated := UpdateMachine(rt, g, m, config, w);
      HeldLater(trace, rt.trace, |old(rt.trace)|, |old(rt.trace)|, g, config);
      HeldLater(rt.trace, rt.trace, |old(rt.trace)|, |trace|, g, config);
      if updated {
        WritesOneMore(old(rt.mine), mine, rt.mine, g, config, wrote, m);
        wrote := wrote + {m};
      } else {
        WritesNoMore(old(rt.mine), mine, rt.mine, g, config, wrote);
      }
    }
  }

  /** Some call makes this the default in that step of the run. */
  ghost predicate SetsDefault(s: State, s': State, g: ManagerId, invite: Invite) {
    exists join, written ::
      var step := ManagerSetsDefault(g, invite, join, written);
      Enabled(s, step) && s' == Apply(s, step) && ManagerOf(s', g).disk.default == Some(invite)
  }

  lemma SettingDefault(s: State, g: ManagerId, invite: Invite, join: WalletDisk.Join, written: bool)
    requires ManagerOf(s, g).running
    ensures Enabled(s, ManagerSetsDefault(g, invite, join, written))
    ensures
      var s' := Apply(s, ManagerSetsDefault(g, invite, join, written));
      var f, d, d' := invite.federation, ManagerOf(s, g).disk, ManagerOf(s', g).disk;
      if WalletDisk.SetSucceeds(d, invite, join, written) then
        SetsDefault(s, s', g, invite) && f in d'.dirs && (f in d'.clients <==> !WalletDisk.Stuck(d, f))
      else d'.default == d.default
  {
  }

  lemma SetDefaultIs(s: State, s': State, g: ManagerId, invite: Invite)
    requires SetsDefault(s, s', g, invite)
    ensures ManagerOf(s', g).disk.default == Some(invite)
  {
  }

  /** `set_default_federation` in the call: it waits for the directory lock, and may fail. */
  method MakeDefault(rt: Runtime, g: ManagerId, invite: Invite, w: World) returns (ok: bool, ghost locked: nat)
    requires rt.Valid() && ManagerOf(rt.st, g).running
    modifies rt
    ensures rt.Valid() && old(rt.trace) <= rt.trace && |old(rt.trace)| <= locked < |rt.trace| == locked + 1
    ensures exists join, written :: rt.mine == old(rt.mine) + [ManagerSetsDefault(g, invite, join, written)]
    ensures Clean(w) ==> ok
    ensures
      if ok then SetsDefault(rt.trace[locked - 1], rt.st, g, invite)
      else ManagerOf(rt.st, g).disk.default == ManagerOf(rt.trace[locked - 1], g).disk.default
    ensures
      ok ==>
        var f, d := invite.federation, ManagerOf(rt.st, g).disk;
        f in d.dirs && (f in d.clients <==> !WalletDisk.Stuck(ManagerOf(rt.trace[locked - 1], g).disk, f))
  {
    hide Apply, Enabled, Inv, SetsDefault, LinkedAt, WalletDisk.AfterSet;
    rt.Await(Serving(g), w);
    locked := |rt.trace|;
    var join, written := w.join(rt.tick - 1), w.outcome(rt.tick - 1) == Fine;
    ok := WalletDisk.SetSucceeds(ManagerOf(rt.st, g).disk, invite, join, written);
    SettingDefault(rt.st, g, invite, join, written);
    rt.Perform(ManagerSetsDefault(g, invite, join, written));
  }

  /** From the call's own write of the default to the read of it by its pass. */
  lemma PlansTheInvite(s: State, s': State, g: ManagerId, invite: Invite)
    requires invite.federation in ManagerOf(s, g).disk.dirs && PassKept(Serving(g), s, s')
    ensures
      Planned(s', g) == Some(PlannedConfig(g, invite)) <==>
        ManagerOf(s', g).disk.default == Some(invite) && invite.federation in ManagerClients(s, g)
  {
  }

  /** Some call makes this the default between the i-th and the j-th state. */
  ghost predicate SetBetween(trace: seq<State>, i: nat, j: nat, g: ManagerId, invite: Invite) {
    exists k :: i <= k < j < |trace| && SetsDefault(trace[k], trace[k + 1], g, invite)
  }

  ghost predicate OtherSetBetween(trace: seq<State>, i: nat, j: nat, g: ManagerId, invite: Invite) {
    exists other :: other != invite && SetBetween(trace, i, j, g, other)
  }

  lemma StepSetsDefault(s: State, step: Step, g: ManagerId)
    requires Enabled(s, step)
    ensures
      var before, after := ManagerOf(s, g).disk.default, ManagerOf(Apply(s, step), g).disk.default;
      after == before || (after.Some? && SetsDefault(s, Apply(s, step), g, after.value))
  {
    hide Apply, Enabled, ListedItem;
    StepOnManager(s, step, g);
  }

  /** A default that is no longer there was replaced by a call. */
  lemma {:induction false} DefaultIsSet(limits: Limits, trace: seq<State>, i: nat, j: nat, g: ManagerId)
    requires IsRun(limits, trace) && i <= j < |trace|
    ensures
      var before, after := ManagerOf(trace[i], g).disk.default, ManagerOf(trace[j], g).disk.default;
      after == before || (after.Some? && SetBetween(trace, i, j, g, after.value))
    decreases j
  {
    hide Apply, Enabled, SetsDefault;
    if i < j {
      DefaultIsSet(limits, trace, i, j - 1, g);
      assert LinkedAt(limits, trace, j - 1);
      var step :| Enabled(trace[j - 1], step) && trace[j] == Apply(trace[j - 1], step);
      StepSetsDefault(trace[j - 1], step, g);
      assert forall other ::
          SetsDefault(trace[j - 1], trace[j - 1 + 1], g, other) ==> SetBetween(trace, i, j, g, other);
    }
  }

  /** `update_federation` of a running manager: wait for the directory lock, join the federation and make it
      the default, let the lock go, then run one pass at once. The pass works with whatever default it finds
      when it has the lock again. When nothing fails, the call succeeds, and every machine listed gets the
      federation that the pass planned; it planned the one that was asked for exactly when that is still the
      default and had a client before or no directory. So there are two ways for a call to succeed and
      configure something else, or nothing: another call set another default in between, or an earlier
      first join had broken off. */
  method UpdateFederation(rt: Runtime, g: ManagerId, invite: Invite, w: World)
    returns (ok: bool, planned: Option<MachineConfig>, wrote: set<MachineId>, ghost locked: nat, ghost read: nat)
    requires rt.Valid() && ManagerOf(rt.st, g).running
    modifies rt
    ensures rt.Valid() && old(rt.trace) <= rt.trace && |old(rt.trace)| <= locked < read <= |rt.trace|
    ensures Clean(w) ==> ok
    ensures
      if ok then SetsDefault(rt.trace[locked - 1], rt.trace[locked], g, invite)
      else ManagerOf(rt.trace[locked], g).disk.default == ManagerOf(rt.trace[locked - 1], g).disk.default
    ensures planned.Some? || Clean(w) ==> planned == Planned(rt.trace[read - 1], g)
    ensures
      Clean(w) ==>
        (planned == Some(PlannedConfig(g, invite)) <==>
           && ManagerOf(rt.trace[read - 1], g).disk.default == Some(invite)
           && !WalletDisk.Stuck(ManagerOf(rt.trace[locked - 1], g).disk, invite.federation))
    ensures
      ok ==>
        || ManagerOf(rt.trace[read - 1], g).disk.default == Some(invite)
        || OtherSetBetween(rt.trace, locked, read - 1, g, invite)
    ensures
      planned.Some? && Clean(w) ==>
        forall m :: m in Tickets(old(rt.st), g) ==> Configured(rt.st, g, m, planned.value.invite.federation)
    ensures
      planned.Some? ==>
        forall m :: m in wrote ==>
          && !Configured(rt.trace[read - 1], g, m, planned.value.invite.federation)
          && HeldSince(rt.trace, read, g, m, planned.value)
    ensures planned.None? ==> wrote == {}
    ensures !ok ==> planned.None?
    ensures
      exists join, written ::
        var mine := old(rt.mine) + [ManagerSetsDefault(g, invite, join, written)];
        if planned.None? then rt.mine == mine
        else OnlyWritesTo(mine + [PlanConfig(g)], rt.mine, g, planned.value, wrote)
  {
    hide OnlyWritesTo;
    hide Inv, Grows, LinkedAt, Configured, HeldSince, SetBetween, Planned, SetsDefault, WalletDisk.Stuck, PassKept;
    planned, wrote := None, {};
    ok, locked := MakeDefault(rt, g, invite, w);
    rt.HasGrown();
    StillListed(old(rt.st), rt.st, g);
    ghost var s := rt.st;
    read := |rt.trace|;
    if ok {
      planned, wrote, read := UpdateMachineConfigs(rt, g, w);
      PlansTheInvite(s, rt.trace[read - 1], g, invite);
      DefaultIsSet(rt.limits, rt.trace, locked, read - 1, g);
      SetDefaultIs(rt.trace[locked - 1], s, g, invite);
    }
  }

  lemma WriteReplaces(s: State, step: Step, g: ManagerId, m: MachineId, federation: Hash)
    requires Claims.Inv(s.claims) && step.WriteConfig? && step.g == g && Enabled(s, step)
    requires Configured(s, g, m, federation)
    ensures
      Configured(Apply(s, step), g, m, federation) <==> step.m != m || step.config.invite.federation == federation
  {
    hide Claims.Inv, Claims.Apply, Claims.Enabled, Visible;
    TicketFacts(s, m, g);
    TicketFacts(s, step.m, g);
  }

  lemma OtherStepsKeepConfigured(s: State, step: Step, g: ManagerId, m: MachineId, federation: Hash)
    requires Inv(s) && Enabled(s, step) && !(step.WriteConfig? && step.g == g) && Configured(s, g, m, federation)
    ensures Configured(Apply(s, step), g, m, federation)
  {
    hide Apply, Enabled, Inv, HasSet;
    InvParts(s);
    OnlyConfiguringResets(g, federation, s, step, Tickets(s, g)[m]);
    StepKeepsInv(s, step);
    InvParts(Apply(s, step));
    TicketsKept(s, Apply(s, step), g, m);
  }

  /** A machine keeps its configured federation through every step but one: a pass of its own manager
      that still works with another default and writes it. Passes over the old default can do that to
      a machine that was already moved on; when they are gone, nothing can. */
  lemma LostOnlyToStalePasses(s: State, step: Step, g: ManagerId, m: MachineId, federation: Hash)
    requires Inv(s) && Enabled(s, step) && Configured(s, g, m, federation)
    ensures
      Configured(Apply(s, step), g, m, federation) <==>
        !(step.WriteConfig? && step.g == g && step.m == m && step.config.invite.federation != federation)
  {
    hide Apply, Enabled, Inv, HasSet;
    if step.WriteConfig? && step.g == g {
      InvParts(s);
      WriteReplaces(s, step, g, m, federation);
    } else {
      OtherStepsKeepConfigured(s, step, g, m, federation);
    }
  }

  // ---------------------------------------------------------------------------------------------
  // What the machine sees
  // ---------------------------------------------------------------------------------------------

  function ConfigSlot(s: State, m: MachineId): Slot
    requires ClaimedMachine(s, m).disk.Some?
  {
    Slot(Manager(ClaimedMachine(s, m).disk.value), ConfigKey)
  }

  /** The machine sees exactly the owner's entry in its own replica. */
  lemma SeesOwnersConfig(s: State, m: MachineId)
    requires Claims.Inv(s.claims) && EntriesOk(s)
    ensures
      var r := OwnReplica(s, m);
      SeenConfig(s, m).Some? <==> ClaimedMachine(s, m).disk.Some? && ConfigSlot(s, m) in r
    ensures
      var r := OwnReplica(s, m);
      SeenConfig(s, m).Some? ==> r[ConfigSlot(s, m)].value == ConfigValue(SeenConfig(s, m).value)
  {
    TicketFacts(s, m, 0);
    if ClaimedMachine(s, m).ticket.Some? {
      var doc := ClaimedMachine(s, m).ticket.value;
      if ClaimedMachine(s, m).disk.Some? {
        ShowsOwnersConfig(s, Machine(m), doc, m, ClaimedMachine(s, m).disk.value);
      } else if LatestSlot(Rep(s, Machine(m), doc), ConfigKey).Some? {
        OnlyOwnerSets(s, Machine(m), doc, m, LatestSlot(Rep(s, Machine(m), doc), ConfigKey).value);
      }
    }
  }

  /** The manager's write order is the order of the stamps: each write is stamped later than every copy
      of an earlier one, in whatever replica. */
  lemma WritesAreStampedInOrder(s: State, g: ManagerId, m: MachineId, config: MachineConfig, ts: nat, d: Device)
    requires Inv(s) && Enabled(s, WriteConfig(g, m, config, ts))
    ensures
      var r, slot := Rep(s, d, Tickets(s, g)[m]), Slot(Manager(g), ConfigKey);
      slot in r ==> r[slot].ts < ts
  {
    var doc, slot := Tickets(s, g)[m], Slot(Manager(g), ConfigKey);
    assert slot in Rep(s, d, doc) ==> NotAhead(s, doc, slot, Rep(s, d, doc)[slot]);
  }

  /** A config once seen by a machine is only ever replaced by one that the owner wrote later: in the
      owner's write order the machine never moves back, whatever is synced from wherever. */
  lemma ConfigNeverMovesBack(s: State, steps: seq<Step>, m: MachineId)
    requires Inv(s) && Legal(s, steps) && SeenConfig(s, m).Some?
    ensures
      var s' := Run(s, steps);
      && SeenConfig(s', m).Some? && ClaimedMachine(s, m).disk.Some?
      && ClaimedMachine(s', m).disk == ClaimedMachine(s, m).disk
      && ConfigSlot(s, m) in OwnReplica(s, m) && ConfigSlot(s, m) in OwnReplica(s', m)
      && OwnReplica(s, m)[ConfigSlot(s, m)].ts <= OwnReplica(s', m)[ConfigSlot(s, m)].ts
      && (SeenConfig(s', m) != SeenConfig(s, m) ==>
            OwnReplica(s, m)[ConfigSlot(s, m)].ts < OwnReplica(s', m)[ConfigSlot(s, m)].ts)
  {
    hide Apply, Enabled;
    var s' := Run(s, steps);
    RunKeepsInv(s, steps);
    ConfigAdvances(s, s', m);
  }

  lemma ConfigAdvances(s: State, s': State, m: MachineId)
    requires Inv(s) && Inv(s') && Grows(s, s') && SeenConfig(s, m).Some?
    ensures
      && SeenConfig(s', m).Some? && ClaimedMachine(s, m).disk.Some?
      && ClaimedMachine(s', m).disk == ClaimedMachine(s, m).disk
      && ConfigSlot(s, m) in OwnReplica(s, m) && ConfigSlot(s, m) in OwnReplica(s', m)
      && OwnReplica(s, m)[ConfigSlot(s, m)].ts <= OwnReplica(s', m)[ConfigSlot(s, m)].ts
      && (SeenConfig(s', m) != SeenConfig(s, m) ==>
            OwnReplica(s, m)[ConfigSlot(s, m)].ts < OwnReplica(s', m)[ConfigSlot(s, m)].ts)
  {
    hide LatestSlot;
    SeesOwnersConfig(s, m);
    SeesOwnersConfig(s', m);
    OwnerKept(s, s', m);
    var doc := ClaimedMachine(s, m).ticket.value;
    assert SlotGrows(Rep(s, Machine(m), doc), Rep(s', Machine(m), doc), ConfigSlot(s, m));
  }

  /** Delivering the owner's config entry is all it takes: the machine then sees the federation that its
      manager set, so a converged manager converges its machines. */
  lemma ConfigArrives(s: State, g: ManagerId, m: MachineId, federation: Hash)
    requires Inv(s) && Configured(s, g, m, federation)
    ensures
      var step := Sync(Manager(g), Machine(m), Tickets(s, g)[m], Slot(Manager(g), ConfigKey));
      Enabled(s, step)
      && var s' := Apply(s, step);
         SeenConfig(s', m).Some? && SeenConfig(s', m).value.invite.federation == federation
  {
    hide Inv, Visible, Apply, Enabled, ClocksOk, EntriesOk, LedgerOk, MachinesOk, ManagersOk, Claims.Inv;
    InvParts(s);
    TicketFacts(s, m, g);
    var doc, slot := Tickets(s, g)[m], Slot(Manager(g), ConfigKey);
    var step := Sync(Manager(g), Machine(m), doc, slot);
    SyncIs(s, Manager(g), Machine(m), doc, slot);
    var s' := Apply(s, step);
    OwnEntryDelivered(s, Machine(m), doc, slot);
    StepKeepsInv(s, step);
    InvParts(s');
    SeesOwnersConfig(s', m);
  }
}
