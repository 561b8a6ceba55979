/** The machine's syncer pass as it is coded. */
module MachineSyncer {
  import opened Types
  import opened Docs
  import opened Vending
  import opened VendingInvariant
  import opened Runtimes
  import Claims
  import WalletDisk

  /** What a handing pass never touches: the wallet's clients and their directories. */
  predicate SameDisk(s: State, s': State, m: MachineId) {
    MachineOf(s', m).disk == MachineOf(s, m).disk && MachineOf(s', m).running == MachineOf(s, m).running
  }

  /** What the code has done itself from one point on: fetch, write payments that it moved, and remove exactly
      those. */
  ghost predicate OnlyHands(
    before: seq<Step>, after: seq<Step>, m: MachineId, config: MachineConfig, moved: set<PayId>)
  {
    before <= after && forall i :: |before| <= i < |after| ==> IsHanding(after[i], m, config, moved)
  }

  predicate IsHanding(step: Step, m: MachineId, config: MachineConfig, moved: set<PayId>) {
    || step == FetchBatch(m, config) || step == RemovePayments(m, moved)
    || (step.WritePayment? && step.m == m && step.pay in moved)
  }

  ghost predicate OnlyWrites(before: seq<Step>, after: seq<Step>, m: MachineId, moved: set<PayId>) {
    before <= after &&
    forall i :: |before| <= i < |after| ==> after[i].WritePayment? && after[i].m == m && after[i].pay in moved
  }

  /** The machine's own entry for the payment is this contract. */
  predicate HoldsPayment(s: State, m: MachineId, pay: PayId, c: Contract) {
    var slot := Slot(Machine(m), ContractKey(pay));
    slot in OwnReplica(s, m) && OwnReplica(s, m)[slot].value == ContractValue(c)
  }

  /** It was, in some state of the run from the n-th on. */
  ghost predicate PutSince(trace: seq<State>, n: nat, m: MachineId, pay: PayId, c: Contract) {
    exists i: nat :: n <= i + 1 && i < |trace| && HoldsPayment(trace[i], m, pay, c)
  }

  ghost predicate AllPutSince(
    trace: seq<State>, n: nat, m: MachineId, pays: set<PayId>, contracts: map<PayId, Contract>)
  {
    forall pay :: pay in pays ==> pay in contracts && PutSince(trace, n, m, pay, contracts[pay])
  }

  lemma PutLater(
    trace: seq<State>, trace': seq<State>, n: nat, m: MachineId, pays: set<PayId>, contracts: map<PayId, Contract>)
    requires trace <= trace' && AllPutSince(trace, n, m, pays, contracts)
    ensures AllPutSince(trace', n, m, pays, contracts)
  {
    hide HoldsPayment;
    forall pay | pay in pays ensures PutSince(trace', n, m, pay, contracts[pay]) {
      var i: nat :| n <= i + 1 && i < |trace| && HoldsPayment(trace[i], m, pay, contracts[pay]);
      assert HoldsPayment(trace'[i], m, pay, contracts[pay]);
    }
  }

  /** What a pass selects in this state: nothing while the wallet has no client. */
  function Selected(s: State, m: MachineId, config: MachineConfig): set<PayId> {
    if config.invite.federation in MachineClients(s, m) then Claimable(MachineOf(s, m).wallet, config).Keys else {}
  }

  /** A contract of this federation that pays this key. */
  predicate IsFor(wallet: map<PayId, Contract>, pay: PayId, config: MachineConfig) {
    && pay in wallet && pay.federation == config.invite.federation && wallet[pay].claimPk == config.claimerPk
  }

  lemma SelectedAreFor(s: State, m: MachineId, config: MachineConfig)
    ensures
      forall pay :: pay in Selected(s, m, config) <==>
        config.invite.federation in MachineClients(s, m) && IsFor(MachineOf(s, m).wallet, pay, config)
  {
  }

  /** The wallet's `get_claimable_contracts`: it waits for the clients, and selects from the wallet as it
      is then. */
  method FetchClaimable(rt: Runtime, m: MachineId, config: MachineConfig, w: World)
    returns (claimable: set<PayId>, ghost fetched: nat)
    requires rt.Valid() && config in MachineOf(rt.st, m).seen && ClaimedMachine(rt.st, m).ticket.Some?
    modifies rt
    ensures rt.Valid() && old(rt.trace) <= rt.trace && ClaimedMachine(rt.st, m).ticket.Some?
    ensures |old(rt.trace)| <= fetched <= |rt.trace| && SameDisk(old(rt.st), rt.trace[fetched - 1], m)
    ensures claimable == Selected(rt.trace[fetched - 1], m, config)
    ensures
      old(MachineOf(rt.st, m).wallet.Keys) <= MachineOf(rt.trace[fetched - 1], m).wallet.Keys &&
      MachineOf(rt.trace[fetched - 1], m).wallet == MachineOf(rt.st, m).wallet
    ensures SameDisk(old(rt.st), rt.st, m)
    ensures
      config.invite.federation in MachineClients(old(rt.st), m) ==>
        && MachineOf(rt.st, m).batch == Claimable(MachineOf(rt.trace[fetched - 1], m).wallet, config)
        && MachineOf(rt.st, m).batch.Keys == claimable && MachineOf(rt.st, m).written == {}
    ensures config.invite.federation !in MachineClients(old(rt.st), m) ==> claimable == {}
    ensures rt.mine == old(rt.mine) || rt.mine == old(rt.mine) + [FetchBatch(m, config)]
  {
    claimable := {};
    rt.Await(Handing(m), w);
    rt.TicketKept(m);
    fetched := |rt.trace|;
    if config.invite.federation in MachineClients(rt.st, m) {
      rt.Perform(FetchBatch(m, config));
      claimable := MachineOf(rt.st, m).batch.Keys;
    }
  }

  lemma WritingKeeps(s: State, m: MachineId, pay: PayId, ts: nat)
    requires Enabled(s, WritePayment(m, pay, ts))
    ensures
      var s' := Apply(s, WritePayment(m, pay, ts));
      var d, d' := MachineOf(s, m), MachineOf(s', m);
      && d'.batch == d.batch && d'.written == d.written + {pay} && d'.wallet == d.wallet && SameDisk(s, s', m)
      && s'.claims == s.claims && HoldsPayment(s', m, pay, d.batch[pay])
  {
  }

  /** `write_payment_to_machine_doc`: await the write, which may fail. */
  method TryWrite(rt: Runtime, m: MachineId, pay: PayId, w: World) returns (ok: bool)
    requires rt.Valid() && pay in MachineOf(rt.st, m).batch && ClaimedMachine(rt.st, m).ticket.Some?
    modifies rt
    ensures rt.Valid() && old(rt.trace) <= rt.trace && ClaimedMachine(rt.st, m).ticket.Some?
    ensures MachineOf(rt.st, m).batch == old(MachineOf(rt.st, m).batch) && SameDisk(old(rt.st), rt.st, m)
    ensures MachineOf(rt.st, m).written == old(MachineOf(rt.st, m).written) + if ok then {pay} else {}
    ensures old(MachineOf(rt.st, m).wallet.Keys) <= MachineOf(rt.st, m).wallet.Keys
    ensures ok ==> PutSince(rt.trace, |old(rt.trace)|, m, pay, old(MachineOf(rt.st, m).batch[pay]))
    ensures OnlyWrites(old(rt.mine), rt.mine, m, if ok then {pay} else {})
    ensures Clean(w) ==> ok
  {
    hide Apply, HoldsPayment, LinkedAt;
    rt.Await(Handing(m), w);
    rt.TicketKept(m);
    ok := w.outcome(rt.tick - 1) == Fine;
    if ok {
      var slot := Slot(Machine(m), ContractKey(pay));
      var ts := Stamp(OwnReplica(rt.st, m), slot, w.clock(rt.tick - 1));
      WritingKeeps(rt.st, m, pay, ts);
      rt.Perform(WritePayment(m, pay, ts));
      assert HoldsPayment(rt.trace[|rt.trace| - 1], m, pay, MachineOf(rt.st, m).batch[pay]);
    }
  }

  lemma RemovingRemoves(s: State, m: MachineId, pays: set<PayId>)
    requires Inv(s) && pays <= MachineOf(s, m).written
    ensures Enabled(s, RemovePayments(m, pays))
    ensures
      var s' := Apply(s, RemovePayments(m, pays));
      && MachineOf(s', m).wallet == MachineOf(s, m).wallet - pays && SameDisk(s, s', m)
      && forall pay :: pay in pays ==> Wrote(s', m, pay)
  {
    assert VendingInvariant.MachineOk(s, m, MachineOf(s, m));
  }

  /** `remove_claimed_contracts`, for payments that this pass has written. */
  method RemoveWritten(rt: Runtime, m: MachineId, pays: set<PayId>, w: World)
    requires rt.Valid() && pays <= MachineOf(rt.st, m).written
    modifies rt
    ensures rt.Valid() && old(rt.trace) <= rt.trace && SameDisk(old(rt.st), rt.st, m)
    ensures old(MachineOf(rt.st, m).wallet.Keys) - pays <= MachineOf(rt.st, m).wallet.Keys
    ensures forall pay :: pay in pays ==> Wrote(rt.st, m, pay) && pay !in MachineOf(rt.st, m).wallet
    ensures rt.mine == old(rt.mine) + [RemovePayments(m, pays)]
  {
    hide Inv, Apply, Enabled, Wrote;
    rt.Await(Handing(m), w);
    rt.IsOk();
    RemovingRemoves(rt.st, m, pays);
    rt.Perform(RemovePayments(m, pays));
  }

  /** Write the fetched payments in any order; `moved` collects those that were accepted. */
  method WriteBatch(rt: Runtime, m: MachineId, claimable: set<PayId>, w: World) returns (moved: set<PayId>)
    requires rt.Valid() && ClaimedMachine(rt.st, m).ticket.Some?
    requires claimable != {} ==> claimable <= MachineOf(rt.st, m).batch.Keys && MachineOf(rt.st, m).written == {}
    modifies rt
    ensures rt.Valid() && old(rt.trace) <= rt.trace && SameDisk(old(rt.st), rt.st, m)
    ensures moved <= claimable && (Clean(w) ==> moved == claimable)
    ensures claimable != {} ==> MachineOf(rt.st, m).written == moved
    ensures old(MachineOf(rt.st, m).wallet.Keys) <= MachineOf(rt.st, m).wallet.Keys
    ensures AllPutSince(rt.trace, |old(rt.trace)|, m, moved, old(MachineOf(rt.st, m).batch))
    ensures OnlyWrites(old(rt.mine), rt.mine, m, moved)
  {
    hide LinkedAt, PutSince, AllPutSince, OnlyWrites, Clean;
    NothingPut(rt.trace, |rt.trace|, m, MachineOf(rt.st, m).batch);
    NothingWritten(rt.mine, m);
    moved := {};
    var todo := claimable;
    while todo != {}
      invariant rt.Valid() && old(rt.trace) <= rt.trace && ClaimedMachine(rt.st, m).ticket.Some?
      invariant
        claimable != {} ==> claimable <= MachineOf(rt.st, m).batch.Keys && MachineOf(rt.st, m).written == moved
      invariant old(MachineOf(rt.st, m).wallet.Keys) <= MachineOf(rt.st, m).wallet.Keys
      invariant SameDisk(old(rt.st), rt.st, m) && todo <= claimable && moved <= claimable - todo
      invariant claimable != {} ==> MachineOf(rt.st, m).batch == old(MachineOf(rt.st, m).batch)
      invariant AllPutSince(rt.trace, |old(rt.trace)|, m, moved, old(MachineOf(rt.st, m).batch))
      invariant OnlyWrites(old(rt.mine), rt.mine, m, moved)
      invariant Clean(w) ==> moved == claimable - todo
      decreases |todo|
    {
      var pay :| pay in todo;
      todo := todo - {pay};
      ghost var trace, mine, batch := rt.trace, rt.mine, old(MachineOf(rt.st, m).batch);
      var ok := TryWrite(rt, m, pay, w);
      PutOneMore(trace, rt.trace, |old(rt.trace)|, m, moved, if ok then {pay} else {}, batch);
      WritesInTurn(old(rt.mine), mine, rt.mine, m, moved, if ok then {pay} else {});
      moved := moved + if ok then {pay} else {};
    }
  }

  lemma PutOneMore(
    trace: seq<State>, trace': seq<State>, n: nat, m: MachineId, moved: set<PayId>, more: set<PayId>,
    contracts: map<PayId, Contract>)
    requires trace <= trace' && n <= |trace| && AllPutSince(trace, n, m, moved, contracts)
    requires forall pay :: pay in more ==> pay in contracts && PutSince(trace', |trace|, m, pay, contracts[pay])
    ensures AllPutSince(trace', n, m, moved + more, contracts)
  {
    hide PutSince;
    PutLater(trace, trace', n, m, moved, contracts);
    forall pay | pay in more ensures PutSince(trace', n, m, pay, contracts[pay]) {
      PutFromEarlier(trace', n, |trace|, m, pay, contracts);
    }
  }

  lemma WritesInTurn(
    a: seq<Step>, b: seq<Step>, c: seq<Step>, m: MachineId, moved: set<PayId>, more: set<PayId>)
    requires OnlyWrites(a, b, m, moved) && OnlyWrites(b, c, m, more)
    ensures OnlyWrites(a, c, m, moved + more)
  {
  }

  lemma NothingWritten(mine: seq<Step>, m: MachineId)
    ensures OnlyWrites(mine, mine, m, {})
  {
  }

  lemma PutFromEarlier(
    trace: seq<State>, n: nat, n': nat, m: MachineId, pay: PayId, contracts: map<PayId, Contract>)
    requires n <= n'
    ensures
      pay in contracts && PutSince(trace, n', m, pay, contracts[pay]) ==> PutSince(trace, n, m, pay, contracts[pay])
  {
    hide HoldsPayment;
  }

  /** `make_completed_payments_syncable`. Returns the payments it handed over: of those selected at the fetch
      all that were accepted, so all of them when nothing fails. */
  method MakeCompletedPaymentsSyncable(rt: Runtime, m: MachineId, config: MachineConfig, w: World)
    returns (moved: set<PayId>, ghost fetched: nat)
    requires rt.Valid() && config in MachineOf(rt.st, m).seen && ClaimedMachine(rt.st, m).ticket.Some?
    modifies rt
    ensures rt.Valid() && old(rt.trace) <= rt.trace && SameDisk(old(rt.st), rt.st, m)
    ensures |old(rt.trace)| <= fetched <= |rt.trace| && SameDisk(old(rt.st), rt.trace[fetched - 1], m)
    ensures moved <= Selected(rt.trace[fetched - 1], m, config)
    ensures forall pay :: pay in moved ==> IsFor(MachineOf(rt.trace[fetched - 1], m).wallet, pay, config)
    ensures Clean(w) ==> moved == Selected(rt.trace[fetched - 1], m, config)
    ensures forall pay :: pay in moved ==> Wrote(rt.st, m, pay) && pay !in MachineOf(rt.st, m).wallet
    ensures old(MachineOf(rt.st, m).wallet.Keys) <= MachineOf(rt.trace[fetched - 1], m).wallet.Keys
    ensures MachineOf(rt.trace[fetched - 1], m).wallet.Keys - moved <= MachineOf(rt.st, m).wallet.Keys
    ensures AllPutSince(rt.trace, fetched, m, moved, MachineOf(rt.trace[fetched - 1], m).wallet)
    ensures OnlyHands(old(rt.mine), rt.mine, m, config, moved)
  {
    hide PutSince, IsHanding, AllPutSince, OnlyWrites, OnlyHands;
    hide Wrote, Selected, Claimable, LinkedAt, IsFor;
    // 1. Fetch the completed payments that the manager could sweep.
    var claimable;
    claimable, fetched := FetchClaimable(rt, m, config, w);
    ghost var at, n, batch, mine := rt.trace[fetched - 1], |rt.trace|, MachineOf(rt.st, m).batch, rt.mine;
    // 2. Write them to the doc that this machine shares with the manager.
    moved := WriteBatch(rt, m, claimable, w);
    ghost var trace, written := rt.trace, rt.mine;
    // 3. Remove the transferred ones from the wallet.
    if moved != {} {
      RemoveWritten(rt, m, moved, w);
    }
    assert rt.trace[fetched - 1] == at;
    SelectedAreFor(at, m, config);
    HandsInTurn(old(rt.mine), mine, written, rt.mine, m, config, moved);
    if moved == {} {
      NothingPut(rt.trace, fetched, m, MachineOf(at, m).wallet);
    } else {
      PutFromWallet(trace, rt.trace, n, fetched, m, config, moved, MachineOf(at, m).wallet);
    }
  }

  lemma HandsInTurn(
    a: seq<Step>, b: seq<Step>, c: seq<Step>, d: seq<Step>, m: MachineId, config: MachineConfig, moved: set<PayId>)
    requires b == a || b == a + [FetchBatch(m, config)]
    requires OnlyWrites(b, c, m, moved)
    requires d == c || d == c + [RemovePayments(m, moved)]
    ensures OnlyHands(a, d, m, config, moved)
  {
  }

  lemma NothingPut(trace: seq<State>, n: nat, m: MachineId, contracts: map<PayId, Contract>)
    ensures AllPutSince(trace, n, m, {}, contracts)
  {
  }

  lemma PutFromWallet(
    trace: seq<State>, trace': seq<State>, n: nat, fetched: nat, m: MachineId, config: MachineConfig,
    moved: set<PayId>, wallet: map<PayId, Contract>)
    requires trace <= trace' && fetched <= n && AllPutSince(trace, n, m, moved, Claimable(wallet, config))
    ensures AllPutSince(trace', fetched, m, moved, wallet)
  {
    hide PutSince;
    PutLater(trace, trace', n, m, moved, Claimable(wallet, config));
    forall pay | pay in moved ensures PutSince(trace', fetched, m, pay, wallet[pay]) {
      PutFromEarlier(trace', fetched, n, m, pay, wallet);
    }
  }

  /** What a config selects is still selected later: a wallet loses nothing to others, and a contract
      that is paid again keeps its claim key. */
  lemma ClaimableKept(s: State, s': State, m: MachineId, config: MachineConfig)
    requires MachinesOk(s) && MachinesOk(s') && LedgerGrows(s, s')
    requires MachineOf(s, m).wallet.Keys <= MachineOf(s', m).wallet.Keys
    ensures Claimable(MachineOf(s, m).wallet, config).Keys <= Claimable(MachineOf(s', m).wallet, config).Keys
  {
    assert VendingInvariant.MachineOk(s, m, MachineOf(s, m)) && VendingInvariant.MachineOk(s', m, MachineOf(s', m));
    forall pay | pay in Claimable(MachineOf(s, m).wallet, config)
      ensures pay in Claimable(MachineOf(s', m).wallet, config)
    {
      assert PaymentOk(s, m, pay, MachineOf(s, m).wallet[pay]) && PaymentOk(s', m, pay, MachineOf(s', m).wallet[pay]);
    }
  }

  /** A wallet that is up has a client for each contract in it. */
  lemma WalletIsConnected(s: State, m: MachineId, pay: PayId)
    requires Inv(s) && pay in MachineOf(s, m).wallet && MachineOf(s, m).running
    ensures pay.federation in MachineClients(s, m)
  {
    assert VendingInvariant.MachineOk(s, m, MachineOf(s, m));
    assert PaymentOk(s, m, pay, MachineOf(s, m).wallet[pay]) && TermsOk(s, pay, s.ledger[pay]);
  }

  lemma SettingKeeps(s: State, m: MachineId, config: MachineConfig, join: WalletDisk.Join, written: bool)
    requires Enabled(s, MachineSetsDefault(m, config, join, written))
    ensures
      var s' := Apply(s, MachineSetsDefault(m, config, join, written));
      var d := MachineOf(s, m);
      && MachineOf(s', m) == d.(disk := WalletDisk.AfterSet(d.disk, config.invite, join, written))
      && s'.claims == s.claims && s'.replicas == s.replicas
  {
  }

  /** `set_default_federation` in the syncer: the join is awaited, and may break off. */
  method JoinConfigured(rt: Runtime, m: MachineId, config: MachineConfig, w: World) returns (ok: bool)
    requires rt.Valid() && config in MachineOf(rt.st, m).seen && MachineOf(rt.st, m).running
    requires ClaimedMachine(rt.st, m).ticket.Some?
    modifies rt
    ensures rt.Valid() && old(rt.trace) <= rt.trace
    ensures config in MachineOf(rt.st, m).seen && MachineOf(rt.st, m).running && ClaimedMachine(rt.st, m).ticket.Some?
    ensures old(MachineOf(rt.st, m).wallet.Keys) <= MachineOf(rt.st, m).wallet.Keys
    ensures Clean(w) ==> ok
    ensures
      exists join, written :: rt.mine == old(rt.mine) + [MachineSetsDefault(m, config, join, written)]
    ensures
      ok ==> (config.invite.federation in MachineClients(rt.st, m) <==>
                !WalletDisk.Stuck(old(MachineOf(rt.st, m)).disk, config.invite.federation))
  {
    hide Apply;
    rt.Await(Handing(m), w);
    rt.TicketKept(m);
    var join, written := w.join(rt.tick - 1), w.outcome(rt.tick - 1) == Fine;
    ok := WalletDisk.SetSucceeds(MachineOf(rt.st, m).disk, config.invite, join, written);
    SettingKeeps(rt.st, m, config, join, written);
    rt.Perform(MachineSetsDefault(m, config, join, written));
  }

  lemma ReadingKeeps(s: State, m: MachineId)
    requires Enabled(s, ReadConfig(m))
    ensures
      var s' := Apply(s, ReadConfig(m));
      var d := MachineOf(s, m);
      && MachineOf(s', m) == d.(seen := d.seen + {SeenConfig(s, m).value})
      && s'.claims == s.claims && s'.ledger == s.ledger
  {
  }

  lemma ClaimedHasTicket(s: State, m: MachineId)
    requires SeenConfig(s, m).Some?
    ensures ClaimedMachine(s, m).ticket.Some?
  {
    assert LatestSlot(map[], ConfigKey).None?;
  }

  /** What the syncer itself does in a turn over this config: read it, join, and hand over. */
  ghost predicate OnlyTakesTurn(
    before: seq<Step>, after: seq<Step>, m: MachineId, config: MachineConfig, moved: set<PayId>)
  {
    before <= after && forall i :: |before| <= i < |after| ==>
      || after[i] == ReadConfig(m) || IsHanding(after[i], m, config, moved)
      || (after[i].MachineSetsDefault? && after[i].m == m && after[i].config == config)
  }

  lemma TurnInTurn(a: seq<Step>, b: seq<Step>, c: seq<Step>, m: MachineId, config: MachineConfig, moved: set<PayId>)
    requires exists join, written :: b == a + [MachineSetsDefault(m, config, join, written)]
    requires (c == b && moved == {}) || OnlyHands(b, c, m, config, moved)
    ensures OnlyTakesTurn(a, c, m, config, moved)
  {
  }

  lemma ReadingBegins(a: seq<Step>, b: seq<Step>, m: MachineId, config: MachineConfig, moved: set<PayId>)
    requires OnlyTakesTurn(a + [ReadConfig(m)], b, m, config, moved)
    ensures OnlyTakesTurn(a, b, m, config, moved)
  {
  }

  /** The turn, once a config has been read. */
  method JoinAndHandOver(rt: Runtime, m: MachineId, config: MachineConfig, w: World) returns (moved: set<PayId>)
    requires rt.Valid() && config in MachineOf(rt.st, m).seen && MachineOf(rt.st, m).running
    requires ClaimedMachine(rt.st, m).ticket.Some?
    modifies rt
    ensures rt.Valid() && old(rt.trace) <= rt.trace
    ensures forall pay :: pay in moved ==> Wrote(rt.st, m, pay) && pay !in MachineOf(rt.st, m).wallet
    ensures old(MachineOf(rt.st, m).wallet.Keys) - moved <= MachineOf(rt.st, m).wallet.Keys
    ensures forall pay :: pay in moved ==> pay.federation == config.invite.federation
    ensures OnlyTakesTurn(old(rt.mine), rt.mine, m, config, moved)
    ensures
      Clean(w) ==>
        var stuck := WalletDisk.Stuck(old(MachineOf(rt.st, m)).disk, config.invite.federation);
        && Claimable(old(MachineOf(rt.st, m)).wallet, config).Keys <= moved
        && (config.invite.federation in MachineClients(rt.st, m) <==> !stuck)
        && (stuck ==> moved == {})
  {
    hide Inv, Wrote, Grows, Claimable, Selected, WalletDisk.Stuck, OnlyHands, OnlyTakesTurn, AllPutSince, LinkedAt;
    moved := {};
    ghost var n0 := |rt.trace|;
    var joined := JoinConfigured(rt, m, config, w);
    ghost var mine := rt.mine;
    if !joined {
      TurnInTurn(old(rt.mine), mine, mine, m, config, {});
      return;
    }
    ghost var fetched;
    moved, fetched := MakeCompletedPaymentsSyncable(rt, m, config, w);
    rt.GrownBetween(n0, fetched);
    StillSelected(old(rt.st), rt.trace[fetched - 1], m, config);
    TurnInTurn(old(rt.mine), mine, rt.mine, m, config, moved);
  }

  /** One turn of the syncer loop of a running machine: when it is claimed and sees a config, it joins the
      federation and hands over. When nothing fails, all that its wallet holds for the config is moved;
      and the machine ends up with a client of the federation exactly when it had one before, or had no
      directory for it. After a first join that broke off and left its directory behind, no later turn
      gets it a client, although every call succeeds. */
  method SyncerTurn(rt: Runtime, m: MachineId, w: World) returns (moved: set<PayId>)
    requires rt.Valid() && MachineOf(rt.st, m).running
    modifies rt
    ensures rt.Valid() && old(rt.trace) <= rt.trace
    ensures forall pay :: pay in moved ==> Wrote(rt.st, m, pay) && pay !in MachineOf(rt.st, m).wallet
    ensures old(MachineOf(rt.st, m).wallet.Keys) - moved <= MachineOf(rt.st, m).wallet.Keys
    ensures
      moved != {} ==>
        && SeenConfig(old(rt.st), m).Some?
        && forall pay :: pay in moved ==> pay.federation == SeenConfig(old(rt.st), m).value.invite.federation
    ensures
      if SeenConfig(old(rt.st), m).None? || ClaimedMachine(old(rt.st), m).mem.None? then rt.mine == old(rt.mine)
      else OnlyTakesTurn(old(rt.mine), rt.mine, m, SeenConfig(old(rt.st), m).value, moved)
    ensures
      Clean(w) && ClaimedMachine(old(rt.st), m).mem.Some? && SeenConfig(old(rt.st), m).Some? ==>
        var config := SeenConfig(old(rt.st), m).value;
        var stuck := WalletDisk.Stuck(old(MachineOf(rt.st, m)).disk, config.invite.federation);
        && Claimable(old(MachineOf(rt.st, m)).wallet, config).Keys <= moved
        && (config.invite.federation in MachineClients(rt.st, m) <==> !stuck)
        && (stuck ==> moved == {})
  {
    hide Wrote, SeenConfig, Claimable, WalletDisk.Stuck, Apply, OnlyTakesTurn, LinkedAt;
    moved := {};
    var seen := SeenConfig(rt.st, m);
    if ClaimedMachine(rt.st, m).mem.None? || seen.None? {
      return;
    }
    ClaimedHasTicket(rt.st, m);
    ReadingKeeps(rt.st, m);
    rt.Perform(ReadConfig(m));
    moved := JoinAndHandOver(rt, m, seen.value, w);
    ReadingBegins(old(rt.mine), rt.mine, m, seen.value, moved);
  }

  lemma StillSelected(s: State, s': State, m: MachineId, config: MachineConfig)
    requires Inv(s) && Inv(s') && Grows(s, s') && MachineOf(s', m).running
    requires MachineOf(s, m).wallet.Keys <= MachineOf(s', m).wallet.Keys
    ensures Claimable(MachineOf(s, m).wallet, config).Keys <= Selected(s', m, config)
    ensures forall pay :: pay in Selected(s', m, config) ==> pay.federation == config.invite.federation
    ensures config.invite.federation !in MachineClients(s', m) ==> Selected(s', m, config) == {}
  {
    ClaimableKept(s, s', m, config);
    forall pay | pay in Claimable(MachineOf(s', m).wallet, config) ensures pay.federation in MachineClients(s', m) {
      WalletIsConnected(s', m, pay);
    }
  }

  // ---------------------------------------------------------------------------------------------
  // Requests
  // ---------------------------------------------------------------------------------------------

  datatype Receipt = Invoiced(pay: PayId) | NotClaimed | NotConfigured | StateFailed | WalletFailed

  lemma RequestPaysOwner(s: State, s': State, m: MachineId, pay: PayId)
    requires Inv(s') && Grows(s, s') && ClaimedMachine(s, m).disk.Some? && pay in s'.ledger
    requires s'.ledger[pay].issuer == m
    ensures s'.ledger[pay].claimPk == ClaimKey(ClaimedMachine(s, m).disk.value, pay.federation)
  {
    OwnerKept(s, s', m);
    assert TermsOk(s', pay, s'.ledger[pay]);
  }

  lemma ClaimedOnDisk(s: State, m: MachineId)
    requires Inv(s) && ClaimedMachine(s, m).mem.Some?
    ensures ClaimedMachine(s, m).disk == ClaimedMachine(s, m).mem
  {
    assert m in s.claims.machines && Claims.MachineOk(s.claims, m, s.claims.machines[m]);
  }

  lemma ReadingEnabled(s: State, m: MachineId)
    requires ClaimedMachine(s, m).mem.Some? && SeenConfig(s, m).Some?
    ensures Enabled(s, ReadConfig(m))
  {
  }

  /** Whether the wallet can ask depends on the client that there was when the config was read, and on the
      contract id. */
  lemma RequestEnabled(
    s: State, s1: State, s2: State, m: MachineId, config: MachineConfig, contract: Hash, amount: nat)
    requires config in MachineOf(s1, m).seen && MachineOf(s1, m).disk == MachineOf(s, m).disk
    requires PassKept(Requesting(m), s1, s2)
    ensures
      var f, step := config.invite.federation, Request(m, config, contract, amount);
      && (f in MachineClients(s, m) ==> (Enabled(s2, step) <==> PayId(f, contract) !in s2.ledger))
      && (WalletDisk.Stuck(MachineOf(s, m).disk, f) ==> !Enabled(s2, step))
  {
  }

  /** `receive_payment`, beside the machine's own syncer. What it answers depends on the machine's state at one
      moment of the call: only a machine that is claimed and sees a config then asks for an invoice, in the
      federation of that config, and the contract of the invoice pays the machine's owner. When nothing
      fails, a machine with a client of that federation gets the invoice for every contract id that is not
      in use; after a first join that broke off it never does. */
  method ReceivePayment(rt: Runtime, m: MachineId, contract: Hash, amount: nat, w: World)
    returns (receipt: Receipt, ghost read: nat)
    requires rt.Valid()
    modifies rt
    ensures rt.Valid() && old(rt.trace) <= rt.trace && |old(rt.trace)| <= read <= |rt.trace|
    ensures
      var s := rt.trace[read - 1];
      && (receipt == NotClaimed <==> ClaimedMachine(s, m).mem.None?)
      && (receipt == NotConfigured ==> SeenConfig(s, m).None?)
      && (ClaimedMachine(s, m).mem.Some? && SeenConfig(s, m).None? ==> receipt in {NotConfigured, StateFailed})
      && (Clean(w) ==> receipt != StateFailed)
    ensures
      receipt.Invoiced? ==>
        var s := rt.trace[read - 1];
        && SeenConfig(s, m).Some?
        && receipt.pay == PayId(SeenConfig(s, m).value.invite.federation, contract)
        && receipt.pay in rt.st.ledger
        && rt.st.ledger[receipt.pay] ==
             Terms(m, ClaimKey(ClaimedMachine(s, m).mem.value, receipt.pay.federation), amount)
    ensures
      var s := rt.trace[read - 1];
      SeenConfig(s, m).Some? && ClaimedMachine(s, m).mem.Some? ==>
        var pay := PayId(SeenConfig(s, m).value.invite.federation, contract);
        && (Clean(w) && pay.federation in MachineClients(s, m) ==>
              receipt == Invoiced(pay) || (receipt == WalletFailed && pay in rt.st.ledger))
        && (WalletDisk.Stuck(MachineOf(s, m).disk, pay.federation) ==> !receipt.Invoiced?)
    ensures !receipt.Invoiced? && !receipt.WalletFailed? ==> read == |rt.trace|
    ensures
      rt.mine == old(rt.mine) +
        match receipt
        case Invoiced(_) => [ReadConfig(m), Request(m, SeenConfig(rt.trace[read - 1], m).value, contract, amount)]
        case WalletFailed => [ReadConfig(m)]
        case _ => []
  {
    hide Inv, Grows, LinkedAt, Apply, Enabled, SeenConfig, WalletDisk.Stuck, PassKept;
    rt.Await(Requesting(m), w);
    read := |rt.trace|;
    ghost var s := rt.st;
    if ClaimedMachine(rt.st, m).mem.None? {
      return NotClaimed, read;
    }
    if w.outcome(rt.tick - 1) != Fine {
      return StateFailed, read;
    }
    var seen := SeenConfig(rt.st, m);
    if seen.None? {
      return NotConfigured, read;
    }
    rt.IsOk();
    ClaimedOnDisk(rt.st, m);
    ReadingEnabled(rt.st, m);
    ReadingKeeps(rt.st, m);
    rt.Perform(ReadConfig(m));
    ghost var s1 := rt.st;
    rt.Await(Requesting(m), w);
    RequestEnabled(s, s1, rt.st, m, seen.value, contract, amount);
    var step := Request(m, seen.value, contract, amount);
    if w.outcome(rt.tick - 1) != Fine || !Enabled(rt.st, step) {
      assert rt.trace[read - 1] == s;
      return WalletFailed, read;
    }
    receipt := Ask(rt, read, m, step);
  }

  method Ask(rt: Runtime, ghost read: nat, m: MachineId, step: Step) returns (receipt: Receipt)
    requires rt.Valid() && 0 < read <= |rt.trace| && step.Request? && step.m == m && Enabled(rt.st, step)
    requires ClaimedMachine(rt.trace[read - 1], m).disk.Some?
    modifies rt
    ensures rt.Valid() && old(rt.trace) <= rt.trace
    ensures receipt == Invoiced(PayId(step.config.invite.federation, step.contract))
    ensures rt.mine == old(rt.mine) + [step]
    ensures
      && receipt.pay in rt.st.ledger
      && rt.st.ledger[receipt.pay] ==
           Terms(m, ClaimKey(ClaimedMachine(rt.trace[read - 1], m).disk.value, receipt.pay.federation), step.amount)
  {
    hide Inv, Grows, LinkedAt;
    receipt := Invoiced(PayId(step.config.invite.federation, step.contract));
    rt.Perform(step);
    rt.GrownSince(read);
    RequestPaysOwner(rt.trace[read - 1], rt.st, m, receipt.pay);
  }
}
