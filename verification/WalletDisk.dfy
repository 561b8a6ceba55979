/** The wallet's client map, and the directories and the file on disk that it has to agree with. */
module WalletDisk {
  import opened Types

  /** `dirs` are the federation directories, each with whether its database was ever initialized;
      `default` is the content of the default-federation file. */
  datatype State = State(dirs: map<Hash, bool>, clients: set<Hash>, default: Option<Invite>)

  const FRESH := State(map[], {}, None)

  /** How joining a federation for the first time ends. */
  datatype Join =
    | NotOpened(leavesDir: bool)      // the database did not open; its directory may be left behind
    | NotJoined(initialized: bool)    // it opened, but no client could be built
    | Joined

  /** `set_default_federation`, and whether it succeeds; `written` says whether the file write does. */
  function AfterSet(s: State, invite: Invite, join: Join, written: bool): State {
    var f := invite.federation;
    if f in s.dirs then
      if written then s.(default := Some(invite)) else s
    else
      match join
      case NotOpened(leavesDir) => if leavesDir then s.(dirs := s.dirs[f := false]) else s
      case NotJoined(initialized) => s.(dirs := s.dirs[f := initialized])
      case Joined =>
        var s' := s.(dirs := s.dirs[f := true], clients := s.clients + {f});
        if written then s'.(default := Some(invite)) else s'
  }

  predicate SetSucceeds(s: State, invite: Invite, join: Join, written: bool) {
    written && (invite.federation in s.dirs || join.Joined?)
  }

  /** There is a directory, so nobody joins again, and no client. */
  predicate Stuck(s: State, f: Hash) {
    f in s.dirs && f !in s.clients
  }

  predicate AllInitialized(s: State) {
    forall f :: f in s.dirs ==> s.dirs[f]
  }

  /** Only an initialized database has a client. */
  predicate ClientsOk(s: State) {
    forall f :: f in s.clients ==> f in s.dirs && s.dirs[f]
  }

  /** This federation was joined once; so it has a client whenever the wallet is up. */
  predicate HasJoined(s: State, running: bool, f: Hash) {
    f in s.dirs && s.dirs[f] && (running ==> f in s.clients)
  }

  /** A restart that gets through has a client for each directory. */
  function AfterRestart(s: State): State {
    s.(clients := s.dirs.Keys)
  }

  /** A directory whose client opens at a restart. */
  predicate Reopens(s: State, f: Hash, opens: Hash -> bool) {
    f in s.dirs && s.dirs[f] && opens(f)
  }

  class Wallet {
    var dirs: map<Hash, bool>
    var clients: set<Hash>
    var default: Option<Invite>

    ghost function Contents(): State
      reads this
    {
      State(dirs, clients, default)
    }

    /** The process starts over what an earlier one left on disk, with no client yet. */
    constructor (disk: State)
      ensures Contents() == disk.(clients := {})
    {
      dirs, clients, default := disk.dirs, {}, disk.default;
    }

    /** `connect_to_joined_federations`: open a client for each directory, in any order; the first
        failure ends it. */
    method ConnectToJoinedFederations(opens: Hash -> bool) returns (ok: bool)
      modifies this
      ensures dirs == old(dirs) && default == old(default)
      ensures ok <==> forall f :: f in dirs && f !in old(clients) ==> Reopens(Contents(), f, opens)
      ensures ok ==> clients == old(clients) + dirs.Keys
      ensures old(clients) <= clients <= old(clients) + dirs.Keys
    {
      var todo := dirs.Keys;
      while todo != {}
        invariant dirs == old(dirs) && default == old(default) && todo <= dirs.Keys
        invariant clients == old(clients) + (dirs.Keys - todo)
        invariant forall f :: f in dirs.Keys - todo && f !in old(clients) ==> Reopens(Contents(), f, opens)
        decreases |todo|
      {
        var f :| f in todo;
        if f !in clients {
          if !dirs[f] || !opens(f) {
            return false;
          }
          clients := clients + {f};
        }
        todo := todo - {f};
      }
      ok := true;
    }

    /** `set_default_federation`: an existing directory is taken for a connected federation. Success means
        that the default is recorded, and a failure keeps the old one; the clients grow by nothing but a
        federation joined now; no other directory is touched, and an existing one not at all. */
    method SetDefaultFederation(invite: Invite, join: Join, written: bool) returns (ok: bool)
      modifies this
      ensures ok <==> written && (invite.federation in old(dirs) || join.Joined?)
      ensures default == if ok then Some(invite) else old(default)
      ensures old(clients) <= clients <= old(clients) + {invite.federation}
      ensures invite.federation in clients && invite.federation !in old(clients) ==> join.Joined?
      ensures ok ==> invite.federation in dirs
      ensures ok ==> (invite.federation in clients <==> !Stuck(old(Contents()), invite.federation))
      ensures forall f :: f in old(dirs) ==> f in dirs && dirs[f] == old(dirs)[f]
      ensures forall f :: f in dirs && f !in old(dirs) ==> f == invite.federation && join != NotOpened(false)
      ensures Contents() == AfterSet(old(Contents()), invite, join, written)
    {
      var f := invite.federation;
      if f !in dirs {
        match join {
          case NotOpened(leavesDir) =>
            if leavesDir {
              dirs := dirs[f := false];
            }
            return false;
          case NotJoined(initialized) =>
            dirs := dirs[f := initialized];
            return false;
          case Joined =>
            dirs := dirs[f := true];
            clients := clients + {f};
        }
      }
      if !written {
        return false;
      }
      default := Some(invite);
      ok := true;
    }
  }

  // ---------------------------------------------------------------------------------------------
  // Agreement
  // ---------------------------------------------------------------------------------------------

  /** Map and disk agree, and the recorded default is connected. */
  predicate Agree(s: State) {
    && s.clients == s.dirs.Keys && (forall f :: f in s.dirs ==> s.dirs[f])
    && (s.default.Some? ==> s.default.value.federation in s.clients)
  }

  /** A first join that fails and leaves its directory behind. */
  predicate LeavesDirBehind(s: State, invite: Invite, join: Join) {
    invite.federation !in s.dirs && (join == NotOpened(true) || join.NotJoined?)
  }

  /** Before the call nobody knows how a join will end. Agreement is safe whatever happens exactly when
      there is a directory already; otherwise some end of the join loses it. */
  lemma SafeExactlyWithDirectory(s: State, invite: Invite)
    requires Agree(s)
    ensures
      (forall join, written :: Agree(AfterSet(s, invite, join, written))) <==> invite.federation in s.dirs
  {
    if invite.federation in s.dirs {
      forall join, written ensures Agree(AfterSet(s, invite, join, written)) {
        LostExactlyByFailedJoins(s, invite, join, written);
      }
    } else {
      LostExactlyByFailedJoins(s, invite, NotOpened(true), true);
    }
  }

  /** After the call: agreement survived exactly when no failed join left a directory behind; and then
      success means that the new default is recorded and connected. */
  lemma LostExactlyByFailedJoins(s: State, invite: Invite, join: Join, written: bool)
    requires Agree(s)
    ensures Agree(AfterSet(s, invite, join, written)) <==> !LeavesDirBehind(s, invite, join)
    ensures
      SetSucceeds(s, invite, join, written) ==>
        var s' := AfterSet(s, invite, join, written);
        && s'.default == Some(invite) && invite.federation in s'.clients
        && s'.clients == s.clients + {invite.federation}
  {
    var s' := AfterSet(s, invite, join, written);
    if LeavesDirBehind(s, invite, join) {
      assert invite.federation in s'.dirs && invite.federation !in s'.clients;
    } else {
      assert s'.clients == s'.dirs.Keys;
    }
  }

  /** What a failed join does: the same call made again succeeds at once and records a default that has
      no client; and as long as the database was never initialized, no restart gets past it. */
  lemma FailedJoinSticks(s: State, invite: Invite, join: Join, again: Join)
    requires Agree(s) && LeavesDirBehind(s, invite, join)
    ensures
      var s1 := AfterSet(s, invite, join, true);
      var s2 := AfterSet(s1, invite, again, true);
      && !SetSucceeds(s, invite, join, true) && SetSucceeds(s1, invite, again, true)
      && s2.default == Some(invite) && invite.federation !in s2.clients
      && (join != NotJoined(true) ==> forall opens :: !Reopens(s2, invite.federation, opens))
  {
  }

  /** Calls of a running wallet, and restarts. */
  datatype Op = Set(invite: Invite, join: Join, written: bool) | Restart(opens: Hash -> bool)

  ghost function ApplyOp(s: State, op: Op): State {
    match op
    case Set(invite, join, written) => AfterSet(s, invite, join, written)
    case Restart(_) => AfterRestart(s)
  }

  /** No join leaves a directory behind, and every restart gets through. */
  ghost predicate GoesWell(s: State, ops: seq<Op>)
    decreases |ops|
  {
    ops == [] ||
    ((match ops[0]
      case Set(invite, join, _) => !LeavesDirBehind(s, invite, join)
      case Restart(opens) => forall f :: f in s.dirs ==> Reopens(s, f, opens))
     && GoesWell(ApplyOp(s, ops[0]), ops[1..]))
  }

  ghost function RunOps(s: State, ops: seq<Op>): State
    decreases |ops|
  {
    if ops == [] then s else RunOps(ApplyOp(s, ops[0]), ops[1..])
  }

  /** Between operations map and disk always agree, and a restart at that point rebuilds exactly the
      same set of clients. */
  lemma {:induction false} AlwaysAgrees(s: State, ops: seq<Op>, opens: Hash -> bool)
    requires Agree(s) && GoesWell(s, ops)
    ensures Agree(RunOps(s, ops)) && ApplyOp(RunOps(s, ops), Restart(opens)) == RunOps(s, ops)
    ensures forall f :: f in RunOps(s, ops).dirs && opens(f) ==> Reopens(RunOps(s, ops), f, opens)
    decreases |ops|
  {
    if ops != [] {
      if ops[0].Set? {
        LostExactlyByFailedJoins(s, ops[0].invite, ops[0].join, ops[0].written);
      }
      AlwaysAgrees(ApplyOp(s, ops[0]), ops[1..], opens);
    }
  }

  /** The code of a restart does what the run takes it to do. */
  method RestartWallet(s: State, opens: Hash -> bool) returns (wallet: Wallet, ok: bool)
    ensures fresh(wallet)
    ensures ok <==> forall f :: f in s.dirs ==> Reopens(s, f, opens)
    ensures ok ==> wallet.Contents() == ApplyOp(s, Restart(opens))
    ensures wallet.dirs == s.dirs && wallet.default == s.default
  {
    wallet := new Wallet(s);
    ok := wallet.ConnectToJoinedFederations(opens);
    assert forall f :: Reopens(wallet.Contents(), f, opens) <==> Reopens(s, f, opens);
  }
}
