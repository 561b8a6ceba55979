/**
 The wallet's locks and its view task, as one interleaved state machine: calls that change the client
 map under the directory mutex and the map's write lock, calls that only read, and the task that
 publishes views and answers force-update requests.
 */
module WalletSync {
  import opened Types

  datatype FederationView = FederationView(name: Option<string>, balance: nat)

  type View = map<Hash, FederationView>

  type CallId = nat

  /** `since` counts the changes of the map when the call dropped its write guard. */
  datatype Call =
    | WantsDir
    | HasDir                 // works on files, or builds a client
    | WantsWrite
    | HasWrite
    | Sending(since: nat)    // its request does not fit into the channel yet
    | Waiting(since: nat)    // for the acknowledgement
    | Told(since: nat, acked: bool)
    | WantsRead
    | HasRead
    | Done

  datatype Task =
    | Resting
    | Woken(caller: Option<CallId>)      // wants the read lock
    | Looking(caller: Option<CallId>)
    | Looked(caller: Option<CallId>, view: View, at: nat)
    | Telling(caller: Option<CallId>)
    | Stopped

  /** `history` are all values the map has had, the current one last; `lastAt` says which of them the
      task saw last, `looks` which ones it has seen so far, and `log` is everything it published. */
  datatype State = State(
    dir: Option<CallId>, writer: Option<CallId>, readers: set<CallId>, queue: seq<CallId>,
    calls: map<CallId, Call>, task: Task,
    history: seq<View>, last: Option<View>, lastAt: nat, looks: seq<nat>, published: View, log: seq<View>)

  const CHANNEL_CAPACITY := 100

  datatype Step =
    | Begin(c: CallId, first: Call)
    | TakeDir(c: CallId)
    | WantWrite(c: CallId)
    | TakeWrite(c: CallId)
    | Insert(c: CallId, view: View)
    | DropGuard(c: CallId)
    | Send(c: CallId)
    | GiveUp(c: CallId)              // the view task is gone: the wait ends without an answer
    | TakeRead(c: CallId)
    | End(c: CallId)                 // return, fail or be aborted: all guards are dropped
    | Drift(view: View)              // balances and names change on their own
    | Wake(forced: bool)
    | Look
    | Snapshot
    | Publish
    | Tell
    | Stop

  const INIT := State(None, None, {}, [], map[], Resting, [map[]], None, 0, [], map[], [])

  function Current(s: State): View
    requires s.history != []
  {
    s.history[|s.history| - 1]
  }

  predicate IsAt(s: State, c: CallId, call: Call) {
    c in s.calls && s.calls[c] == call
  }

  predicate CanSend(s: State, c: CallId) {
    c in s.calls && s.calls[c].Sending? && !s.task.Stopped? && |s.queue| < CHANNEL_CAPACITY
  }

  predicate Enabled(s: State, step: Step) {
    match step
    case Begin(c, first) => c !in s.calls && (first == WantsDir || first == WantsRead)
    case TakeDir(c) => IsAt(s, c, WantsDir) && s.dir.None?
    case WantWrite(c) => IsAt(s, c, HasDir)
    case TakeWrite(c) => IsAt(s, c, WantsWrite) && s.writer.None? && s.readers == {} && !s.task.Looking?
    case Insert(c, _) => IsAt(s, c, HasWrite) && s.history != []
    case DropGuard(c) => IsAt(s, c, HasWrite) && s.history != []
    case Send(c) => CanSend(s, c)
    case GiveUp(c) => c in s.calls && (s.calls[c].Sending? || s.calls[c].Waiting?) && s.task.Stopped?
    case TakeRead(c) => IsAt(s, c, WantsRead) && s.writer.None?
    case End(c) => c in s.calls && !s.calls[c].Done?
    case Drift(_) => true
    case Wake(forced) => s.task.Resting? && (forced ==> s.queue != [])
    case Look => s.task.Woken? && s.writer.None?
    case Snapshot => s.task.Looking? && s.history != []
    case Publish => s.task.Looked?
    case Tell => s.task.Telling?
    case Stop => true
  }

  function Move(s: State, c: CallId, call: Call): State {
    s.(calls := s.calls[c := call])
  }

  /** The decision of the view task: without a last state, the state has changed. */
  predicate HasChanged(last: Option<View>, current: View) {
    last != Some(current)
  }

  /** `keepGuard` is the variant of `force_update_view` that would hold on to the caller's write guard. */
  function Apply(s: State, step: Step, keepGuard: bool): State
    requires Enabled(s, step)
  {
    match step
    case Begin(c, first) => Move(s, c, first)
    case TakeDir(c) => Move(s, c, HasDir).(dir := Some(c))
    case WantWrite(c) => Move(s, c, WantsWrite)
    case TakeWrite(c) => Move(s, c, HasWrite).(writer := Some(c))
    case Insert(_, view) => s.(history := s.history + [view])
    case DropGuard(c) => Move(s, c, Sending(|s.history| - 1)).(writer := if keepGuard then s.writer else None)
    case Send(c) => Move(s, c, Waiting(s.calls[c].since)).(queue := s.queue + [c])
    case GiveUp(c) => Move(s, c, Told(s.calls[c].since, false))
    case TakeRead(c) => Move(s, c, HasRead).(readers := s.readers + {c})
    case End(c) =>
      Move(s, c, Done).(
        dir := if s.dir == Some(c) then None else s.dir,
        writer := if s.writer == Some(c) then None else s.writer,
        readers := s.readers - {c})
    case Drift(view) => s.(history := s.history + [view])
    case Wake(forced) =>
      if forced then s.(task := Woken(Some(s.queue[0])), queue := s.queue[1..]) else s.(task := Woken(None))
    case Look => s.(task := Looking(s.task.caller))
    case Snapshot => s.(task := Looked(s.task.caller, Current(s), |s.history| - 1))
    case Publish =>
      var s' := s.(task := Telling(s.task.caller), lastAt := s.task.at, looks := s.looks + [s.task.at]);
      if HasChanged(s.last, s.task.view)
      then s'.(last := Some(s.task.view), published := s.task.view, log := s.log + [s.task.view])
      else s'
    case Tell =>
      var s' := s.(task := Resting);
      if s.task.caller.Some? && s.task.caller.value in s.calls && s.calls[s.task.caller.value].Waiting?
      then Move(s', s.task.caller.value, Told(s.calls[s.task.caller.value].since, true))
      else s'
    case Stop => s.(task := Stopped)
  }

  predicate Legal(s: State, steps: seq<Step>, keepGuard: bool)
    decreases |steps|
  {
    steps == [] || (Enabled(s, steps[0]) && Legal(Apply(s, steps[0], keepGuard), steps[1..], keepGuard))
  }

  function Run(s: State, steps: seq<Step>, keepGuard: bool): State
    requires Legal(s, steps, keepGuard)
    decreases |steps|
  {
    if steps == [] then s else Run(Apply(s, steps[0], keepGuard), steps[1..], keepGuard)
  }

  // ---------------------------------------------------------------------------------------------
  // The publishing loop on its own
  // ---------------------------------------------------------------------------------------------

  /** A sequence of snapshots without those equal to their predecessor. */
  function Changes<T(==)>(views: seq<T>): seq<T> {
    if views == [] then []
    else
      var n := |views| - 1;
      if n > 0 && views[n - 1] == views[n] then Changes(views[..n]) else Changes(views[..n]) + [views[n]]
  }

  lemma {:induction false} ChangesFacts<T>(views: seq<T>)
    requires views != []
    ensures Changes(views) != [] && Changes(views)[|Changes(views)| - 1] == views[|views| - 1]
    ensures forall i :: 0 < i < |Changes(views)| ==> Changes(views)[i - 1] != Changes(views)[i]
    ensures forall v :: v in Changes(views) <==> v in views
    decreases |views|
  {
    var n := |views| - 1;
    if n > 0 {
      ChangesFacts(views[..n]);
      assert views == views[..n] + [views[n]];
    }
  }

  /** Fed these snapshots, the loop sends exactly their changes. */
  method PublishChanges(snapshots: seq<View>) returns (sent: seq<View>)
    ensures sent == Changes(snapshots)
  {
    var last: Option<View> := None;
    sent := [];
    for i := 0 to |snapshots|
      invariant sent == Changes(snapshots[..i])
      invariant last == if i == 0 then None else Some(snapshots[i - 1])
    {
      var current := snapshots[i];
      assert snapshots[..i + 1][..i] == snapshots[..i];
      if HasChanged(last, current) {
        last := Some(current);
        sent := sent + [current];
      }
    }
    assert snapshots[..|snapshots|] == snapshots;
  }

  // ---------------------------------------------------------------------------------------------
  // Freshness
  // ---------------------------------------------------------------------------------------------

  /** The call has put its request into the channel. */
  predicate Asked(s: State, c: CallId) {
    c in s.calls && (s.calls[c].Waiting? || s.calls[c].Told? || s.calls[c].Done?)
  }

  /** It released its guard at or before this point of the history. */
  predicate ReleasedBy(s: State, c: CallId, at: nat) {
    Asked(s, c) && (s.calls[c].Waiting? ==> s.calls[c].since <= at)
  }

  predicate PublicationsOk(s: State) {
    && |s.history| > 0 && s.lastAt < |s.history|
    && (s.last.Some? ==>
          && s.last.value == s.history[s.lastAt] == s.published
          && s.log != [] && s.log[|s.log| - 1] == s.published)
    && (s.last.None? ==> s.log == [])
    && (forall i :: 0 < i < |s.log| ==> s.log[i - 1] != s.log[i])
  }

  predicate TaskOk(s: State) {
    match s.task
    case Woken(caller) => caller.Some? ==> Asked(s, caller.value)
    case Looking(caller) => caller.Some? ==> Asked(s, caller.value)
    case Looked(caller, view, at) =>
      && s.lastAt <= at < |s.history| && view == s.history[at]
      && (caller.Some? ==> ReleasedBy(s, caller.value, at))
    case Telling(caller) => s.last.Some? && (caller.Some? ==> ReleasedBy(s, caller.value, s.lastAt))
    case _ => true
  }

  predicate CallOk(s: State, c: CallId, call: Call) {
    && (call.Sending? || call.Waiting? || call.Told? ==> call.since < |s.history|)
    && (call.Told? && call.acked ==> s.last.Some? && call.since <= s.lastAt)
  }

  ghost predicate CallsOk(s: State) {
    forall c :: c in s.calls ==> CallOk(s, c, s.calls[c])
  }

  ghost predicate QueueOk(s: State) {
    forall i :: 0 <= i < |s.queue| ==> Asked(s, s.queue[i])
  }

  ghost predicate ViewInv(s: State) {
    PublicationsOk(s) && TaskOk(s) && CallsOk(s) && QueueOk(s)
  }

  /** The steps of the view task itself. */
  predicate IsTasks(step: Step) {
    step.Wake? || step.Look? || step.Snapshot? || step.Publish? || step.Tell? || step.Stop?
  }

  /** What the calls do leaves the publications alone and only lengthens the history. */
  lemma CallStepsOnlyExtend(s: State, step: Step, keepGuard: bool)
    requires Enabled(s, step) && !IsTasks(step)
    ensures
      var s' := Apply(s, step, keepGuard);
      && s'.task == s.task && s'.last == s.last && s'.lastAt == s.lastAt && s'.published == s.published
      && s'.log == s.log && s.history <= s'.history
  {
  }

  lemma TaskStepsKeepPublications(s: State, step: Step, keepGuard: bool)
    requires PublicationsOk(s) && TaskOk(s) && Enabled(s, step) && IsTasks(step)
    ensures PublicationsOk(Apply(s, step, keepGuard))
  {
    hide Asked, ReleasedBy;
  }

  lemma StepKeepsPublications(s: State, step: Step, keepGuard: bool)
    requires PublicationsOk(s) && TaskOk(s) && Enabled(s, step)
    ensures PublicationsOk(Apply(s, step, keepGuard))
  {
    hide Apply, Enabled, TaskOk, IsTasks;
    if IsTasks(step) {
      TaskStepsKeepPublications(s, step, keepGuard);
    } else {
      CallStepsOnlyExtend(s, step, keepGuard);
    }
  }

  /** A request once made is neither taken back nor made again. */
  lemma AskedStays(s: State, step: Step, keepGuard: bool, c: CallId)
    requires Enabled(s, step) && Asked(s, c)
    ensures
      var s' := Apply(s, step, keepGuard);
      Asked(s', c) && (s'.calls[c].Waiting? ==> s'.calls[c] == s.calls[c])
  {
  }

  lemma StepKeepsTask(s: State, step: Step, keepGuard: bool)
    requires PublicationsOk(s) && TaskOk(s) && CallsOk(s) && QueueOk(s) && Enabled(s, step)
    ensures TaskOk(Apply(s, step, keepGuard))
  {
    hide Apply, Enabled, IsTasks, CallsOk, QueueOk, PublicationsOk;
    if IsTasks(step) {
      TaskStepsKeepTask(s, step, keepGuard);
    } else {
      CallStepsOnlyExtend(s, step, keepGuard);
      if (s.task.Woken? || s.task.Looking? || s.task.Looked? || s.task.Telling?) && s.task.caller.Some? {
        AskedStays(s, step, keepGuard, s.task.caller.value);
      }
    }
  }

  lemma TaskStepsKeepTask(s: State, step: Step, keepGuard: bool)
    requires PublicationsOk(s) && TaskOk(s) && CallsOk(s) && QueueOk(s) && Enabled(s, step) && IsTasks(step)
    ensures TaskOk(Apply(s, step, keepGuard))
  {
    if step.Snapshot? && s.task.caller.Some? && s.task.caller.value in s.calls {
      assert CallOk(s, s.task.caller.value, s.calls[s.task.caller.value]);
    }
  }

  lemma TaskStepsKeepCalls(s: State, step: Step, keepGuard: bool)
    requires PublicationsOk(s) && TaskOk(s) && CallsOk(s) && Enabled(s, step) && IsTasks(step)
    ensures CallsOk(Apply(s, step, keepGuard))
  {
  }

  lemma CallStepsKeepCalls(s: State, step: Step, keepGuard: bool)
    requires |s.history| > 0 && CallsOk(s) && Enabled(s, step) && !IsTasks(step)
    ensures CallsOk(Apply(s, step, keepGuard))
  {
  }

  lemma StepKeepsCalls(s: State, step: Step, keepGuard: bool)
    requires PublicationsOk(s) && TaskOk(s) && CallsOk(s) && Enabled(s, step)
    ensures CallsOk(Apply(s, step, keepGuard))
  {
    hide Apply, Enabled, IsTasks, CallsOk, TaskOk;
    if IsTasks(step) {
      TaskStepsKeepCalls(s, step, keepGuard);
    } else {
      CallStepsKeepCalls(s, step, keepGuard);
    }
  }

  lemma StepKeepsQueue(s: State, step: Step, keepGuard: bool)
    requires QueueOk(s) && Enabled(s, step)
    ensures QueueOk(Apply(s, step, keepGuard))
  {
    var s' := Apply(s, step, keepGuard);
    forall i | 0 <= i < |s'.queue| ensures Asked(s', s'.queue[i]) {
      assert s'.queue[i] in s.queue || (step.Send? && s'.queue[i] == step.c);
    }
  }

  lemma StepKeepsView(s: State, step: Step, keepGuard: bool)
    requires ViewInv(s) && Enabled(s, step)
    ensures ViewInv(Apply(s, step, keepGuard))
  {
    hide Apply, Enabled, PublicationsOk, TaskOk, CallsOk, QueueOk;
    StepKeepsPublications(s, step, keepGuard);
    StepKeepsTask(s, step, keepGuard);
    StepKeepsCalls(s, step, keepGuard);
    StepKeepsQueue(s, step, keepGuard);
  }

  lemma {:induction false} RunKeepsView(s: State, steps: seq<Step>, keepGuard: bool)
    requires ViewInv(s) && Legal(s, steps, keepGuard)
    ensures ViewInv(Run(s, steps, keepGuard))
    decreases |steps|
  {
    if steps != [] {
      StepKeepsView(s, steps[0], keepGuard);
      RunKeepsView(Apply(s, steps[0], keepGuard), steps[1..], keepGuard);
    }
  }

  /** When a forced update was acknowledged, the published view is a value that the map had at or after
      the moment the caller let go of its guard; so what the caller inserted is in it, unless the map
      has changed again since. */
  lemma AcknowledgedViewIsFresh(steps: seq<Step>, c: CallId)
    requires Legal(INIT, steps, false)
    requires c in Run(INIT, steps, false).calls
    requires Run(INIT, steps, false).calls[c].Told? && Run(INIT, steps, false).calls[c].acked
    ensures
      var s := Run(INIT, steps, false);
      s.calls[c].since <= s.lastAt < |s.history| && s.published == s.history[s.lastAt]
  {
    RunKeepsView(INIT, steps, false);
    assert CallOk(Run(INIT, steps, false), c, Run(INIT, steps, false).calls[c]);
  }

  /** What the task has seen, in this order. */
  function Snapshots(history: seq<View>, looks: seq<nat>): (views: seq<View>)
    requires forall i :: 0 <= i < |looks| ==> looks[i] < |history|
    ensures |views| == |looks| && forall i :: 0 <= i < |looks| ==> views[i] == history[looks[i]]
  {
    seq(|looks|, i requires 0 <= i < |looks| => history[looks[i]])
  }

  /** The task has looked at the history in its order, and published what changed between its looks. */
  ghost predicate LogOk(s: State) {
    && (forall i :: 0 <= i < |s.looks| ==> s.looks[i] < |s.history|)
    && (forall i, j :: 0 <= i < j < |s.looks| ==> s.looks[i] <= s.looks[j])
    && (s.last.Some? <==> s.looks != [])
    && (s.looks != [] ==> s.looks[|s.looks| - 1] == s.lastAt)
    && s.log == Changes(Snapshots(s.history, s.looks))
  }

  lemma LastSnapshot<T>(views: seq<T>)
    requires views != []
    ensures
      var n := |views| - 1;
      Changes(views) == Changes(views[..n]) + if n > 0 && views[n - 1] == views[n] then [] else [views[n]]
  {
  }

  /** One more snapshot is published exactly when it differs from the one before. */
  lemma OneMoreSnapshot<T>(views: seq<T>, view: T)
    ensures
      Changes(views + [view]) ==
        Changes(views) + if views != [] && views[|views| - 1] == view then [] else [view]
  {
    hide Changes;
    LastSnapshot(views + [view]);
    assert (views + [view])[..|views|] == views;
  }

  lemma PublishIs(s: State, keepGuard: bool)
    requires s.task.Looked?
    ensures
      var s' := Apply(s, Publish, keepGuard);
      && s'.history == s.history && s'.looks == s.looks + [s.task.at] && s'.lastAt == s.task.at
      && s'.last.Some? && s'.log == s.log + if s.last == Some(s.task.view) then [] else [s.task.view]
  {
  }

  lemma LooksExtend(history: seq<View>, looks: seq<nat>, at: nat)
    requires forall i :: 0 <= i < |looks| ==> looks[i] < |history|
    requires at < |history|
    ensures forall i :: 0 <= i < |looks + [at]| ==> (looks + [at])[i] < |history|
    ensures Snapshots(history, looks + [at]) == Snapshots(history, looks) + [history[at]]
  {
  }

  lemma PublishingKeepsLog(s: State, keepGuard: bool)
    requires PublicationsOk(s) && LogOk(s) && s.task.Looked?
    requires s.lastAt <= s.task.at < |s.history| && s.task.view == s.history[s.task.at]
    ensures LogOk(Apply(s, Publish, keepGuard))
  {
    hide Changes, Apply, Snapshots;
    PublishIs(s, keepGuard);
    LooksExtend(s.history, s.looks, s.task.at);
    var views := Snapshots(s.history, s.looks);
    OneMoreSnapshot(views, s.task.view);
    assert s.looks != [] ==> s.last == Some(views[|views| - 1]);
  }

  lemma StepKeepsLog(s: State, step: Step, keepGuard: bool)
    requires PublicationsOk(s) && TaskOk(s) && LogOk(s) && Enabled(s, step)
    ensures LogOk(Apply(s, step, keepGuard))
  {
    hide PublicationsOk, ReleasedBy, Changes;
    var s' := Apply(s, step, keepGuard);
    if step.Publish? {
      PublishingKeepsLog(s, keepGuard);
    } else {
      OthersKeepLog(s, step, keepGuard);
      assert Snapshots(s'.history, s'.looks) == Snapshots(s.history, s.looks);
    }
  }

  lemma OthersKeepLog(s: State, step: Step, keepGuard: bool)
    requires Enabled(s, step) && !step.Publish?
    ensures
      var s' := Apply(s, step, keepGuard);
      && s.history <= s'.history && s'.looks == s.looks && s'.log == s.log && s'.last == s.last && s'.lastAt == s.lastAt
  {
  }

  lemma {:induction false} RunKeepsLog(s: State, steps: seq<Step>, keepGuard: bool)
    requires ViewInv(s) && LogOk(s) && Legal(s, steps, keepGuard)
    ensures LogOk(Run(s, steps, keepGuard))
    decreases |steps|
  {
    hide PublicationsOk, TaskOk, CallsOk, QueueOk, LogOk, Enabled, Apply;
    if steps != [] {
      StepKeepsView(s, steps[0], keepGuard);
      StepKeepsLog(s, steps[0], keepGuard);
      RunKeepsLog(Apply(s, steps[0], keepGuard), steps[1..], keepGuard);
    }
  }

  /** In every run the task looks at the map's values in their order, and what it has published is what its
      loop makes of the values it looked at: their changes, each of which is there and none twice in a row.
      Once something was published, the last state is the published view. */
  lemma PublicationsFollowChanges(steps: seq<Step>)
    requires Legal(INIT, steps, false)
    ensures
      var s := Run(INIT, steps, false);
      && LogOk(s)
      && (forall v :: v in s.log <==> v in Snapshots(s.history, s.looks))
      && (s.last.Some? <==> s.log != [])
      && (s.last.Some? ==> s.last == Some(s.published) && s.log[|s.log| - 1] == s.published)
      && (forall i :: 0 < i < |s.log| ==> s.log[i - 1] != s.log[i])
  {
    hide Apply, Enabled, Legal, Run;
    RunKeepsView(INIT, steps, false);
    RunKeepsLog(INIT, steps, false);
    var s := Run(INIT, steps, false);
    if s.looks != [] {
      ChangesFacts(Snapshots(s.history, s.looks));
    }
  }

  // ---------------------------------------------------------------------------------------------
  // Answers
  // ---------------------------------------------------------------------------------------------

  /** The call whose request the task is working on. */
  function CallerOf(task: Task): Option<CallId> {
    match task
    case Woken(caller) => caller
    case Looking(caller) => caller
    case Looked(caller, _, _) => caller
    case Telling(caller) => caller
    case _ => None
  }

  predicate IsPending(s: State, c: CallId) {
    c in s.queue || CallerOf(s.task) == Some(c)
  }

  /** While the task is there, every call that waits for an answer has its request in the channel or in the
      task's hands. */
  ghost predicate RequestsKept(s: State) {
    !s.task.Stopped? ==> forall c :: c in s.calls && s.calls[c].Waiting? ==> IsPending(s, c)
  }

  lemma StepKeepsRequests(s: State, step: Step, keepGuard: bool)
    requires RequestsKept(s) && Enabled(s, step)
    ensures RequestsKept(Apply(s, step, keepGuard))
  {
    var s' := Apply(s, step, keepGuard);
    if !s'.task.Stopped? {
      forall c | c in s'.calls && s'.calls[c].Waiting? ensures IsPending(s', c) {
        if step != Send(c) {
          assert IsPending(s, c);
        }
      }
    }
  }

  lemma {:induction false} RunKeepsRequests(s: State, steps: seq<Step>, keepGuard: bool)
    requires RequestsKept(s) && Legal(s, steps, keepGuard)
    ensures RequestsKept(Run(s, steps, keepGuard))
    decreases |steps|
  {
    hide Apply, Enabled, RequestsKept;
    if steps != [] {
      StepKeepsRequests(s, steps[0], keepGuard);
      RunKeepsRequests(Apply(s, steps[0], keepGuard), steps[1..], keepGuard);
    }
  }

  /** No request is lost. */
  lemma NoRequestIsLost(steps: seq<Step>, c: CallId)
    requires Legal(INIT, steps, false) && !Run(INIT, steps, false).task.Stopped?
    requires c in Run(INIT, steps, false).calls && Run(INIT, steps, false).calls[c].Waiting?
    ensures IsPending(Run(INIT, steps, false), c)
  {
    RunKeepsRequests(INIT, steps, false);
  }

  /** What the task does next, if it need not wait for the clock. */
  function TaskStep(task: Task): Step {
    match task
    case Resting => Wake(true)
    case Woken(_) => Look
    case Looking(_) => Snapshot
    case Looked(_, _, _) => Publish
    case Telling(_) => Tell
    case Stopped => Stop
  }

  /** How many of its steps the task has before it rests. */
  function StepsToRest(task: Task): nat {
    match task
    case Woken(_) => 4
    case Looking(_) => 3
    case Looked(_, _, _) => 2
    case Telling(_) => 1
    case _ => 0
  }

  function FirstAt(queue: seq<CallId>, c: CallId): (i: nat)
    requires c in queue
    ensures i < |queue| && queue[i] == c
  {
    if queue[0] == c then 0 else 1 + FirstAt(queue[1..], c)
  }

  /** How many task steps it takes to answer a pending request. */
  function Distance(s: State, c: CallId): nat
    requires IsPending(s, c)
  {
    StepsToRest(s.task) + if CallerOf(s.task) == Some(c) then 0 else 5 * (FirstAt(s.queue, c) + 1)
  }

  predicate CanBeAnswered(s: State, c: CallId, since: nat) {
    s.writer.None? && !s.task.Stopped? && s.history != [] && IsAt(s, c, Waiting(since)) && IsPending(s, c)
  }

  lemma TaskAdvances(s: State, c: CallId, since: nat)
    requires CanBeAnswered(s, c, since)
    ensures Enabled(s, TaskStep(s.task))
    ensures
      var s' := Apply(s, TaskStep(s.task), false);
      if s.task == Telling(Some(c)) then IsAt(s', c, Told(since, true))
      else CanBeAnswered(s', c, since) && Distance(s', c) == Distance(s, c) - 1
  {
  }

  /** All of these are steps of the task at work. */
  predicate OnlyTaskWorks(steps: seq<Step>) {
    forall i :: 0 <= i < |steps| ==> IsTasks(steps[i]) && steps[i] != Stop
  }

  lemma {:induction false} TaskAnswers(s: State, c: CallId, since: nat) returns (steps: seq<Step>)
    requires CanBeAnswered(s, c, since)
    ensures Legal(s, steps, false) && OnlyTaskWorks(steps) && |steps| == Distance(s, c)
    ensures IsAt(Run(s, steps, false), c, Told(since, true))
    decreases Distance(s, c)
  {
    hide Apply, Enabled, CanBeAnswered, Distance, IsPending;
    TaskAdvances(s, c, since);
    var step := TaskStep(s.task);
    DistanceIsPositive(s, c, since);
    steps := [];
    if s.task != Telling(Some(c)) {
      steps := TaskAnswers(Apply(s, step, false), c, since);
    }
    StepThen(s, step, steps);
    steps := [step] + steps;
  }

  lemma DistanceIsPositive(s: State, c: CallId, since: nat)
    requires CanBeAnswered(s, c, since)
    ensures IsPending(s, c) && Distance(s, c) > 0 && TaskStep(s.task) != Stop
    ensures s.task == Telling(Some(c)) ==> Distance(s, c) == 1
  {
  }

  lemma StepThen(s: State, step: Step, rest: seq<Step>)
    requires Enabled(s, step) && Legal(Apply(s, step, false), rest, false)
    ensures Legal(s, [step] + rest, false) && Run(s, [step] + rest, false) == Run(Apply(s, step, false), rest, false)
  {
    hide Apply, Enabled;
    assert ([step] + rest)[1..] == rest;
  }

  /** In every reachable state in which nobody holds the write lock, the task alone can answer every call that
      waits, in at most five steps for each request before it and for its own. */
  lemma EveryRequestCanBeAnswered(past: seq<Step>, c: CallId) returns (steps: seq<Step>)
    requires Legal(INIT, past, false) && !Run(INIT, past, false).task.Stopped?
    requires Run(INIT, past, false).writer.None?
    requires c in Run(INIT, past, false).calls && Run(INIT, past, false).calls[c].Waiting?
    ensures
      var s := Run(INIT, past, false);
      && Legal(s, steps, false) && OnlyTaskWorks(steps) && |steps| <= 5 * |s.queue| + 4
      && IsAt(Run(s, steps, false), c, Told(s.calls[c].since, true))
  {
    hide Apply, Enabled, Run, Legal;
    var s := Run(INIT, past, false);
    NoRequestIsLost(past, c);
    RunKeepsView(INIT, past, false);
    steps := TaskAnswers(s, c, s.calls[c].since);
    DistanceIsBounded(s, c);
  }

  lemma DistanceIsBounded(s: State, c: CallId)
    requires IsPending(s, c)
    ensures Distance(s, c) <= 5 * |s.queue| + 4
  {
  }

  /** A call whose request does not fit into the channel yet. */
  predicate CanBeSent(s: State, c: CallId, since: nat) {
    && s.writer.None? && !s.task.Stopped? && s.history != [] && IsAt(s, c, Sending(since))
    && |s.queue| <= CHANNEL_CAPACITY
  }

  predicate OnlyTaskAndSend(steps: seq<Step>, c: CallId) {
    forall i :: 0 <= i < |steps| ==> (IsTasks(steps[i]) && steps[i] != Stop) || steps[i] == Send(c)
  }

  lemma SendingGoesOn(s: State, c: CallId, since: nat)
    requires CanBeSent(s, c, since)
    ensures
      if |s.queue| < CHANNEL_CAPACITY then
        Enabled(s, Send(c)) && CanBeAnswered(Apply(s, Send(c), false), c, since)
      else
        && Enabled(s, TaskStep(s.task)) && TaskStep(s.task) != Stop
        && var s' := Apply(s, TaskStep(s.task), false);
           && CanBeSent(s', c, since)
           && (|s'.queue| < CHANNEL_CAPACITY || StepsToRest(s'.task) < StepsToRest(s.task))
  {
  }

  lemma {:induction false} TaskMakesRoom(s: State, c: CallId, since: nat) returns (steps: seq<Step>)
    requires CanBeSent(s, c, since)
    ensures Legal(s, steps, false) && OnlyTaskAndSend(steps, c) && IsAt(Run(s, steps, false), c, Told(since, true))
    decreases if |s.queue| < CHANNEL_CAPACITY then 0 else StepsToRest(s.task) + 1
  {
    hide Apply, Enabled, CanBeAnswered;
    SendingGoesOn(s, c, since);
    var step := if |s.queue| < CHANNEL_CAPACITY then Send(c) else TaskStep(s.task);
    if |s.queue| < CHANNEL_CAPACITY {
      steps := TaskAnswers(Apply(s, step, false), c, since);
    } else {
      steps := TaskMakesRoom(Apply(s, step, false), c, since);
    }
    StepThen(s, step, steps);
    steps := [step] + steps;
  }

  lemma {:induction false} RunKeepsChannel(s: State, steps: seq<Step>)
    requires |s.queue| <= CHANNEL_CAPACITY && Legal(s, steps, false)
    ensures |Run(s, steps, false).queue| <= CHANNEL_CAPACITY
    decreases |steps|
  {
    if steps != [] {
      RunKeepsChannel(Apply(s, steps[0], false), steps[1..]);
    }
  }

  /** And so can every call that has still to send its request, even when the channel is full. */
  lemma EverySenderCanBeAnswered(past: seq<Step>, c: CallId) returns (steps: seq<Step>)
    requires Legal(INIT, past, false) && !Run(INIT, past, false).task.Stopped?
    requires Run(INIT, past, false).writer.None?
    requires c in Run(INIT, past, false).calls && Run(INIT, past, false).calls[c].Sending?
    ensures
      var s := Run(INIT, past, false);
      && Legal(s, steps, false) && OnlyTaskAndSend(steps, c)
      && IsAt(Run(s, steps, false), c, Told(s.calls[c].since, true))
  {
    hide Apply, Enabled, Run, Legal;
    var s := Run(INIT, past, false);
    RunKeepsView(INIT, past, false);
    RunKeepsChannel(INIT, past);
    steps := TaskMakesRoom(s, c, s.calls[c].since);
  }

  lemma GivingUp(s: State, c: CallId)
    requires s.task.Stopped? && c in s.calls && (s.calls[c].Sending? || s.calls[c].Waiting?)
    ensures Enabled(s, GiveUp(c)) && IsAt(Apply(s, GiveUp(c), false), c, Told(s.calls[c].since, false))
  {
  }

  /** So no update hangs: in every reachable state in which nobody holds the write lock, every call that sends or
      waits can come to the end of its wait; with an answer as long as the task is there, without one when
      the task is gone. */
  lemma EveryUpdateCanEnd(past: seq<Step>, c: CallId) returns (steps: seq<Step>)
    requires Legal(INIT, past, false) && Run(INIT, past, false).writer.None? && c in Run(INIT, past, false).calls
    requires Run(INIT, past, false).calls[c].Sending? || Run(INIT, past, false).calls[c].Waiting?
    ensures
      var s := Run(INIT, past, false);
      Legal(s, steps, false) && IsAt(Run(s, steps, false), c, Told(s.calls[c].since, !s.task.Stopped?))
  {
    hide Apply, Enabled;
    var s := Run(INIT, past, false);
    if s.task.Stopped? {
      GivingUp(s, c);
      StepThen(s, GiveUp(c), []);
      steps := [GiveUp(c)] + [];
    } else if s.calls[c].Sending? {
      steps := EverySenderCanBeAnswered(past, c);
    } else {
      steps := EveryRequestCanBeAnswered(past, c);
    }
  }

  lemma {:induction false} TaskRests(s: State) returns (steps: seq<Step>)
    requires s.writer.None? && !s.task.Stopped? && s.history != []
    ensures Legal(s, steps, false) && OnlyTaskWorks(steps)
    ensures var s' := Run(s, steps, false); s'.writer.None? && s'.task.Resting? && s'.history == s.history
    decreases StepsToRest(s.task)
  {
    hide Apply, Enabled;
    steps := [];
    if !s.task.Resting? {
      var step := TaskStep(s.task);
      TaskGoesOn(s);
      steps := TaskRests(Apply(s, step, false));
      StepThen(s, step, steps);
      steps := [step] + steps;
    }
  }

  lemma TaskGoesOn(s: State)
    requires s.writer.None? && !s.task.Stopped? && s.history != [] && !s.task.Resting?
    ensures Enabled(s, TaskStep(s.task)) && TaskStep(s.task) != Stop
    ensures
      var s' := Apply(s, TaskStep(s.task), false);
      && s'.writer.None? && !s'.task.Stopped? && s'.history == s.history
      && StepsToRest(s'.task) < StepsToRest(s.task)
  {
  }

  lemma ClockRound(s: State) returns (steps: seq<Step>)
    requires s.writer.None? && s.task.Resting? && s.history != []
    requires s.last.Some? ==> s.last.value == s.published
    ensures Legal(s, steps, false) && OnlyTaskWorks(steps) && Run(s, steps, false).published == Current(s)
  {
    var s1 := Apply(s, Wake(false), false);
    var s2 := Apply(s1, Look, false);
    var s3 := Apply(s2, Snapshot, false);
    StepThen(s3, Publish, []);
    StepThen(s2, Snapshot, [Publish] + []);
    StepThen(s1, Look, [Snapshot] + ([Publish] + []));
    StepThen(s, Wake(false), [Look] + ([Snapshot] + ([Publish] + [])));
    steps := [Wake(false)] + ([Look] + ([Snapshot] + ([Publish] + [])));
  }

  lemma {:induction false} RunAppends(s: State, a: seq<Step>, b: seq<Step>)
    requires Legal(s, a, false) && Legal(Run(s, a, false), b, false)
    ensures Legal(s, a + b, false) && Run(s, a + b, false) == Run(Run(s, a, false), b, false)
    decreases |a|
  {
    hide Apply, Enabled;
    if a == [] {
      assert a + b == b;
    } else {
      var rest := a[1..];
      RunAppends(Apply(s, a[0], false), rest, b);
      StepThen(s, a[0], rest + b);
      assert [a[0]] + (rest + b) == a + b;
    }
  }

  /** In every reachable state in which nobody holds the write lock, the task on its own, woken by its clock, can
      publish the current value of the map, however that came about. */
  lemma ChangesCanBePublished(past: seq<Step>, view: View) returns (steps: seq<Step>)
    requires Legal(INIT, past, false) && !Run(INIT, past, false).task.Stopped?
    requires Run(INIT, past, false).writer.None?
    ensures
      var s := Apply(Run(INIT, past, false), Drift(view), false);
      && Legal(s, steps, false) && OnlyTaskWorks(steps) && Run(s, steps, false).published == view
  {
    hide Legal, Run;
    var s := Run(INIT, past, false);
    RunKeepsView(INIT, past, false);
    StepKeepsView(s, Drift(view), false);
    var s' := Apply(s, Drift(view), false);
    var rest := TaskRests(s');
    RunKeepsView(s', rest, false);
    var round := ClockRound(Run(s', rest, false));
    RunAppends(s', rest, round);
    steps := rest + round;
  }

  /** The call has let go of its guard at this point of the history, or is over. */
  predicate ReleasedAt(s: State, c: CallId, since: nat) {
    c in s.calls &&
    match s.calls[c]
    case Sending(at) => at == since
    case Waiting(at) => at == since
    case Told(at, _) => at == since
    case Done => true
    case _ => false
  }

  lemma StepKeepsRelease(s: State, step: Step, c: CallId, since: nat)
    requires Enabled(s, step) && ReleasedAt(s, c, since)
    ensures
      var s' := Apply(s, step, false);
      && ReleasedAt(s', c, since) && s.history <= s'.history
      && (!step.Drift? && !step.Insert? ==> s'.history == s.history)
  {
  }

  lemma {:induction false} RunKeepsRelease(s: State, steps: seq<Step>, c: CallId, since: nat)
    requires Legal(s, steps, false) && ReleasedAt(s, c, since)
    ensures ReleasedAt(Run(s, steps, false), c, since) && s.history <= Run(s, steps, false).history
    ensures
      (forall step :: step in steps ==> !step.Drift? && !step.Insert?) ==> Run(s, steps, false).history == s.history
    decreases |steps|
  {
    hide Apply, Enabled, ReleasedAt;
    if steps != [] {
      StepKeepsRelease(s, steps[0], c, since);
      assert forall step :: step in steps[1..] ==> step in steps;
      RunKeepsRelease(Apply(s, steps[0], false), steps[1..], c, since);
    }
  }

  /** What a call inserted is the value of the map at the moment it let go of its guard. So when its update is
      acknowledged, exactly this value is published, unless the map changed again in between. */
  lemma InsertIsPublished(past: seq<Step>, c: CallId, view: View, rest: seq<Step>)
    requires Legal(INIT, past, false) && Enabled(Run(INIT, past, false), Insert(c, view))
    requires Enabled(Apply(Run(INIT, past, false), Insert(c, view), false), DropGuard(c))
    requires
      Legal(Apply(Apply(Run(INIT, past, false), Insert(c, view), false), DropGuard(c), false), rest, false)
    ensures
      var s := Run(Apply(Apply(Run(INIT, past, false), Insert(c, view), false), DropGuard(c), false), rest, false);
      c in s.calls && s.calls[c].Told? && s.calls[c].acked ==>
        && s.calls[c].since <= s.lastAt < |s.history| && s.history[s.calls[c].since] == view
        && s.published == s.history[s.lastAt]
        && ((forall step :: step in rest ==> !step.Drift? && !step.Insert?) ==> s.published == view)
  {
    hide Legal, Run;
    var s := Run(INIT, past, false);
    var s1 := Apply(s, Insert(c, view), false);
    var s2 := Apply(s1, DropGuard(c), false);
    RunKeepsView(INIT, past, false);
    StepKeepsView(s, Insert(c, view), false);
    StepKeepsView(s1, DropGuard(c), false);
    RunKeepsView(s2, rest, false);
    RunKeepsRelease(s2, rest, c, |s.history|);
    var s3 := Run(s2, rest, false);
    assert c in s3.calls ==> CallOk(s3, c, s3.calls[c]);
  }

  // ---------------------------------------------------------------------------------------------
  // Deadlock
  // ---------------------------------------------------------------------------------------------

  datatype Actor = TheCall(c: CallId) | TheTask

  predicate HoldsRead(s: State, a: Actor) {
    match a
    case TheCall(c) => c in s.readers
    case TheTask => s.task.Looking?
  }

  predicate WaitsForWrite(s: State, a: Actor) {
    a.TheCall? && IsAt(s, a.c, WantsWrite)
  }

  predicate WaitsForRead(s: State, a: Actor) {
    match a
    case TheCall(c) => IsAt(s, c, WantsRead)
    case TheTask => s.task.Woken?
  }

  predicate WaitsForTask(s: State, a: Actor) {
    a.TheCall? && a.c in s.calls && (s.calls[a.c].Sending? || s.calls[a.c].Waiting?)
  }

  /** a cannot go on before b does something. A fair lock lets no reader past a waiting writer. */
  predicate Waits(s: State, a: Actor, b: Actor) {
    || (a.TheCall? && IsAt(s, a.c, WantsDir) && b.TheCall? && s.dir == Some(b.c))
    || (WaitsForWrite(s, a) && ((b.TheCall? && s.writer == Some(b.c)) || HoldsRead(s, b)))
    || (WaitsForRead(s, a) && ((b.TheCall? && s.writer == Some(b.c)) || WaitsForWrite(s, b)))
    || (WaitsForTask(s, a) && b.TheTask? && !s.task.Stopped?)
  }

  predicate DirOk(s: State) {
    s.dir.Some? ==> s.dir.value in s.calls && !s.calls[s.dir.value].WantsDir? && !s.calls[s.dir.value].Done?
  }

  predicate WriterOk(s: State) {
    s.writer.Some? ==> IsAt(s, s.writer.value, HasWrite)
  }

  predicate ReadersOk(s: State) {
    forall c :: c in s.readers ==> IsAt(s, c, HasRead)
  }

  predicate LockInv(s: State) {
    DirOk(s) && WriterOk(s) && ReadersOk(s)
  }

  lemma StepKeepsDir(s: State, step: Step)
    requires DirOk(s) && Enabled(s, step)
    ensures DirOk(Apply(s, step, false))
  {
  }

  lemma StepKeepsWriter(s: State, step: Step)
    requires WriterOk(s) && Enabled(s, step)
    ensures WriterOk(Apply(s, step, false))
  {
  }

  lemma StepKeepsReaders(s: State, step: Step)
    requires ReadersOk(s) && Enabled(s, step)
    ensures ReadersOk(Apply(s, step, false))
  {
  }

  lemma StepKeepsLocks(s: State, step: Step)
    requires LockInv(s) && Enabled(s, step)
    ensures LockInv(Apply(s, step, false))
  {
    hide Apply, Enabled;
    StepKeepsDir(s, step);
    StepKeepsWriter(s, step);
    StepKeepsReaders(s, step);
  }

  lemma {:induction false} RunKeepsLocks(s: State, steps: seq<Step>)
    requires LockInv(s) && Legal(s, steps, false)
    ensures LockInv(Run(s, steps, false))
    decreases |steps|
  {
    if steps != [] {
      StepKeepsLocks(s, steps[0]);
      RunKeepsLocks(Apply(s, steps[0], false), steps[1..]);
    }
  }

  /** Between taking the directory mutex and returning. */
  predicate IsInDir(call: Call) {
    call.HasDir? || call.WantsWrite? || call.HasWrite? || call.Sending? || call.Waiting? || call.Told?
  }

  ghost predicate DirIsHeld(s: State) {
    forall c :: c in s.calls && IsInDir(s.calls[c]) ==> s.dir == Some(c)
  }

  ghost predicate MapIsHeld(s: State) {
    && (forall c: CallId :: IsAt(s, c, HasWrite) ==> s.writer == Some(c))
    && (forall c: CallId :: IsAt(s, c, HasRead) ==> c in s.readers)
    && (s.writer.Some? ==> s.readers == {} && !s.task.Looking?)
  }

  lemma StepKeepsDirHeld(s: State, step: Step)
    requires DirIsHeld(s) && Enabled(s, step)
    ensures DirIsHeld(Apply(s, step, false))
  {
  }

  lemma StepKeepsMapHeld(s: State, step: Step)
    requires MapIsHeld(s) && Enabled(s, step)
    ensures MapIsHeld(Apply(s, step, false))
  {
  }

  lemma {:induction false} RunKeepsHeld(s: State, steps: seq<Step>)
    requires DirIsHeld(s) && MapIsHeld(s) && Legal(s, steps, false)
    ensures DirIsHeld(Run(s, steps, false)) && MapIsHeld(Run(s, steps, false))
    decreases |steps|
  {
    hide Apply, Enabled, DirIsHeld, MapIsHeld;
    if steps != [] {
      StepKeepsDirHeld(s, steps[0]);
      StepKeepsMapHeld(s, steps[0]);
      RunKeepsHeld(Apply(s, steps[0], false), steps[1..]);
    }
  }

  /** In every run at most one call is past the directory mutex, until it returns, its wait for the view task
      included; and while a call changes the map, no other call and no snapshot is in it. */
  lemma LocksExclude(steps: seq<Step>, c: CallId, c': CallId)
    requires Legal(INIT, steps, false)
    requires c in Run(INIT, steps, false).calls && c' in Run(INIT, steps, false).calls
    ensures
      var s := Run(INIT, steps, false);
      && (IsInDir(s.calls[c]) && IsInDir(s.calls[c']) ==> c == c')
      && (s.calls[c].HasWrite? ==> !s.task.Looking? && !s.calls[c'].HasRead? && (s.calls[c'].HasWrite? ==> c == c'))
  {
    hide Legal, Run;
    RunKeepsHeld(INIT, steps);
    assert IsAt(Run(INIT, steps, false), c, Run(INIT, steps, false).calls[c]);
    assert IsAt(Run(INIT, steps, false), c', Run(INIT, steps, false).calls[c']);
  }

  /** The order in which everything is acquired. */
  function Rank(s: State, a: Actor): nat {
    if WaitsForWrite(s, a) then 1
    else if WaitsForRead(s, a) then 2
    else if WaitsForTask(s, a) then 3
    else if a.TheCall? && IsAt(s, a.c, WantsDir) then 4
    else 0
  }

  lemma WaitingGoesDown(s: State, a: Actor, b: Actor)
    requires LockInv(s) && Waits(s, a, b)
    ensures Rank(s, b) < Rank(s, a)
  {
    if s.dir.Some? {
      assert s.calls[s.dir.value] != WantsDir;
    }
  }

  ghost predicate IsWaitingChain(s: State, chain: seq<Actor>) {
    forall i :: 0 <= i < |chain| - 1 ==> Waits(s, chain[i], chain[i + 1])
  }

  lemma {:induction false} ChainGoesDown(s: State, chain: seq<Actor>)
    requires LockInv(s) && IsWaitingChain(s, chain) && |chain| > 0
    ensures Rank(s, chain[|chain| - 1]) + |chain| - 1 <= Rank(s, chain[0])
    decreases |chain|
  {
    if |chain| > 1 {
      var n := |chain| - 1;
      assert Waits(s, chain[n - 1], chain[n]);
      var front := chain[..n];
      forall i | 0 <= i < |front| - 1 ensures Waits(s, front[i], front[i + 1]) {
        assert front[i] == chain[i] && front[i + 1] == chain[i + 1];
      }
      ChainGoesDown(s, front);
      WaitingGoesDown(s, chain[n - 1], chain[n]);
    }
  }

  /** In no reachable state do calls and the view task wait for each other in a circle. */
  lemma NoCyclicWait(steps: seq<Step>, chain: seq<Actor>)
    requires Legal(INIT, steps, false) && |chain| > 1 && IsWaitingChain(Run(INIT, steps, false), chain)
    ensures chain[0] != chain[|chain| - 1]
  {
    RunKeepsLocks(INIT, steps);
    ChainGoesDown(Run(INIT, steps, false), chain);
  }

  lemma CallGetsGuard() returns (s: State)
    ensures Enabled(INIT, Begin(0, WantsDir))
    ensures Enabled(Apply(INIT, Begin(0, WantsDir), true), TakeDir(0))
    ensures Enabled(Apply(Apply(INIT, Begin(0, WantsDir), true), TakeDir(0), true), WantWrite(0))
    ensures Enabled(Apply(Apply(Apply(INIT, Begin(0, WantsDir), true), TakeDir(0), true), WantWrite(0), true),
      TakeWrite(0))
    ensures s == Apply(Apply(Apply(Apply(INIT, Begin(0, WantsDir), true), TakeDir(0), true), WantWrite(0),
      true), TakeWrite(0), true)
    ensures IsAt(s, 0, HasWrite) && s.writer == Some(0) && s.task.Resting? && s.queue == [] && s.history != []
  {
    s := Apply(Apply(Apply(Apply(INIT, Begin(0, WantsDir), true), TakeDir(0), true), WantWrite(0), true),
      TakeWrite(0), true);
  }

  lemma GuardedCallBlocksTask(s: State)
    requires IsAt(s, 0, HasWrite) && s.writer == Some(0) && s.task.Resting? && s.queue == [] && s.history != []
    ensures Enabled(s, DropGuard(0))
    ensures Enabled(Apply(s, DropGuard(0), true), Send(0))
    ensures Enabled(Apply(Apply(s, DropGuard(0), true), Send(0), true), Wake(true))
    ensures
      var s' := Apply(Apply(Apply(s, DropGuard(0), true), Send(0), true), Wake(true), true);
      Waits(s', TheCall(0), TheTask) && Waits(s', TheTask, TheCall(0))
  {
  }

  /** Why the guard is dropped first: keeping it, a call and the view task come to wait for each other. */
  lemma KeepingTheGuardDeadlocks() returns (steps: seq<Step>)
    ensures Legal(INIT, steps, true)
    ensures Waits(Run(INIT, steps, true), TheCall(0), TheTask) && Waits(Run(INIT, steps, true), TheTask, TheCall(0))
  {
    hide Apply, Enabled, Waits;
    var s := CallGetsGuard();
    GuardedCallBlocksTask(s);
    steps := [];
    steps := Then(Apply(Apply(s, DropGuard(0), true), Send(0), true), Wake(true), steps);
    steps := Then(Apply(s, DropGuard(0), true), Send(0), steps);
    steps := Then(s, DropGuard(0), steps);
    steps := Then(Apply(Apply(Apply(INIT, Begin(0, WantsDir), true), TakeDir(0), true), WantWrite(0), true),
      TakeWrite(0), steps);
    steps := Then(Apply(Apply(INIT, Begin(0, WantsDir), true), TakeDir(0), true), WantWrite(0), steps);
    steps := Then(Apply(INIT, Begin(0, WantsDir), true), TakeDir(0), steps);
    steps := Then(INIT, Begin(0, WantsDir), steps);
  }

  lemma Then(s: State, step: Step, rest: seq<Step>) returns (steps: seq<Step>)
    requires Enabled(s, step) && Legal(Apply(s, step, true), rest, true)
    ensures Legal(s, steps, true) && Run(s, steps, true) == Run(Apply(s, step, true), rest, true)
  {
    hide Apply, Enabled;
    steps := [step] + rest;
    assert steps[1..] == rest;
  }
}
