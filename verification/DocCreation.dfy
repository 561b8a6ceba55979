/**
 `get_or_create_machine_doc` step by step: it reads the ticket file, and only when there is none
 creates a doc and writes the file. Nothing keeps two calls apart. Everywhere else in this project
 the call is one atomic step; this module says exactly when that is right.
 */
module DocCreation {
  import opened Types
  import Claims

  type CallId = nat

  datatype Call =
    | Missing              // read the file, found no ticket
    | Made(doc: DocId)     // created a doc
    | Returned(doc: DocId)
    | Gone                 // failed or aborted

  datatype State = State(file: Option<DocId>, calls: map<CallId, Call>, made: set<DocId>)

  datatype Step =
    | Read(c: CallId)
    | Create(c: CallId, doc: DocId)
    | Write(c: CallId)
    | Fail(c: CallId)

  const INIT := State(None, map[], {})

  predicate Enabled(s: State, step: Step) {
    match step
    case Read(c) => c !in s.calls
    case Create(c, doc) => c in s.calls && s.calls[c].Missing? && doc !in s.made
    case Write(c) => c in s.calls && s.calls[c].Made?
    case Fail(c) => Creating(s, c)
  }

  function Apply(s: State, step: Step): State
    requires Enabled(s, step)
  {
    match step
    case Read(c) => s.(calls := s.calls[c := if s.file.Some? then Returned(s.file.value) else Missing])
    case Create(c, doc) => s.(calls := s.calls[c := Made(doc)], made := s.made + {doc})
    case Write(c) => s.(calls := s.calls[c := Returned(s.calls[c].doc)], file := Some(s.calls[c].doc))
    case Fail(c) => s.(calls := s.calls[c := Gone])
  }

  predicate Creating(s: State, c: CallId) {
    c in s.calls && (s.calls[c].Missing? || s.calls[c].Made?)
  }

  /** A call begins while another is still creating. */
  ghost predicate Overlaps(s: State, step: Step) {
    step.Read? && s.file.None? && exists c :: Creating(s, c)
  }

  predicate Legal(s: State, steps: seq<Step>)
    decreases |steps|
  {
    steps == [] || (Enabled(s, steps[0]) && Legal(Apply(s, steps[0]), steps[1..]))
  }

  function Run(s: State, steps: seq<Step>): State
    requires Legal(s, steps)
    decreases |steps|
  {
    if steps == [] then s else Run(Apply(s, steps[0]), steps[1..])
  }

  ghost predicate NeverOverlaps(s: State, steps: seq<Step>)
    requires Legal(s, steps)
    decreases |steps|
  {
    steps == [] || (!Overlaps(s, steps[0]) && NeverOverlaps(Apply(s, steps[0]), steps[1..]))
  }

  /** Every call that has returned gave the doc that the ticket file names. */
  ghost predicate Agreement(s: State) {
    forall c :: c in s.calls && s.calls[c].Returned? ==> s.file == Some(s.calls[c].doc)
  }

  ghost predicate OneCreator(s: State) {
    && (forall c, d :: Creating(s, c) && Creating(s, d) ==> c == d)
    && (s.file.Some? ==> forall c :: !Creating(s, c))
  }

  ghost predicate MadeOk(s: State) {
    && (forall c :: c in s.calls && (s.calls[c].Made? || s.calls[c].Returned?) ==> s.calls[c].doc in s.made)
    && (forall c, d ::
          c in s.calls && d in s.calls && s.calls[c].Made? && s.calls[d].Made? && s.calls[c] == s.calls[d] ==> c == d)
    && (forall c :: c in s.calls && s.calls[c].Made? ==> s.file != Some(s.calls[c].doc))
    && (s.file.Some? ==> s.file.value in s.made)
  }

  lemma StepAlone(s: State, step: Step)
    requires Agreement(s) && OneCreator(s) && Enabled(s, step) && !Overlaps(s, step)
    ensures Agreement(Apply(s, step)) && OneCreator(Apply(s, step))
  {
    var s' := Apply(s, step);
    forall c | Creating(s', c) ensures Creating(s, c) || (step == Read(c) && s.file.None?) {}
    forall c, d | Creating(s', c) && Creating(s', d) ensures c == d {
      assert step.Read? && s.file.None? ==> !Creating(s, c) || !Creating(s', step.c);
    }
    if step.Write? {
      assert Creating(s, step.c);
      forall c ensures !Creating(s', c) {}
    }
  }

  lemma StepKeepsMade(s: State, step: Step)
    requires MadeOk(s) && Enabled(s, step)
    ensures MadeOk(Apply(s, step))
  {
  }

  /** While no call begins during another's creation, all calls return one and the same doc. */
  lemma {:induction false} AloneAgrees(s: State, steps: seq<Step>)
    requires Agreement(s) && OneCreator(s) && Legal(s, steps) && NeverOverlaps(s, steps)
    ensures Agreement(Run(s, steps)) && OneCreator(Run(s, steps))
    decreases |steps|
  {
    if steps != [] {
      StepAlone(s, steps[0]);
      AloneAgrees(Apply(s, steps[0]), steps[1..]);
    }
  }

  lemma {:induction false} RunKeepsMade(s: State, steps: seq<Step>)
    requires MadeOk(s) && Legal(s, steps)
    ensures MadeOk(Run(s, steps))
    decreases |steps|
  {
    if steps != [] {
      StepKeepsMade(s, steps[0]);
      RunKeepsMade(Apply(s, steps[0]), steps[1..]);
    }
  }

  lemma Prepend(s: State, step: Step, rest: seq<Step>)
    requires Enabled(s, step) && Legal(Apply(s, step), rest)
    ensures Legal(s, [step] + rest) && Run(s, [step] + rest) == Run(Apply(s, step), rest)
  {
    assert ([step] + rest)[1..] == rest;
  }

  /** And as soon as one does, in whatever reachable state, the run can end with two calls holding
      different docs, one of which the ticket file does not name. So the guard that a caller needs is
      exactly that no call begins while another is creating. */
  lemma OverlapCanDisagree(past: seq<Step>, step: Step) returns (future: seq<Step>)
    requires Legal(INIT, past) && Enabled(Run(INIT, past), step) && Overlaps(Run(INIT, past), step)
    ensures Legal(Apply(Run(INIT, past), step), future)
    ensures !Agreement(Run(Apply(Run(INIT, past), step), future))
  {
    var s := Run(INIT, past);
    RunKeepsMade(INIT, past);
    var c :| Creating(s, c);
    var s1 := Apply(s, step);
    if s.calls[c].Missing? {
      var x := Unused(s1.made);
      var s2 := Apply(s1, Create(c, x));
      future := FinishBoth(s2, c, step.c);
      Prepend(s1, Create(c, x), future);
      future := [Create(c, x)] + future;
    } else {
      future := FinishBoth(s1, c, step.c);
    }
  }

  /** The first call writes its doc, then the second creates and writes another. */
  lemma FinishBoth(s: State, c: CallId, d: CallId) returns (future: seq<Step>)
    requires MadeOk(s) && c in s.calls && s.calls[c].Made? && d in s.calls && s.calls[d].Missing?
    ensures Legal(s, future) && !Agreement(Run(s, future))
  {
    var y := Unused(s.made);
    var s1 := Apply(s, Write(c));
    var s2 := Apply(s1, Create(d, y));
    var s3 := Apply(s2, Write(d));
    assert s3.calls[c] == Returned(s.calls[c].doc) && s3.file == Some(y) && s.calls[c].doc in s.made;
    Prepend(s2, Write(d), []);
    Prepend(s1, Create(d, y), [Write(d)] + []);
    Prepend(s, Write(c), [Create(d, y)] + ([Write(d)] + []));
    future := [Write(c)] + ([Create(d, y)] + ([Write(d)] + []));
  }

  lemma Unused(docs: set<DocId>) returns (doc: DocId)
    ensures doc !in docs
  {
    doc := 0;
    var left := docs;
    while doc in docs
      invariant left <= docs && forall d :: d in docs && d !in left ==> d < doc
      invariant forall d :: d in left ==> d >= doc
      decreases |left|
    {
      left := left - {doc};
      doc := doc + 1;
    }
  }

  /** What this module knows of a machine: its ticket file and the docs there are, and no call yet. */
  function FilesOf(s: Claims.State, m: MachineId): State {
    State(Claims.MachineOf(s, m).ticket, map[], s.makers.Keys)
  }

  /** A call that runs alone does what the one step does that stands for it everywhere else: it can run exactly
      when that step can, leaves the same ticket file and returns its doc. */
  lemma AloneIsOneStep(s: Claims.State, m: MachineId, c: CallId, spare: DocId)
    ensures
      var steps := if Claims.MachineOf(s, m).ticket.Some? then [Read(c)] else [Read(c), Create(c, spare), Write(c)];
      && (Legal(FilesOf(s, m), steps) <==> Claims.Enabled(s, Claims.EnsureDoc(m, spare)))
      && (Legal(FilesOf(s, m), steps) ==>
            var file := Claims.MachineOf(Claims.Apply(s, Claims.EnsureDoc(m, spare)), m).ticket;
            && Run(FilesOf(s, m), steps).file == file && file.Some?
            && Run(FilesOf(s, m), steps).calls == map[c := Returned(file.value)])
  {
    var s0 := FilesOf(s, m);
    var s1 := Apply(s0, Read(c));
    if Claims.MachineOf(s, m).ticket.Some? {
      assert Legal(s1, []) && [Read(c)][1..] == [];
    } else {
      var steps := [Read(c), Create(c, spare), Write(c)];
      assert steps[1..] == [Create(c, spare), Write(c)] && steps[1..][1..] == [Write(c)] && [Write(c)][1..] == [];
      if spare !in s0.made {
        var s2 := Apply(s1, Create(c, spare));
        var s3 := Apply(s2, Write(c));
        assert Legal(s3, []) && Legal(s2, [Write(c)]) && Legal(s1, steps[1..]) && Legal(s0, steps);
        assert Run(s2, [Write(c)]) == s3 && Run(s1, steps[1..]) == s3 && Run(s0, steps) == s3;
      }
    }
  }
}
