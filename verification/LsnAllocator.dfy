/** The synthetic LSN allocator shared by the snapshot workers (`snapshotLSNTracker` in
    snapshot/worker.go) under every interleaving of its atomic loads, adds and compare-and-swaps. */
module LsnAllocator {
  import opened Wal

  type Worker = nat

  /** Where a worker stands: `Holding` an LSN, inside `MarkSubmitted` before the load or after it. */
  datatype Pc = Idle | Holding(lsn: Lsn) | Reading(lsn: Lsn) | Loaded(lsn: Lsn, seen: Lsn)

  /** `issued` and `submitted` record history. */
  datatype Alloc = Alloc(next: Lsn, maxSubmitted: Lsn, pcs: map<Worker, Pc>, issued: seq<Lsn>, submitted: set<Lsn>)

  datatype Action = NextLsn(w: Worker) | Abandon(w: Worker) | Begin(w: Worker) | Load(w: Worker) | Cas(w: Worker)

  function At(a: Alloc, w: Worker): Pc
  {
    if w in a.pcs then a.pcs[w] else Idle
  }

  predicate Enabled(a: Alloc, x: Action)
  {
    match x
    case NextLsn(w) => At(a, w) == Idle
    case Abandon(w) => At(a, w).Holding?
    case Begin(w) => At(a, w).Holding?
    case Load(w) => At(a, w).Reading?
    case Cas(w) => At(a, w).Loaded?
  }

  function Move(a: Alloc, w: Worker, pc: Pc): Alloc
  {
    a.(pcs := a.pcs[w := pc])
  }

  function Step(a: Alloc, x: Action): Alloc
    requires Enabled(a, x)
  {
    match x
    case NextLsn(w) => Move(a, w, Holding(a.next + 1)).(next := a.next + 1, issued := a.issued + [a.next + 1])
    case Abandon(w) => Move(a, w, Idle)
    case Begin(w) => Move(a, w, Reading(At(a, w).lsn))
    case Load(w) =>
      var lsn := At(a, w).lsn;
      if lsn <= a.maxSubmitted then Move(a, w, Idle).(submitted := a.submitted + {lsn})
      else Move(a, w, Loaded(lsn, a.maxSubmitted))
    case Cas(w) =>
      var pc := At(a, w);
      if a.maxSubmitted == pc.seen
      then Move(a, w, Idle).(maxSubmitted := pc.lsn, submitted := a.submitted + {pc.lsn})
      else Move(a, w, Reading(pc.lsn))
  }

  /** An LSN a worker holds was issued, is held by nobody else and has not been submitted. */
  ghost predicate PcOk(a: Alloc, w: Worker)
  {
    var pc := At(a, w);
    && (pc != Idle ==> 0 < pc.lsn <= a.next && pc.lsn !in a.submitted)
    && (pc.Loaded? ==> pc.seen <= a.maxSubmitted && pc.seen < pc.lsn)
  }

  ghost predicate Apart(a: Alloc, w: Worker, v: Worker)
  {
    w != v && At(a, w) != Idle && At(a, v) != Idle ==> At(a, w).lsn != At(a, v).lsn
  }

  ghost predicate Inv(a: Alloc)
  {
    && |a.issued| == a.next && (forall i :: 0 <= i < |a.issued| ==> a.issued[i] == i + 1)
    && (forall l <- a.submitted :: 0 < l <= a.maxSubmitted)
    && (a.maxSubmitted == 0 || a.maxSubmitted in a.submitted) && a.maxSubmitted <= a.next
    && (forall w {:trigger PcOk(a, w)} :: PcOk(a, w))
    && (forall w, v {:trigger Apart(a, w, v)} :: Apart(a, w, v))
  }

  lemma StepKeeps(a: Alloc, x: Action)
    requires Inv(a) && Enabled(a, x)
    ensures Inv(Step(a, x)) && Step(a, x).maxSubmitted >= a.maxSubmitted
  {
    var b := Step(a, x);
    assert PcOk(a, x.w);
    forall w ensures PcOk(b, w) {
      assert PcOk(a, w) && Apart(a, w, x.w);
    }
    forall w, v ensures Apart(b, w, v) {
      assert Apart(a, w, v) && PcOk(a, w) && PcOk(a, v);
    }
  }

  ghost predicate Runs(a: Alloc, xs: seq<Action>, b: Alloc)
    decreases |xs|
  {
    if xs == [] then a == b else Enabled(a, xs[0]) && Runs(Step(a, xs[0]), xs[1..], b)
  }

  function Init(): Alloc
  {
    Alloc(0, 0, map[], [], {})
  }

  lemma {:induction false} RunsKeep(a: Alloc, xs: seq<Action>, b: Alloc)
    requires Inv(a) && Runs(a, xs, b)
    ensures Inv(b) && b.maxSubmitted >= a.maxSubmitted
    decreases |xs|
  {
    if xs != [] {
      StepKeeps(a, xs[0]);
      RunsKeep(Step(a, xs[0]), xs[1..], b);
    }
  }

  /** Under every interleaving issued LSNs are distinct, none is held by two workers, and the
      published maximum is the maximum of the submitted LSNs, or 0 before the first. */
  lemma AllocatorExact(xs: seq<Action>, a: Alloc)
    requires Runs(Init(), xs, a)
    ensures forall i, j :: 0 <= i < j < |a.issued| ==> a.issued[i] < a.issued[j]
    ensures forall l <- a.submitted :: l <= a.maxSubmitted && l in a.issued
    ensures if a.submitted == {} then a.maxSubmitted == 0 else a.maxSubmitted in a.submitted
    ensures forall w, v :: w != v && At(a, w) != Idle && At(a, v) != Idle ==> At(a, w).lsn != At(a, v).lsn
  {
    assert Inv(Init());
    RunsKeep(Init(), xs, a);
    forall l | l in a.submitted ensures l in a.issued {
      assert a.issued[l - 1] == l;
    }
    forall w, v | w != v && At(a, w) != Idle && At(a, v) != Idle ensures At(a, w).lsn != At(a, v).lsn {
      assert Apart(a, w, v);
    }
  }
}
