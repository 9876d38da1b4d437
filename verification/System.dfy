/**
 * Any number of handlers, deleters, crashes and executor passes over one store, interleaved at the
 * granularity of single store operations, with a history of what committed.
 */
module System {
  import opened Basics
  import opened Handlers
  import opened Keys
  import opened Records
  import opened StoreModel
  import opened Text
  import X = RolloutExecutor

  datatype Phase =
    | Reading
    | Holding(rec: Option<Record>, rev: nat)
    | Answered(rev: nat)
    | Refused(status: Status)

  datatype Handler = Handler(req: Request, attempt: nat, phase: Phase)

  datatype Entry =
    | Wrote(author: nat, slot: Slot, mutation: Mutation, rev: nat)
    | Removed(op: Op, rev: nat)

  datatype Sys = Sys(
    store: Store,
    handlers: map<nat, Handler>,
    hist: seq<Entry>,
    authorized: map<nat, string>,  // CreateRollout calls past their guards, by cluster
    exec: Exec,
    calls: seq<string>)            // history: the cluster of every outside call a drive made

  /** Where the executor is in its pass: what it holds from its listings, and what it is about to do. */
  datatype Exec = Exec(
    clusters: seq<Cluster>,        // listed when the pass began, still to visit
    current: Option<Cluster>,
    jobs: seq<Job>,                // listed when the current cluster was reached, still to look at
    queue: seq<X.Call>)            // what is left to do about the current job

  const AT_REST := Exec([], None, [], [])

  datatype Action =
    | Spawn(i: nat, req: Request)
    | Read(i: nat)
    | Write(i: nat)
    | Raw(op: Op)
    | Authorize(n: nat, cluster: string)
    | CreateJob(n: nat, job: Job)
    | ExecList                      // begin a pass, or abandon one and begin the next
    | ExecVisit                     // the next cluster of the listing
    | ExecTake(w: X.Answers)        // the next job of the cluster
    | ExecCall                      // one outside call of the drive at hand
    | ExecNext                      // write the job record at hand, or end the drive at hand

  // ----- steps -----

  function AfterRead(h: Handler, s: Store): Handler
  {
    var r, rev := Get(s, h.req.slot), GetRev(s, h.req.slot);
    if Apply(h.req.mutation, r).None? then h.(phase := Refused(NotFound))
    else if h.req.pin != 0 && rev != h.req.pin then h.(phase := Refused(FailedPrecondition))
    else h.(phase := Holding(r, rev))
  }

  /** The retry loop: one more attempt after a lost race, unless the caller pinned a revision. */
  function AfterPut(h: Handler, res: Result<nat, StoreError>): Handler
  {
    match res
    case Ok(rev) => h.(phase := Answered(rev))
    case Err(Conflict) =>
      if Retries(h.req) && h.attempt == 0 then h.(attempt := 1, phase := Reading) else h.(phase := Refused(Aborted))
    case Err(Invalid) => h.(phase := Refused(Internal))
  }

  function DoWrite(y: Sys, i: nat): Sys
    requires i in y.handlers && y.handlers[i].phase.Holding? && Apply(y.handlers[i].req.mutation, y.handlers[i].phase.rec).Some?
  {
    var h := y.handlers[i];
    var (s', res) := PutDesired(y.store, Apply(h.req.mutation, h.phase.rec).value, h.phase.rev);
    y.(store := s', handlers := y.handlers[i := AfterPut(h, res)],
       hist := if res.Ok? then y.hist + [Wrote(i, h.req.slot, h.req.mutation, res.value)] else y.hist)
  }

  function Killed(handlers: map<nat, Handler>): map<nat, Handler>
  {
    map i | i in handlers ::
      if handlers[i].phase.Reading? || handlers[i].phase.Holding? then handlers[i].(phase := Refused(Crashed)) else handlers[i]
  }

  predicate IsDelete(op: Op)
  {
    op.OpDeleteHost? || op.OpDeleteMachine? || op.OpDeleteCluster?
  }

  predicate Covers(op: Op, k: Slot)
  {
    match op
    case OpDeleteHost(c, mac) => k == SlotFor(KindHost, c, mac)
    case OpDeleteMachine(c, a) => k == SlotFor(KindMachine, c, a)
    case OpDeleteCluster(c) => TornDown(k, c)
    case _ => false
  }

  /** Operations open to anyone: all but desired puts and job puts, which belong to handlers and the executor. */
  predicate Open(op: Op)
  {
    !op.OpPutDesired? && (op.OpPutRollout? ==> !IsDesired(KindOf(op.rec)) && !op.rec.JobRec?)
  }

  function DoRaw(y: Sys, op: Op): Sys
  {
    var s' := Step(y.store, op);
    var y' := y.(store := s', hist := if IsDelete(op) && s'.counter > y.store.counter then y.hist + [Removed(op, s'.counter)] else y.hist);
    if op.OpCrash? then y'.(handlers := Killed(y.handlers), authorized := map[], exec := AT_REST) else y'
  }

  function Enabled(s: Store, c: string): bool
  {
    var k := Slot(KindCluster, c);
    k in s.db && s.db[k].ClusterRec? && s.db[k].cluster.rolloutsEnabled
  }

  function ClustersIn(rs: seq<Record>): (cs: seq<Cluster>)
    ensures forall c :: c in cs <==> ClusterRec(c) in rs
  {
    if rs == [] then [] else (if rs[0].ClusterRec? then [rs[0].cluster] else []) + ClustersIn(rs[1..])
  }

  function JobsIn(rs: seq<Record>): (js: seq<Job>)
    ensures forall j :: j in js <==> JobRec(j) in rs
  {
    if rs == [] then [] else (if rs[0].JobRec? then [rs[0].job] else []) + JobsIn(rs[1..])
  }

  ghost function ListedClusters(s: Store): seq<Cluster>
  {
    ClustersIn(ListOf(s, KindCluster, None))
  }

  ghost function ListedJobs(s: Store, c: string): seq<Job>
  {
    JobsIn(ListOf(s, KindRolloutJob, Some(c)))
  }

  /** The guards in front of a new rollout: the cluster exists, is enabled, and is not in auto mode. */
  predicate MayCreate(s: Store, c: string)
  {
    Enabled(s, c) && s.db[Slot(KindCluster, c)].cluster.mode != Auto
  }

  /** The executor's own steps. Its guards are the two tests the code makes, on what it holds. */
  ghost function DoExec(y: Sys, a: Action): Sys
  {
    var e := y.exec;
    match a
    case ExecList => y.(exec := Exec(ListedClusters(y.store), None, [], []))
    case ExecVisit =>
      if e.queue != [] || e.jobs != [] || e.clusters == [] then y
      else
        var c := e.clusters[0];
        y.(exec := Exec(e.clusters[1..], Some(c), if c.rolloutsEnabled then ListedJobs(y.store, c.name) else [], []))
    case ExecTake(w) =>
      if e.queue != [] || e.jobs == [] || e.current.None? then y
      else
        var j := e.jobs[0];
        y.(exec := e.(jobs := e.jobs[1..], queue := if X.Actionable(j.state) then X.JobCalls(e.current.value, j, w) else []))
    case ExecCall => if e.queue != [] && e.queue[0].Drive? then y.(calls := y.calls + [e.queue[0].cluster]) else y
    case ExecNext =>
      if e.queue == [] then y
      else
        var y' := y.(exec := e.(queue := e.queue[1..]));
        if e.queue[0].PutJob? then y'.(store := PutRollout(y.store, JobRec(e.queue[0].job)).0) else y'
    case _ => y
  }

  ghost function Act(y: Sys, a: Action): Sys
  {
    match a
    case Spawn(i, req) =>
      if i in y.handlers || !WellFormed(req) then y else y.(handlers := y.handlers[i := Handler(req, 0, Reading)])
    case Read(i) =>
      if i in y.handlers && y.handlers[i].phase.Reading?
      then y.(handlers := y.handlers[i := AfterRead(y.handlers[i], y.store)]) else y
    case Write(i) =>
      if i in y.handlers && y.handlers[i].phase.Holding? && Apply(y.handlers[i].req.mutation, y.handlers[i].phase.rec).Some?
      then DoWrite(y, i) else y
    case Raw(op) => if Open(op) then DoRaw(y, op) else y
    case Authorize(n, c) => if MayCreate(y.store, c) then y.(authorized := y.authorized[n := c]) else y
    case CreateJob(n, job) =>
      if n in y.authorized && job.cluster == y.authorized[n]
      then y.(store := PutRollout(y.store, JobRec(job)).0, authorized := y.authorized - {n}) else y
    case _ => DoExec(y, a)
  }

  ghost function Acts(y: Sys, acts: seq<Action>): Sys
    decreases |acts|
  {
    if acts == [] then y else Acts(Act(y, acts[0]), acts[1..])
  }

  function Start(s: Store): Sys
  {
    Sys(s, map[], [], map[], AT_REST, [])
  }

  // ----- the fold of the history -----

  function After(prev: Option<Record>, e: Entry, k: Slot): Option<Record>
  {
    match e
    case Wrote(_, slot, m, rev) =>
      if slot != k then prev
      else
        var next := Apply(m, prev);
        if next.Some? then Some(Stamp(next.value, rev)) else None
    case Removed(op, _) => if Covers(op, k) then None else prev
  }

  /** The record at `k` rebuilt from where the run started by the committed mutations, in order. */
  function Replay(base: map<Slot, Record>, hist: seq<Entry>, k: Slot): Option<Record>
  {
    if hist == [] then (if k in base then Some(base[k]) else None)
    else After(Replay(base, hist[..|hist| - 1], k), hist[|hist| - 1], k)
  }

  lemma ReplaySnoc(base: map<Slot, Record>, hist: seq<Entry>, e: Entry, k: Slot)
    ensures Replay(base, hist + [e], k) == After(Replay(base, hist, k), e, k)
  {
    assert (hist + [e])[..|hist|] == hist;
  }

  // ----- invariant -----

  ghost predicate Folded(base: map<Slot, Record>, y: Sys)
  {
    forall k: Slot :: IsDesired(k.kind) ==> Stored(y.store, k) == Replay(base, y.hist, k)
  }

  ghost predicate HoldsCurrent(y: Sys)
  {
    forall i :: i in y.handlers ==>
      && WellFormed(y.handlers[i].req)
      && y.handlers[i].attempt <= 1
      && (y.handlers[i].phase.Holding? ==>
            Current(y.store, y.handlers[i].req.slot, y.handlers[i].phase.rec, y.handlers[i].phase.rev))
  }

  function RevOfEntry(e: Entry): nat
  {
    e.rev
  }

  ghost predicate HistOrdered(y: Sys)
  {
    && (forall m, n :: 0 <= m < n < |y.hist| ==> RevOfEntry(y.hist[m]) < RevOfEntry(y.hist[n]))
    && (forall n :: 0 <= n < |y.hist| ==> RevOfEntry(y.hist[n]) <= y.store.counter)
  }

  ghost predicate By(e: Entry, i: nat)
  {
    e.Wrote? && e.author == i
  }

  /** A handler is in the history exactly once if it answered with a revision, and not at all otherwise. */
  ghost predicate CommitsOnce(y: Sys)
  {
    && (forall m, n, i :: 0 <= m < n < |y.hist| && By(y.hist[m], i) ==> !By(y.hist[n], i))
    && (forall n :: 0 <= n < |y.hist| && y.hist[n].Wrote? ==>
          var e := y.hist[n];
          && e.author in y.handlers
          && y.handlers[e.author].phase == Answered(e.rev)
          && e.slot == y.handlers[e.author].req.slot && e.mutation == y.handlers[e.author].req.mutation)
    && (forall i :: i in y.handlers && y.handlers[i].phase.Answered? ==>
          exists n :: 0 <= n < |y.hist| && By(y.hist[n], i))
  }

  ghost predicate SInv(base: map<Slot, Record>, y: Sys)
  {
    Inv(y.store) && Folded(base, y) && HoldsCurrent(y) && HistOrdered(y) && CommitsOnce(y)
  }

  lemma StartInv(s: Store)
    requires Inv(s)
    ensures SInv(s.db, Start(s))
  {
  }

  /** Reads stay current across any store step. */
  lemma HoldsKept(y: Sys, s': Store)
    requires HoldsCurrent(y) && Descends(y.store, s')
    ensures HoldsCurrent(y.(store := s'))
  {
    forall i | i in y.handlers && y.handlers[i].phase.Holding?
      ensures Current(s', y.handlers[i].req.slot, y.handlers[i].phase.rec, y.handlers[i].phase.rev)
    {
      CurrentKept(y.store, s', y.handlers[i].req.slot, y.handlers[i].phase.rec, y.handlers[i].phase.rev);
    }
  }

  lemma ReadStep(base: map<Slot, Record>, y: Sys, i: nat)
    requires SInv(base, y) && i in y.handlers && y.handlers[i].phase.Reading?
    ensures SInv(base, Act(y, Read(i)))
  {
    ReadIsCurrent(y.store, y.handlers[i].req.slot);
    HandlerMoved(base, y, i, AfterRead(y.handlers[i], y.store));
  }

  /** A handler that has not answered takes a step of its own that answers nothing. */
  lemma HandlerMoved(base: map<Slot, Record>, y: Sys, i: nat, h: Handler)
    requires SInv(base, y) && i in y.handlers && !y.handlers[i].phase.Answered?
    requires h.req == y.handlers[i].req && h.attempt <= 1 && !h.phase.Answered?
    requires h.phase.Holding? ==> Current(y.store, h.req.slot, h.phase.rec, h.phase.rev)
    ensures SInv(base, y.(handlers := y.handlers[i := h]))
  {
    assert forall n :: 0 <= n < |y.hist| && y.hist[n].Wrote? ==> y.hist[n].author != i;
  }

  lemma CommitFolds(base: map<Slot, Record>, y: Sys, s': Store, e: Entry, q: Request)
    requires Folded(base, y) && e.Wrote? && e.slot == q.slot && e.mutation == q.mutation
    requires AtomicUpdate(y.store, s', q, e.rev)
    ensures Folded(base, y.(store := s', hist := y.hist + [e]))
  {
    forall k: Slot | IsDesired(k.kind) ensures Stored(s', k) == Replay(base, y.hist + [e], k) {
      ReplaySnoc(base, y.hist, e, k);
    }
  }

  lemma CommitOnce(y: Sys, s': Store, i: nat, h: Handler, e: Entry)
    requires CommitsOnce(y) && HistOrdered(y) && i in y.handlers && y.handlers[i].phase.Holding?
    requires e == Wrote(i, h.req.slot, h.req.mutation, s'.counter) && h.phase == Answered(e.rev)
    requires s'.counter == y.store.counter + 1
    ensures var y' := y.(store := s', handlers := y.handlers[i := h], hist := y.hist + [e]);
            CommitsOnce(y') && HistOrdered(y')
  {
    var y' := y.(store := s', handlers := y.handlers[i := h], hist := y.hist + [e]);
    HistGrows(y, y', e);
    assert forall n :: 0 <= n < |y.hist| ==> !By(y.hist[n], i);
    assert By(y'.hist[|y.hist|], i);
    forall j | j in y'.handlers && y'.handlers[j].phase.Answered?
      ensures exists n :: 0 <= n < |y'.hist| && By(y'.hist[n], j)
    {
      if j != i {
        var n :| 0 <= n < |y.hist| && By(y.hist[n], j);
        assert By(y'.hist[n], j);
      }
    }
  }

  lemma HistGrows(y: Sys, y': Sys, e: Entry)
    requires HistOrdered(y) && y'.hist == y.hist + [e] && RevOfEntry(e) == y'.store.counter == y.store.counter + 1
    ensures HistOrdered(y')
  {
  }

  lemma HoldsUpdated(y: Sys, i: nat, h: Handler)
    requires HoldsCurrent(y) && WellFormed(h.req) && h.attempt <= 1 && !h.phase.Holding?
    ensures HoldsCurrent(y.(handlers := y.handlers[i := h]))
  {
  }

  lemma CommitStep(base: map<Slot, Record>, y: Sys, i: nat, s': Store, rev: nat)
    requires SInv(base, y) && i in y.handlers && y.handlers[i].phase.Holding?
    requires Inv(s') && AtomicUpdate(y.store, s', y.handlers[i].req, rev)
    ensures var h := y.handlers[i];
            SInv(base, y.(store := s', handlers := y.handlers[i := h.(phase := Answered(rev))],
                          hist := y.hist + [Wrote(i, h.req.slot, h.req.mutation, rev)]))
  {
    var h := y.handlers[i];
    var h', e := h.(phase := Answered(rev)), Wrote(i, h.req.slot, h.req.mutation, rev);
    CommitFolds(base, y, s', e, h.req);
    CommitOnce(y, s', i, h', e);
    assert Descends(y.store, s');
    HoldsKept(y, s');
    HoldsUpdated(y.(store := s'), i, h');
  }

  lemma WriteStep(base: map<Slot, Record>, y: Sys, i: nat)
    requires SInv(base, y) && i in y.handlers && y.handlers[i].phase.Holding?
    requires Apply(y.handlers[i].req.mutation, y.handlers[i].phase.rec).Some?
    ensures SInv(base, Act(y, Write(i)))
  {
    var h := y.handlers[i];
    var (s', res) := PutDesired(y.store, Apply(h.req.mutation, h.phase.rec).value, h.phase.rev);
    PutAfterRead(y.store, h.req, h.phase.rec, h.phase.rev);
    if res.Ok? {
      CommitStep(base, y, i, s', res.value);
    } else {
      RefusedStep(base, y, i, res);
    }
  }

  lemma RefusedStep(base: map<Slot, Record>, y: Sys, i: nat, res: Result<nat, StoreError>)
    requires SInv(base, y) && i in y.handlers && y.handlers[i].phase.Holding? && res.Err?
    ensures SInv(base, y.(handlers := y.handlers[i := AfterPut(y.handlers[i], res)]))
  {
    HandlerMoved(base, y, i, AfterPut(y.handlers[i], res));
  }

  /** A store step that leaves the desired records alone. */
  lemma QuietStep(base: map<Slot, Record>, y: Sys, s': Store)
    requires SInv(base, y) && Inv(s') && Descends(y.store, s')
    requires forall k: Slot :: IsDesired(k.kind) ==> Stored(s', k) == Stored(y.store, k)
    ensures SInv(base, y.(store := s'))
  {
    HoldsKept(y, s');
  }

  /** A delete empties exactly the places it covers. */
  lemma DeletedAt(s: Store, op: Op, k: Slot)
    requires IsDelete(op) && Step(s, op).counter > s.counter
    ensures Stored(Step(s, op), k) == if Covers(op, k) then None else Stored(s, k)
  {
    match op
    case OpDeleteHost(c, mac) => OneDeletedAt(s, KindHost, c, mac, k);
    case OpDeleteMachine(c, a) => OneDeletedAt(s, KindMachine, c, a, k);
    case OpDeleteCluster(c) => TornDownAt(s, c, k);
  }

  lemma OneDeletedAt(s: Store, kind: Kind, c: string, name: string, k: Slot)
    requires DeleteOne(s, kind, c, name).counter > s.counter
    ensures Stored(DeleteOne(s, kind, c, name), k) == if k == SlotFor(kind, c, name) then None else Stored(s, k)
  {
  }

  lemma TornDownAt(s: Store, c: string, k: Slot)
    requires DeleteCluster(s, c).counter > s.counter
    ensures Stored(DeleteCluster(s, c), k) == if TornDown(k, c) then None else Stored(s, k)
  {
  }

  lemma DeleteFolds(base: map<Slot, Record>, y: Sys, op: Op)
    requires Folded(base, y) && IsDelete(op) && Step(y.store, op).counter > y.store.counter
    ensures Folded(base, y.(store := Step(y.store, op), hist := y.hist + [Removed(op, Step(y.store, op).counter)]))
  {
    var s' := Step(y.store, op);
    RemovalFolds(base, y, s', op);
  }

  lemma RemovalFolds(base: map<Slot, Record>, y: Sys, s': Store, op: Op)
    requires Folded(base, y) && IsDelete(op) && s' == Step(y.store, op) && s'.counter > y.store.counter
    ensures Folded(base, y.(store := s', hist := y.hist + [Removed(op, s'.counter)]))
  {
    var e := Removed(op, s'.counter);
    forall k: Slot | IsDesired(k.kind) ensures Stored(s', k) == Replay(base, y.hist + [e], k) {
      ReplaySnoc(base, y.hist, e, k);
      DeletedAt(y.store, op, k);
    }
  }

  lemma RemovedOnce(y: Sys, s': Store, e: Entry)
    requires CommitsOnce(y) && HistOrdered(y) && e.Removed? && e.rev == s'.counter > y.store.counter
    ensures CommitsOnce(y.(store := s', hist := y.hist + [e])) && HistOrdered(y.(store := s', hist := y.hist + [e]))
  {
    var y' := y.(store := s', hist := y.hist + [e]);
    forall i | i in y'.handlers && y'.handlers[i].phase.Answered?
      ensures exists n :: 0 <= n < |y'.hist| && By(y'.hist[n], i)
    {
      var n :| 0 <= n < |y.hist| && By(y.hist[n], i);
      assert By(y'.hist[n], i);
    }
  }

  lemma DeleteStep(base: map<Slot, Record>, y: Sys, op: Op)
    requires SInv(base, y) && IsDelete(op) && Step(y.store, op).counter > y.store.counter
    ensures SInv(base, y.(store := Step(y.store, op), hist := y.hist + [Removed(op, Step(y.store, op).counter)]))
  {
    var s' := Step(y.store, op);
    StepInv(y.store, op);
    StepDescends(y.store, op);
    HoldsKept(y, s');
    DeleteFolds(base, y, op);
    RemovedOnce(y, s', Removed(op, s'.counter));
  }

  lemma KilledStep(base: map<Slot, Record>, y: Sys, y': Sys)
    requires SInv(base, y) && y'.store == y.store && y'.hist == y.hist && y'.handlers == Killed(y.handlers)
    ensures SInv(base, y')
  {
    assert forall n :: 0 <= n < |y.hist| && y.hist[n].Wrote? ==> y'.handlers[y.hist[n].author] == y.handlers[y.hist[n].author];
  }

  lemma RawStep(base: map<Slot, Record>, y: Sys, op: Op)
    requires SInv(base, y) && Open(op)
    ensures SInv(base, DoRaw(y, op))
  {
    var s' := Step(y.store, op);
    StepInv(y.store, op);
    StepDescends(y.store, op);
    if IsDelete(op) && s'.counter > y.store.counter {
      DeleteStep(base, y, op);
    } else {
      QuietStep(base, y, s');
      if op.OpCrash? { KilledStep(base, y.(store := s'), DoRaw(y, op)); }
    }
  }

  lemma JobStep(base: map<Slot, Record>, y: Sys, job: Job)
    requires SInv(base, y)
    ensures SInv(base, y.(store := PutRollout(y.store, JobRec(job)).0))
  {
    StepInv(y.store, OpPutRollout(JobRec(job)));
    StepDescends(y.store, OpPutRollout(JobRec(job)));
    QuietStep(base, y, PutRollout(y.store, JobRec(job)).0);
  }

  lemma SpawnStep(base: map<Slot, Record>, y: Sys, i: nat, req: Request)
    requires SInv(base, y) && i !in y.handlers && WellFormed(req)
    ensures SInv(base, y.(handlers := y.handlers[i := Handler(req, 0, Reading)]))
  {
    SpawnCommits(y, i, Handler(req, 0, Reading));
  }

  lemma SpawnCommits(y: Sys, i: nat, h: Handler)
    requires CommitsOnce(y) && i !in y.handlers && !h.phase.Answered?
    ensures CommitsOnce(y.(handlers := y.handlers[i := h]))
  {
    assert forall n :: 0 <= n < |y.hist| && y.hist[n].Wrote? ==> y.hist[n].author != i;
  }

  lemma ActInv(base: map<Slot, Record>, y: Sys, a: Action)
    requires SInv(base, y)
    ensures SInv(base, Act(y, a))
  {
    match a
    case Spawn(i, req) => if i !in y.handlers && WellFormed(req) { SpawnStep(base, y, i, req); }
    case Read(i) => ReadAct(base, y, i);
    case Write(i) => WriteAct(base, y, i);
    case Raw(op) => RawAct(base, y, op);
    case CreateJob(n, job) => if n in y.authorized && job.cluster == y.authorized[n] { CreateStep(base, y, n, job); }
    case Authorize(n, c) => Unseen(base, y, Act(y, a));
    case _ => ExecStep(base, y, a);
  }

  lemma ReadAct(base: map<Slot, Record>, y: Sys, i: nat)
    requires SInv(base, y)
    ensures SInv(base, Act(y, Read(i)))
  {
    if i in y.handlers && y.handlers[i].phase.Reading? { ReadStep(base, y, i); }
  }

  lemma RawAct(base: map<Slot, Record>, y: Sys, op: Op)
    requires SInv(base, y)
    ensures SInv(base, Act(y, Raw(op)))
  {
    if Open(op) { RawStep(base, y, op); }
  }

  lemma WriteAct(base: map<Slot, Record>, y: Sys, i: nat)
    requires SInv(base, y)
    ensures SInv(base, Act(y, Write(i)))
  {
    if i in y.handlers && y.handlers[i].phase.Holding? && Apply(y.handlers[i].req.mutation, y.handlers[i].phase.rec).Some? {
      WriteStep(base, y, i);
    }
  }

  /** The executor's place, the authorisations and the calls made are no part of the invariant. */
  lemma Unseen(base: map<Slot, Record>, y: Sys, y': Sys)
    requires SInv(base, y) && y'.store == y.store && y'.handlers == y.handlers && y'.hist == y.hist
    ensures SInv(base, y')
  {
  }

  lemma CreateStep(base: map<Slot, Record>, y: Sys, n: nat, job: Job)
    requires SInv(base, y) && n in y.authorized && job.cluster == y.authorized[n]
    ensures SInv(base, Act(y, CreateJob(n, job)))
  {
    JobStep(base, y, job);
    Unseen(base, y.(store := PutRollout(y.store, JobRec(job)).0), Act(y, CreateJob(n, job)));
  }

  lemma ExecStep(base: map<Slot, Record>, y: Sys, a: Action)
    requires SInv(base, y)
    ensures SInv(base, DoExec(y, a))
  {
    ExecSeen(y, a);
    if a.ExecNext? && y.exec.queue != [] && y.exec.queue[0].PutJob? {
      JobStep(base, y, y.exec.queue[0].job);
      Unseen(base, y.(store := PutRollout(y.store, JobRec(y.exec.queue[0].job)).0), DoExec(y, a));
    } else {
      Unseen(base, y, DoExec(y, a));
    }
  }

  /** An executor step touches the store only to put the job at hand. */
  lemma ExecSeen(y: Sys, a: Action)
    ensures var y' := DoExec(y, a);
            && y'.handlers == y.handlers && y'.hist == y.hist
            && y'.store == if a.ExecNext? && y.exec.queue != [] && y.exec.queue[0].PutJob?
                           then PutRollout(y.store, JobRec(y.exec.queue[0].job)).0 else y.store
  {
  }

  lemma {:induction false} ActsInv(base: map<Slot, Record>, y: Sys, acts: seq<Action>)
    requires SInv(base, y)
    ensures SInv(base, Acts(y, acts))
    decreases |acts|
  {
    if acts != [] {
      ActInv(base, y, acts[0]);
      ActsInv(base, Act(y, acts[0]), acts[1..]);
    }
  }

  // ----- theorems over every interleaving -----

  /** Every desired record is the fold, in revision order, of the mutations that committed since its creation. */
  lemma NoLostUpdate(s: Store, acts: seq<Action>, k: Slot)
    requires Inv(s) && IsDesired(k.kind)
    ensures var y := Acts(Start(s), acts);
            Stored(y.store, k) == Replay(s.db, y.hist, k) && HistOrdered(y)
  {
    StartInv(s);
    ActsInv(s.db, Start(s), acts);
  }

  /** At the very step at which a call is answered with a revision, a read shows what it asked for, and nothing else new. */
  lemma AnswerReadsBack(base: map<Slot, Record>, y: Sys, i: nat)
    requires SInv(base, y) && i in y.handlers && y.handlers[i].phase.Holding? && Act(y, Write(i)).handlers[i].phase.Answered?
    ensures ReadsBack(y.store, Act(y, Write(i)).store, y.handlers[i].req, Act(y, Write(i)).handlers[i].phase.rev)
    ensures Get(y.store, y.handlers[i].req.slot).Some? ==> KindOf(Get(y.store, y.handlers[i].req.slot).value) == y.handlers[i].req.slot.kind
  {
    var h := y.handlers[i];
    WriteUpdates(y.store, h.req, h.phase.rec, h.phase.rev);
    OverlayKind(y.store, h.req.slot);
  }

  lemma OverlayKind(s: Store, k: Slot)
    requires Inv(s)
    ensures Get(s, k).Some? ==> KindOf(Get(s, k).value) == k.kind
  {
  }

  lemma WriteUpdates(s: Store, q: Request, r: Option<Record>, rev: nat)
    requires Inv(s) && WellFormed(q) && Current(s, q.slot, r, rev) && Apply(q.mutation, r).Some?
    ensures var (s', res) := PutDesired(s, Apply(q.mutation, r).value, rev); res.Ok? ==> ReadsBack(s, s', q, res.value)
  {
    PutAfterRead(s, q, r, rev);
    var (s', res) := PutDesired(s, Apply(q.mutation, r).value, rev);
    if res.Ok? { UpdateReadsBack(s, s', q, res.value); }
  }

  /** A call answers with a revision if and only if it committed, once, within two attempts. */
  lemma AnsweredIffCommitted(s: Store, acts: seq<Action>, i: nat)
    requires Inv(s) && i in Acts(Start(s), acts).handlers
    ensures var y := Acts(Start(s), acts);
            && y.handlers[i].attempt <= 1
            && (y.handlers[i].phase.Answered? <==> exists n :: 0 <= n < |y.hist| && By(y.hist[n], i))
            && (forall m, n :: 0 <= m < |y.hist| && 0 <= n < |y.hist| && By(y.hist[m], i) && By(y.hist[n], i) ==> m == n)
  {
    StartInv(s);
    ActsInv(s.db, Start(s), acts);
  }

  /** The answers a call can get at its read, told by what is stored then. */
  lemma ReadAnswers(y: Sys, i: nat)
    requires Inv(y.store) && i in y.handlers && y.handlers[i].phase.Reading? && WellFormed(y.handlers[i].req)
    ensures var q, after := y.handlers[i].req, Act(y, Read(i)).handlers[i].phase;
            var found, pinned := q.slot in y.store.db || Creates(q.mutation), q.pin == 0 || q.pin == GetRev(y.store, q.slot);
            && (after == Refused(NotFound) <==> !found) && (after == Refused(FailedPrecondition) <==> found && !pinned)
            && (after.Holding? <==> found && pinned)
  {
    OverlayKind(y.store, y.handlers[i].req.slot);
  }

  /** And at its write: a lost race sends it back once, unless it pinned a revision or overwrites whole records. */
  lemma WriteAnswers(base: map<Slot, Record>, y: Sys, i: nat)
    requires SInv(base, y) && i in y.handlers && y.handlers[i].phase.Holding?
    requires Apply(y.handlers[i].req.mutation, y.handlers[i].phase.rec).Some?
    ensures var h, after := y.handlers[i], Act(y, Write(i)).handlers[i];
            var lost := GetRev(y.store, h.req.slot) != h.phase.rev;
            var again := h.req.pin == 0 && !h.req.mutation.Overwrite? && h.attempt == 0;
            if Nameless(Apply(h.req.mutation, h.phase.rec).value) then after.phase == Refused(Internal)
            else
              && (after.phase.Answered? <==> !lost)
              && (lost && again ==> after == Handler(h.req, 1, Reading))
              && (lost && !again ==> after.phase == Refused(Aborted))
  {
    var h := y.handlers[i];
    ApplySlot(h.req, h.phase.rec);
    InvalidIff(y.store, Apply(h.req.mutation, h.phase.rec).value, h.phase.rev);
  }

  /** A crash ends every call that has not answered; those that have keep their answer. */
  lemma CrashEndsCalls(y: Sys, i: nat)
    requires i in y.handlers
    ensures var after := Act(y, Raw(OpCrash));
            && i in after.handlers && after.authorized == map[] && after.exec == AT_REST
            && after.handlers[i].phase == match y.handlers[i].phase
                                          case Answered(rev) => Answered(rev)
                                          case Refused(status) => Refused(status)
                                          case _ => Refused(Crashed)
  {
  }

  // ----- pinned calls -----

  /** A call that pins a revision reads that revision or is refused, and is never tried twice. */
  ghost predicate PinsHold(y: Sys)
  {
    forall i :: i in y.handlers && y.handlers[i].req.pin != 0 ==>
      y.handlers[i].attempt == 0 && (y.handlers[i].phase.Holding? ==> y.handlers[i].phase.rev == y.handlers[i].req.pin)
  }

  lemma HandlerPins(h: Handler, s: Store, res: Result<nat, StoreError>)
    requires h.req.pin != 0 && h.attempt == 0
    ensures var r := AfterRead(h, s);
            r.req == h.req && r.attempt == 0 && (r.phase.Holding? ==> r.phase.rev == h.req.pin == GetRev(s, h.req.slot))
    ensures var p := AfterPut(h, res); p.req == h.req && p.attempt == 0 && !p.phase.Holding?
  {
  }

  lemma ActPins(y: Sys, a: Action)
    requires PinsHold(y)
    ensures PinsHold(Act(y, a))
  {
    var y' := Act(y, a);
    match a
    case Read(i) =>
      ReadPins(y, i);
    case Write(i) =>
      WritePins(y, i);
    case Spawn(i, req) =>
      assert forall k :: k in y'.handlers && k != i ==> k in y.handlers && y'.handlers[k] == y.handlers[k];
    case Raw(op) =>
      assert forall k :: k in y'.handlers ==>
        && k in y.handlers && y'.handlers[k].req == y.handlers[k].req && y'.handlers[k].attempt == y.handlers[k].attempt
        && (y'.handlers[k].phase.Holding? ==> y'.handlers[k] == y.handlers[k]);
    case _ =>
      assert y'.handlers == y.handlers;
  }

  lemma ReadPins(y: Sys, i: nat)
    requires PinsHold(y)
    ensures PinsHold(Act(y, Read(i)))
  {
    var y' := Act(y, Read(i));
    if i in y.handlers && y.handlers[i].req.pin != 0 { HandlerPins(y.handlers[i], y.store, Err(Conflict)); }
    assert forall k :: k in y'.handlers && k != i ==> k in y.handlers && y'.handlers[k] == y.handlers[k];
  }

  lemma WritePins(y: Sys, i: nat)
    requires PinsHold(y)
    ensures PinsHold(Act(y, Write(i)))
  {
    var y' := Act(y, Write(i));
    if i in y.handlers && y.handlers[i].phase.Holding? && Apply(y.handlers[i].req.mutation, y.handlers[i].phase.rec).Some? {
      var h := y.handlers[i];
      var res := PutDesired(y.store, Apply(h.req.mutation, h.phase.rec).value, h.phase.rev).1;
      if h.req.pin != 0 { HandlerPins(h, y.store, res); }
      assert y'.handlers == y.handlers[i := AfterPut(h, res)];
    }
  }

  lemma {:induction false} ActsPins(y: Sys, acts: seq<Action>)
    requires PinsHold(y)
    ensures PinsHold(Acts(y, acts))
    decreases |acts|
  {
    if acts != [] {
      ActPins(y, acts[0]);
      ActsPins(Act(y, acts[0]), acts[1..]);
    }
  }

  /** Over every interleaving, a call that pins a revision commits only over a record that is then still at that revision. */
  lemma PinnedCommitsOverPin(s: Store, acts: seq<Action>, i: nat)
    requires Inv(s)
    requires var y := Acts(Start(s), acts);
             && i in y.handlers && y.handlers[i].req.pin != 0 && y.handlers[i].phase.Holding?
             && Act(y, Write(i)).handlers[i].phase.Answered?
    ensures var y := Acts(Start(s), acts); GetRev(y.store, y.handlers[i].req.slot) == y.handlers[i].req.pin
  {
    var y := Acts(Start(s), acts);
    ActsPins(Start(s), acts);
    StartInv(s);
    ActsInv(s.db, Start(s), acts);
    var h := y.handlers[i];
    ApplySlot(h.req, h.phase.rec);
  }

  // ----- the enable guard -----

  /** A committed write that turns rollouts on for `c`: the enable call, or a whole record that carries the flag. */
  predicate Enables(e: Entry, c: string)
  {
    e.Wrote? && e.slot == Slot(KindCluster, c) &&
    (e.mutation == SetRolloutsEnabled(true) ||
     (e.mutation.Overwrite? && e.mutation.rec.ClusterRec? && e.mutation.rec.cluster.rolloutsEnabled))
  }

  ghost predicate EverEnabled(hist: seq<Entry>, c: string)
  {
    exists n :: 0 <= n < |hist| && Enables(hist[n], c)
  }

  predicate FlagOn(r: Option<Record>)
  {
    r.Some? && r.value.ClusterRec? && r.value.cluster.rolloutsEnabled
  }

  /** The flag can only come from where the history stood before, or from a commit since then that sets it. */
  lemma {:induction false} FlagHasCause(base: map<Slot, Record>, hist: seq<Entry>, later: seq<Entry>, c: string)
    requires !FlagOn(Replay(base, hist, Slot(KindCluster, c))) && FlagOn(Replay(base, hist + later, Slot(KindCluster, c)))
    ensures EverEnabled(later, c)
    decreases |later|
  {
    var k := Slot(KindCluster, c);
    assert later == [] ==> hist + later == hist;
    if later != [] {
      var init, e := later[..|later| - 1], later[|later| - 1];
      assert hist + later == (hist + init) + [e];
      ReplaySnoc(base, hist + init, e, k);
      if Enables(e, c) {
        assert Enables(later[|later| - 1], c);
      } else {
        assert FlagOn(Replay(base, hist + init, k));
        FlagHasCause(base, hist, init, c);
        var n :| 0 <= n < |init| && Enables(init[n], c);
        assert Enables(later[n], c);
      }
    }
  }

  ghost predicate NoJob(db: map<Slot, Record>, c: string)
  {
    forall k :: k in db && db[k].JobRec? ==> db[k].job.cluster != c
  }

  /** Everything the executor holds from its listings shows `c` off. */
  ghost predicate Off(e: Exec, c: string)
  {
    && (forall cl :: cl in e.clusters && cl.name == c ==> !cl.rolloutsEnabled)
    && (e.current.Some? && e.current.value.name == c ==> !e.current.value.rolloutsEnabled)
    && (forall x :: x in e.queue && x.Drive? ==> x.cluster != c)
  }

  /** Nothing anywhere about a job of `c`, and no call past the guards to make one. */
  ghost predicate Jobless(y: Sys, c: string)
  {
    && NoJob(y.store.db, c)
    && (forall n :: n in y.authorized ==> y.authorized[n] != c)
    && (forall j :: j in y.exec.jobs ==> j.cluster != c)
    && (forall x :: x in y.exec.queue && x.PutJob? ==> x.job.cluster != c)
  }

  /** No commit between `y` and `y'` turned `c` on. */
  ghost predicate NotEnabledSince(y: Sys, y': Sys, c: string)
  {
    forall n :: |y.hist| <= n < |y'.hist| ==> !Enables(y'.hist[n], c)
  }

  lemma ActHistory(y: Sys, a: Action)
    ensures y.hist <= Act(y, a).hist && y.calls <= Act(y, a).calls
  {
  }

  lemma {:induction false} ActsHistory(y: Sys, acts: seq<Action>)
    ensures y.hist <= Acts(y, acts).hist && y.calls <= Acts(y, acts).calls
    decreases |acts|
  {
    if acts != [] {
      ActHistory(y, acts[0]);
      ActsHistory(Act(y, acts[0]), acts[1..]);
    }
  }

  /** What was off and has not been enabled since is off. */
  lemma StillOff(base: map<Slot, Record>, y: Sys, y': Sys, c: string)
    requires Folded(base, y) && Folded(base, y') && y.hist <= y'.hist && NotEnabledSince(y, y', c) && !Enabled(y.store, c)
    ensures !Enabled(y'.store, c)
  {
    var k, later := Slot(KindCluster, c), y'.hist[|y.hist|..];
    assert y'.hist == y.hist + later;
    assert Stored(y.store, k) == Replay(base, y.hist, k) && Stored(y'.store, k) == Replay(base, y'.hist, k);
    assert forall n :: 0 <= n < |later| ==> later[n] == y'.hist[|y.hist| + n];
    assert !EverEnabled(later, c);
    if Enabled(y'.store, c) { FlagHasCause(base, y.hist, later, c); }
  }

  /** A cluster the listing shows enabled is enabled. */
  lemma ListedIsEnabled(s: Store, c: Cluster)
    requires Inv(s) && c in ListedClusters(s)
    ensures c.rolloutsEnabled <==> Enabled(s, c.name)
  {
    ListedRecords(s, KindCluster, None, ClusterRec(c));
    var key :| key in ScanKeys(s, KindCluster, None) && Get(s, Slot(KindCluster, key)) == Some(ClusterRec(c));
    assert SlotOf(s.db[Slot(KindCluster, key)]) == Slot(KindCluster, key);
  }

  lemma ListedJobStored(s: Store, c: string, j: Job)
    requires Inv(s) && j in ListedJobs(s, c)
    ensures exists k :: k in s.db && s.db[k] == JobRec(j)
  {
    ListedRecords(s, KindRolloutJob, Some(c), JobRec(j));
    var key :| key in ScanKeys(s, KindRolloutJob, Some(c)) && Get(s, Slot(KindRolloutJob, key)) == Some(JobRec(j));
    assert s.db[Slot(KindRolloutJob, key)] == JobRec(j);
  }

  /** With NUL-free cluster names the executor's job listing for `c` is exactly the stored jobs of `c`. */
  lemma ListedJobsExact(s: Store, c: string, j: Job)
    requires Inv(s) && NulFree(c) && forall k :: k in s.db ==> NulFree(ClusterOf(s.db[k]))
    ensures j in ListedJobs(s, c) <==> j.cluster == c && Stored(s, SlotFor(KindRolloutJob, c, j.pool)) == Some(JobRec(j))
  {
    if j in ListedJobs(s, c) { ListedJobOwn(s, c, j); }
    if j.cluster == c && Stored(s, SlotFor(KindRolloutJob, c, j.pool)) == Some(JobRec(j)) { OwnJobListed(s, j); }
  }

  lemma ListedJobOwn(s: Store, c: string, j: Job)
    requires Inv(s) && NulFree(c) && (forall k :: k in s.db ==> NulFree(ClusterOf(s.db[k]))) && j in ListedJobs(s, c)
    ensures j.cluster == c && Stored(s, SlotFor(KindRolloutJob, c, j.pool)) == Some(JobRec(j))
  {
    ListedRecords(s, KindRolloutJob, Some(c), JobRec(j));
    var key :| key in ScanKeys(s, KindRolloutJob, Some(c)) && Get(s, Slot(KindRolloutJob, key)) == Some(JobRec(j));
    OwnSlot(s, key, j);
    ScanExact(c, j.cluster, j.pool);
  }

  lemma OwnSlot(s: Store, key: string, j: Job)
    requires Inv(s) && Get(s, Slot(KindRolloutJob, key)) == Some(JobRec(j))
    ensures key == CKey(j.cluster, j.pool) && Stored(s, SlotFor(KindRolloutJob, j.cluster, j.pool)) == Some(JobRec(j))
    ensures exists k :: k in s.db && ClusterOf(s.db[k]) == j.cluster
  {
    var k := Slot(KindRolloutJob, key);
    assert s.db[k] == JobRec(j) && SlotOf(s.db[k]) == k && ClusterOf(s.db[k]) == j.cluster;
  }

  lemma OwnJobListed(s: Store, j: Job)
    requires Inv(s) && Stored(s, SlotFor(KindRolloutJob, j.cluster, j.pool)) == Some(JobRec(j))
    ensures j in ListedJobs(s, j.cluster)
  {
    var key := CKey(j.cluster, j.pool);
    assert Scanned(key, j.cluster);
    assert SlotFor(KindRolloutJob, j.cluster, j.pool) == Slot(KindRolloutJob, key);
    assert key in ScanKeys(s, KindRolloutJob, Some(j.cluster)) && Get(s, Slot(KindRolloutJob, key)) == Some(JobRec(j));
    ListedRecords(s, KindRolloutJob, Some(j.cluster), JobRec(j));
  }

  // ----- what one step does to the executor's view of `c` -----

  lemma OffStep(y: Sys, a: Action, c: string)
    requires Inv(y.store) && (Off(y.exec, c) || Refreshes(a)) && (Refreshes(a) ==> !Enabled(y.store, c))
    ensures Off(Act(y, a).exec, c)
  {
    if a.ExecList? {
      forall cl | cl in ListedClusters(y.store) && cl.name == c ensures !cl.rolloutsEnabled { ListedIsEnabled(y.store, cl); }
    } else if a.ExecTake? && y.exec.current.Some? && y.exec.jobs != [] {
      TakeOff(y.exec, a.w, c);
    }
  }

  lemma TakeOff(e: Exec, w: X.Answers, c: string)
    requires Off(e, c) && e.current.Some? && e.jobs != []
    ensures forall x :: x in X.JobCalls(e.current.value, e.jobs[0], w) && x.Drive? ==> x.cluster != c
  {
  }

  /** Steps after which the executor holds only what the store then says. */
  predicate Refreshes(a: Action)
  {
    a.ExecList? || (a.Raw? && a.op.OpCrash?)
  }

  lemma CallStep(y: Sys, a: Action, c: string)
    ensures multiset(Act(y, a).calls)[c] == multiset(y.calls)[c] + if a.ExecCall? && Calling(y.exec, c) then 1 else 0
  {
    if a.ExecCall? && y.exec.queue != [] && y.exec.queue[0].Drive? {
      assert Act(y, a).calls == y.calls + [y.exec.queue[0].cluster];
    } else {
      assert Act(y, a).calls == y.calls;
    }
  }

  /** The next outside call is for `c`. */
  ghost predicate Calling(e: Exec, c: string)
  {
    e.queue != [] && e.queue[0].Drive? && e.queue[0].cluster == c
  }

  lemma NoJobPut(s: Store, r: Record, c: string)
    requires NoJob(s.db, c) && (r.JobRec? ==> r.job.cluster != c)
    ensures NoJob(PutRollout(s, r).0.db, c)
  {
  }

  lemma NoJobOp(s: Store, op: Op, c: string)
    requires NoJob(s.db, c) && Open(op)
    ensures NoJob(Step(s, op).db, c)
  {
    match op
    case OpPutRollout(r) => NoJobPut(s, r, c);
    case _ =>
  }

  lemma NoJobWrite(y: Sys, i: nat, c: string)
    requires NoJob(y.store.db, c)
    requires i in y.handlers && y.handlers[i].phase.Holding? && Apply(y.handlers[i].req.mutation, y.handlers[i].phase.rec).Some?
    requires WellFormed(y.handlers[i].req)
    ensures NoJob(DoWrite(y, i).store.db, c)
  {
  }

  lemma JoblessExec(y: Sys, a: Action, c: string)
    requires Inv(y.store) && Jobless(y, c)
    ensures Jobless(DoExec(y, a), c)
  {
    match a
    case ExecVisit =>
      if y.exec.clusters != [] {
        var cl := y.exec.clusters[0];
        forall j | j in ListedJobs(y.store, cl.name) ensures j.cluster != c { ListedJobStored(y.store, cl.name, j); }
      }
    case ExecTake(w) =>
      if y.exec.jobs != [] { assert y.exec.jobs[0] in y.exec.jobs; }
    case ExecNext =>
      if y.exec.queue != [] && y.exec.queue[0].PutJob? { NoJobPut(y.store, JobRec(y.exec.queue[0].job), c); }
    case _ =>
  }

  lemma JoblessStep(y: Sys, a: Action, c: string)
    requires Inv(y.store) && HoldsCurrent(y) && Jobless(y, c) && !Enabled(y.store, c)
    ensures Jobless(Act(y, a), c)
  {
    match a
    case Write(i) =>
      if i in y.handlers && y.handlers[i].phase.Holding? && Apply(y.handlers[i].req.mutation, y.handlers[i].phase.rec).Some? {
        NoJobWrite(y, i, c);
      }
    case Raw(op) =>
      if Open(op) { NoJobOp(y.store, op, c); }
    case CreateJob(n, job) =>
      if n in y.authorized && job.cluster == y.authorized[n] { NoJobPut(y.store, JobRec(job), c); }
    case Spawn(i, req) =>
    case Read(i) =>
    case Authorize(n, cl) =>
    case _ => JoblessExec(y, a, c);
  }

  // ----- whole runs -----

  /** One step from `y`, and the rest of the run, with nothing enabling `c`. */
  lemma SplitRun(base: map<Slot, Record>, y: Sys, acts: seq<Action>, c: string)
    requires SInv(base, y) && !Enabled(y.store, c) && acts != [] && NotEnabledSince(y, Acts(y, acts), c)
    ensures var y' := Act(y, acts[0]);
            SInv(base, y') && !Enabled(y'.store, c) && NotEnabledSince(y', Acts(y', acts[1..]), c)
  {
    var y' := Act(y, acts[0]);
    ActInv(base, y, acts[0]);
    ActHistory(y, acts[0]);
    ActsHistory(y', acts[1..]);
    assert NotEnabledSince(y, y', c) by {
      assert forall n :: |y.hist| <= n < |y'.hist| ==> y'.hist[n] == Acts(y, acts).hist[n];
    }
    StillOff(base, y, y', c);
  }

  /** While the executor's listings show `c` off and nothing enables it, no drive calls for it. */
  lemma {:induction false} NoCallWhileOff(base: map<Slot, Record>, y: Sys, acts: seq<Action>, c: string)
    requires SInv(base, y) && !Enabled(y.store, c) && Off(y.exec, c) && NotEnabledSince(y, Acts(y, acts), c)
    ensures multiset(Acts(y, acts).calls)[c] == multiset(y.calls)[c]
    decreases |acts|
  {
    if acts != [] {
      SplitRun(base, y, acts, c);
      OffStep(y, acts[0], c);
      CallStep(y, acts[0], c);
      NoCallWhileOff(base, Act(y, acts[0]), acts[1..], c);
    }
  }

  lemma {:induction false} StaysJobless(base: map<Slot, Record>, y: Sys, acts: seq<Action>, c: string)
    requires SInv(base, y) && !Enabled(y.store, c) && Jobless(y, c) && NotEnabledSince(y, Acts(y, acts), c)
    ensures Jobless(Acts(y, acts), c)
    decreases |acts|
  {
    if acts != [] {
      SplitRun(base, y, acts, c);
      JoblessStep(y, acts[0], c);
      StaysJobless(base, Act(y, acts[0]), acts[1..], c);
    }
  }

  /**
   * From a store where `c` is off: until a write that enables `c` commits, no run of handlers, seeding,
   * deletes, crashes and executor passes makes a call for `c`, and none gives it a first job.
   */
  lemma EnableGuard(s: Store, acts: seq<Action>, c: string)
    requires Inv(s) && !Enabled(s, c)
    requires !EverEnabled(Acts(Start(s), acts).hist, c)
    ensures c !in Acts(Start(s), acts).calls && (NoJob(s.db, c) ==> NoJob(Acts(Start(s), acts).store.db, c))
  {
    var y := Start(s);
    StartInv(s);
    NoCallWhileOff(s.db, y, acts, c);
    if NoJob(s.db, c) { StaysJobless(s.db, y, acts, c); }
  }

  /** Step `i` is an outside call for `c`, made before anything refreshed what the executor held in `y`. */
  ghost predicate StaleCall(y: Sys, acts: seq<Action>, c: string, i: nat)
  {
    && i < |acts| && acts[i].ExecCall? && Calling(Acts(y, acts[..i]).exec, c)
    && forall j :: 0 <= j < i ==> !Refreshes(acts[j])
  }

  /**
   * The guard is read from the executor's listings, not from the store. From any reachable state in which
   * `c` is disabled, over any run in which nothing enables it: a call for `c` is made if and only if the
   * listings held at the start show `c` on and a drive of `c` calls before the next listing or crash.
   */
  lemma {:induction false} CallAfterDisableIff(base: map<Slot, Record>, y: Sys, acts: seq<Action>, c: string)
    requires SInv(base, y) && !Enabled(y.store, c) && NotEnabledSince(y, Acts(y, acts), c)
    ensures multiset(Acts(y, acts).calls)[c] > multiset(y.calls)[c] <==> !Off(y.exec, c) && exists i: nat :: StaleCall(y, acts, c, i)
    decreases |acts|
  {
    if Off(y.exec, c) {
      NoCallWhileOff(base, y, acts, c);
    } else if acts != [] {
      var y' := Act(y, acts[0]);
      SplitRun(base, y, acts, c);
      CallStep(y, acts[0], c);
      CallsGrow(y', acts[1..], c);
      CallAfterDisableIff(base, y', acts[1..], c);
      if Refreshes(acts[0]) {
        OffStep(y, acts[0], c);
        NoCallWhileOff(base, y', acts[1..], c);
        assert forall i: nat :: StaleCall(y, acts, c, i) ==> i == 0;
      } else {
        StaleShift(y, acts, c);
        if Off(y'.exec, c) { NoStaleCall(base, y', acts[1..], c); }
      }
    }
  }

  lemma {:induction false} CallsGrow(y: Sys, acts: seq<Action>, c: string)
    ensures multiset(Acts(y, acts).calls)[c] >= multiset(y.calls)[c]
    decreases |acts|
  {
    if acts != [] {
      CallStep(y, acts[0], c);
      CallsGrow(Act(y, acts[0]), acts[1..], c);
    }
  }

  /** Stale calls of a run: its first step, if that is one, and those of the rest. */
  lemma StaleShift(y: Sys, acts: seq<Action>, c: string)
    requires acts != [] && !Refreshes(acts[0])
    ensures (exists i: nat :: StaleCall(y, acts, c, i)) <==>
              (acts[0].ExecCall? && Calling(y.exec, c)) || exists i: nat :: StaleCall(Act(y, acts[0]), acts[1..], c, i)
  {
    var y', rest := Act(y, acts[0]), acts[1..];
    forall i | 0 < i < |acts| ensures StaleCall(y, acts, c, i) <==> StaleCall(y', rest, c, i - 1) {
      assert acts[..i][0] == acts[0] && acts[..i][1..] == rest[..i - 1];
      assert forall j :: 0 <= j < i - 1 ==> rest[j] == acts[j + 1];
      assert forall j :: 1 <= j < i ==> acts[j] == rest[j - 1];
    }
    assert acts[..0] == [] && (StaleCall(y, acts, c, 0) <==> acts[0].ExecCall? && Calling(y.exec, c));
    if i: nat :| StaleCall(y', rest, c, i) { assert StaleCall(y, acts, c, i + 1); }
    if i: nat :| StaleCall(y, acts, c, i) { if i > 0 { assert StaleCall(y', rest, c, i - 1); } }
  }

  lemma NoStaleCall(base: map<Slot, Record>, y: Sys, acts: seq<Action>, c: string)
    requires SInv(base, y) && !Enabled(y.store, c) && Off(y.exec, c) && NotEnabledSince(y, Acts(y, acts), c)
    ensures forall i: nat :: !StaleCall(y, acts, c, i)
  {
    if i: nat :| StaleCall(y, acts, c, i) { OffUntil(base, y, acts, c, i); }
  }

  lemma {:induction false} OffUntil(base: map<Slot, Record>, y: Sys, acts: seq<Action>, c: string, i: nat)
    requires SInv(base, y) && !Enabled(y.store, c) && Off(y.exec, c) && NotEnabledSince(y, Acts(y, acts), c) && i <= |acts|
    ensures !Calling(Acts(y, acts[..i]).exec, c)
    decreases i
  {
    if i > 0 {
      SplitRun(base, y, acts, c);
      OffStep(y, acts[0], c);
      OffUntil(base, Act(y, acts[0]), acts[1..], c, i - 1);
      assert acts[..i][0] == acts[0] && acts[..i][1..] == acts[1..][..i - 1];
    }
  }

  /** So none is made once the executor has listed again, or the process has restarted. */
  lemma NoCallAfterNextListing(base: map<Slot, Record>, y: Sys, a: Action, acts: seq<Action>, c: string)
    requires SInv(base, y) && !Enabled(y.store, c) && Refreshes(a) && NotEnabledSince(y, Acts(Act(y, a), acts), c)
    ensures multiset(Acts(Act(y, a), acts).calls)[c] == multiset(y.calls)[c]
  {
    var all := [a] + acts;
    assert all[1..] == acts && Acts(y, all) == Acts(Act(y, a), acts);
    SplitRun(base, y, all, c);
    OffStep(y, a, c);
    CallStep(y, a, c);
    NoCallWhileOff(base, Act(y, a), acts, c);
  }

  lemma DisableCommits(y: Sys, i: nat, c: string)
    requires Inv(y.store) && Enabled(y.store, c) && i !in y.handlers
    ensures var q := Request(Slot(KindCluster, c), SetRolloutsEnabled(false), 0);
            var y' := Act(Act(Act(y, Spawn(i, q)), Read(i)), Write(i));
            !Enabled(y'.store, c) && y'.exec == y.exec && y'.calls == y.calls
  {
    var k := Slot(KindCluster, c);
    var q := Request(k, SetRolloutsEnabled(false), 0);
    var y1 := Act(y, Spawn(i, q));
    var y2 := Act(y1, Read(i));
    assert y2.handlers[i].phase == Holding(Get(y.store, k), GetRev(y.store, k));
    var next := Apply(q.mutation, Get(y.store, k)).value;
    assert SlotOf(next) == k && Named(next);
    assert Act(y2, Write(i)).store == PutDesired(y.store, next, GetRev(y.store, k)).0 == StoreModel.Write(y.store, next);
  }

  /** With a drive of `c` at hand, a disable that commits now does not stop its next call. */
  lemma CallAfterDisable(y: Sys, i: nat, c: string)
    requires Inv(y.store) && Enabled(y.store, c) && i !in y.handlers && Calling(y.exec, c)
    ensures var q := Request(Slot(KindCluster, c), SetRolloutsEnabled(false), 0);
            var y' := Act(Act(Act(y, Spawn(i, q)), Read(i)), Write(i));
            !Enabled(y'.store, c) && Act(y', ExecCall).calls == y.calls + [c]
  {
    var q := Request(Slot(KindCluster, c), SetRolloutsEnabled(false), 0);
    DisableCommits(y, i, c);
    CallsNow(Act(Act(Act(y, Spawn(i, q)), Read(i)), Write(i)), c);
  }

  lemma CallsNow(y: Sys, c: string)
    requires Calling(y.exec, c)
    ensures Act(y, ExecCall).calls == y.calls + [c]
  {
  }

  // ----- a run that gets there -----

  function EnabledCluster(): Cluster
  {
    Cluster("c", None, None, None, 0, Manual, true, false)
  }

  function PendingJob(): Job
  {
    Job("c", "w", TalosJob, "t", JobPending, [], "", 0)
  }

  /** One enabled cluster with one pending job. */
  function OneJob(): Store
  {
    PutRollout(PutDesired(EMPTY, ClusterRec(EnabledCluster()), 0).0, JobRec(PendingJob())).0
  }

  function Disable(): Request
  {
    Request(Slot(KindCluster, "c"), SetRolloutsEnabled(false), 0)
  }

  lemma ListedOne(x: string)
    ensures Listed({x}) == [x]
  {
    assert Ascending([x]);
    AscendingUnique(Listed({x}), [x]);
  }

  lemma OneJobStored()
    ensures Inv(OneJob()) && Enabled(OneJob(), "c")
    ensures OneJob().db == map[Slot(KindCluster, "c") := Stamp(ClusterRec(EnabledCluster()), 1),
                               Slot(KindRolloutJob, CKey("c", "w")) := Stamp(JobRec(PendingJob()), 2)]
    ensures OneJob().obsCluster == map[]
  {
    OneClusterStored(ClusterRec(EnabledCluster()), PutDesired(EMPTY, ClusterRec(EnabledCluster()), 0).0);
    WriteInv(PutDesired(EMPTY, ClusterRec(EnabledCluster()), 0).0, JobRec(PendingJob()));
  }

  lemma OneClusterStored(r: Record, s: Store)
    requires r == ClusterRec(EnabledCluster()) && s == PutDesired(EMPTY, r, 0).0
    ensures Inv(s) && s.db == map[Slot(KindCluster, "c") := Stamp(r, 1)] && s.counter == 1 && s.obsCluster == map[]
  {
    WriteInv(EMPTY, r);
  }

  lemma OneJobListings()
    ensures ListedClusters(OneJob()) == [EnabledCluster().(revision := 1)]
    ensures ListedJobs(OneJob(), "c") == [PendingJob().(revision := 2)]
  {
    OneJobClusters();
    OneJobJobs();
  }

  lemma OneJobClusters()
    ensures ListedClusters(OneJob()) == [EnabledCluster().(revision := 1)]
  {
    OneJobStored();
    OneJobKeys();
    OneClusterListed(OneJob(), "c", EnabledCluster());
  }

  lemma OneJobJobs()
    ensures ListedJobs(OneJob(), "c") == [PendingJob().(revision := 2)]
  {
    OneJobStored();
    OneJobKeys();
    OneJobListed(OneJob(), "c", CKey("c", "w"), PendingJob());
  }

  lemma OneClusterListed(s: Store, key: string, c: Cluster)
    requires ScanKeys(s, KindCluster, None) == {key} && Slot(KindCluster, key) in s.db && s.obsCluster == map[]
    requires s.db[Slot(KindCluster, key)] == ClusterRec(c.(revision := 1)) && c.observed.None?
    ensures ListedClusters(s) == [c.(revision := 1)]
  {
    OneRecord(s, KindCluster, None, key);
    var r := ClusterRec(c.(revision := 1));
    assert Overlay(s, Slot(KindCluster, key), r) == r;
    assert [r][1..] == [] && ClustersIn([r]) == [r.cluster] + ClustersIn([]);
  }

  lemma OneJobListed(s: Store, c: string, key: string, j: Job)
    requires ScanKeys(s, KindRolloutJob, Some(c)) == {key} && Slot(KindRolloutJob, key) in s.db
    requires s.db[Slot(KindRolloutJob, key)] == JobRec(j.(revision := 2))
    ensures ListedJobs(s, c) == [j.(revision := 2)]
  {
    OneRecord(s, KindRolloutJob, Some(c), key);
    var r := JobRec(j.(revision := 2));
    assert [r][1..] == [] && JobsIn([r]) == [r.job] + JobsIn([]);
  }

  lemma OneJobKeys()
    ensures ScanKeys(OneJob(), KindCluster, None) == {"c"} && ScanKeys(OneJob(), KindRolloutJob, Some("c")) == {CKey("c", "w")}
  {
    OneJobStored();
    assert Scanned(CKey("c", "w"), "c");
  }

  lemma OneRecord(s: Store, kind: Kind, cluster: Option<string>, key: string)
    requires Slot(kind, key) in s.db && ScanKeys(s, kind, cluster) == {key}
    ensures ListOf(s, kind, cluster) == [Overlay(s, Slot(kind, key), s.db[Slot(kind, key)])]
    ensures ListOf(s, kind, cluster)[1..] == []
  {
    ListedOne(key);
    assert |ListOf(s, kind, cluster)| == 1;
  }

  /** A pass over one enabled cluster with one due job, as far as its drive. */
  lemma PassToDrive(s: Store, c: Cluster, j: Job, w: X.Answers)
    requires Inv(s) && Enabled(s, c.name) && ListedClusters(s) == [c] && ListedJobs(s, c.name) == [j]
    requires c.rolloutsEnabled && X.Actionable(j.state) && j.kind == TalosJob && w.clientsOk
    ensures var y := Act(Act(Act(Act(Start(s), ExecList), ExecVisit), ExecTake(w)), ExecNext);
            && y.store == PutRollout(s, JobRec(j.(state := JobRunning))).0
            && y.handlers == map[] && y.calls == [] && Calling(y.exec, c.name)
  {
    var y := Start(s);
    Begin(y, c, j, w);
    var y3 := y.(exec := Exec([], Some(c), [], X.DriveCalls(c, j, w.error)));
    PutFirst(y3, c, j, w.error);
  }

  lemma Begin(y: Sys, c: Cluster, j: Job, w: X.Answers)
    requires ListedClusters(y.store) == [c] && ListedJobs(y.store, c.name) == [j]
    requires c.rolloutsEnabled && X.Actionable(j.state) && j.kind == TalosJob && w.clientsOk
    ensures Act(Act(Act(y, ExecList), ExecVisit), ExecTake(w)) == y.(exec := Exec([], Some(c), [], X.DriveCalls(c, j, w.error)))
  {
    ListAgain(y);
    assert [c] + [] == [c];
    Visit(y.(exec := Exec([c], None, [], [])), c, []);
    Take(y.(exec := Exec([], Some(c), [j], [])), c, j, w);
  }

  lemma ListAgain(y: Sys)
    ensures Act(y, ExecList) == y.(exec := Exec(ListedClusters(y.store), None, [], []))
  {
  }

  lemma Take(y: Sys, c: Cluster, j: Job, w: X.Answers)
    requires y.exec == Exec([], Some(c), [j], [])
    requires c.rolloutsEnabled && X.Actionable(j.state) && j.kind == TalosJob && w.clientsOk
    ensures Act(y, ExecTake(w)) == y.(exec := Exec([], Some(c), [], X.DriveCalls(c, j, w.error)))
  {
    assert [j][1..] == [];
  }

  lemma Visit(y: Sys, c: Cluster, rest: seq<Cluster>)
    requires y.exec == Exec([c] + rest, None, [], []) && c.rolloutsEnabled
    ensures Act(y, ExecVisit) == y.(exec := Exec(rest, Some(c), ListedJobs(y.store, c.name), []))
  {
    assert ([c] + rest)[1..] == rest;
  }

  lemma PutFirst(y: Sys, c: Cluster, j: Job, error: Option<string>)
    requires y.exec.queue == X.DriveCalls(c, j, error)
    ensures var y' := Act(y, ExecNext);
            && y'.store == PutRollout(y.store, JobRec(j.(state := JobRunning))).0
            && y'.handlers == y.handlers && y'.calls == y.calls && Calling(y'.exec, c.name)
  {
    assert X.DriveCalls(c, j, error)[1..][0] == X.Drive(c.name, j.pool, j.kind);
  }

  function PassActs(): seq<Action>
  {
    [ExecList, ExecVisit, ExecTake(X.Answers(true, false, false, None)), ExecNext]
  }

  function DisableActs(): seq<Action>
  {
    [Spawn(0, Disable()), Read(0), Write(0), ExecCall]
  }

  lemma DriveReached()
    ensures var y := Acts(Start(OneJob()), PassActs());
            Inv(y.store) && Enabled(y.store, "c") && y.handlers == map[] && y.calls == [] && Calling(y.exec, "c")
  {
    var s, w := OneJob(), X.Answers(true, false, false, None);
    var c, j := EnabledCluster().(revision := 1), PendingJob().(revision := 2);
    OneJobStored();
    OneJobListings();
    DriveFrom(s, c, j, w);
    JobKeepsFlag(s, j.(state := JobRunning), "c");
  }

  lemma DriveFrom(s: Store, c: Cluster, j: Job, w: X.Answers)
    requires Inv(s) && Enabled(s, c.name) && ListedClusters(s) == [c] && ListedJobs(s, c.name) == [j]
    requires c.rolloutsEnabled && X.Actionable(j.state) && j.kind == TalosJob && w == X.Answers(true, false, false, None)
    ensures var y := Acts(Start(s), PassActs());
            && y.store == PutRollout(s, JobRec(j.(state := JobRunning))).0
            && y.handlers == map[] && y.calls == [] && Calling(y.exec, c.name)
  {
    PassToDrive(s, c, j, w);
    ActsFour(Start(s), ExecList, ExecVisit, ExecTake(w), ExecNext, []);
    assert PassActs() + [] == PassActs();
  }

  lemma JobKeepsFlag(s: Store, j: Job, c: string)
    requires Inv(s) && Enabled(s, c)
    ensures Inv(PutRollout(s, JobRec(j)).0) && Enabled(PutRollout(s, JobRec(j)).0, c)
  {
    StepInv(s, OpPutRollout(JobRec(j)));
  }

  lemma DisableThenCall(y: Sys)
    requires Inv(y.store) && Enabled(y.store, "c") && y.handlers == map[] && Calling(y.exec, "c")
    ensures var y' := Acts(y, DisableActs()); !Enabled(y'.store, "c") && y'.calls == y.calls + ["c"]
  {
    CallAfterDisable(y, 0, "c");
    EndOfFour(y, Spawn(0, Disable()), Read(0), Write(0), DisableActs());
    CallKeepsStore(Act(Act(Act(y, Spawn(0, Disable())), Read(0)), Write(0)));
  }

  lemma EndOfFour(y: Sys, a: Action, b: Action, c: Action, all: seq<Action>)
    requires all == [a, b, c, ExecCall]
    ensures Acts(y, all) == Act(Act(Act(Act(y, a), b), c), ExecCall)
  {
    ActsFour(y, a, b, c, ExecCall, []);
    assert all == [a, b, c, ExecCall] + [];
  }

  lemma CallKeepsStore(y: Sys)
    ensures Act(y, ExecCall).store == y.store
  {
  }

  /** The failing run, in full: the pass reaches its drive, the disable commits, and the drive still calls. */
  lemma StaleCallHappens()
    ensures var y := Acts(Start(OneJob()), PassActs() + DisableActs()); !Enabled(y.store, "c") && y.calls == ["c"]
  {
    DriveReached();
    DisableThenCall(Acts(Start(OneJob()), PassActs()));
    ActsConcat(Start(OneJob()), PassActs(), DisableActs());
  }

  lemma {:induction false} ActsConcat(y: Sys, s: seq<Action>, t: seq<Action>)
    ensures Acts(y, s + t) == Acts(Acts(y, s), t)
    decreases |s|
  {
    if s == [] {
      assert s + t == t;
    } else {
      assert (s + t)[1..] == s[1..] + t;
      ActsConcat(Act(y, s[0]), s[1..], t);
    }
  }

  lemma ActsFour(y: Sys, a: Action, b: Action, c: Action, d: Action, rest: seq<Action>)
    ensures Acts(y, [a, b, c, d] + rest) == Acts(Act(Act(Act(Act(y, a), b), c), d), rest)
  {
    var t := [a, b, c, d] + rest;
    assert t[1..][1..][1..][1..] == rest;
    assert t[1..][1..][1..][0] == d && t[1..][1..][0] == c && t[1..][0] == b;
    assert Acts(y, t) == Acts(Act(y, a), t[1..]);
    assert Acts(Act(y, a), t[1..]) == Acts(Act(Act(y, a), b), t[1..][1..]);
    assert Acts(Act(Act(y, a), b), t[1..][1..]) == Acts(Act(Act(Act(y, a), b), c), t[1..][1..][1..]);
  }
}
