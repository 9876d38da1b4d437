/** The job executor: which jobs a pass drives, what it records about them, and what it leaves alone. */
module RolloutExecutor {
  import opened Basics
  import opened Records
  import opened Text

  datatype Key = Key(cluster: string, pool: string)

  datatype Call =
    | PutJob(job: Job)
    | Drive(cluster: string, pool: string, kind: JobKind)  // everything the reconciler does for the job

  /** What building the clients and running the reconciler come to for one job. */
  datatype Answers = Answers(clientsOk: bool, upgraderConfigured: bool, upgraderOk: bool, error: Option<string>)

  predicate Actionable(s: JobState)
  {
    s == JobPending || s == JobRunning
  }

  function KeyOf(j: Job): Key
  {
    Key(j.cluster, j.pool)
  }

  function Finished(j: Job, error: Option<string>): Job
  {
    match error
    case None => j.(state := JobDone, message := "")
    case Some(e) => j.(state := JobFailed, message := e)
  }

  function DriveCalls(c: Cluster, j: Job, error: Option<string>): seq<Call>
  {
    var running := j.(state := JobRunning);
    [PutJob(running), Drive(c.name, j.pool, j.kind), PutJob(Finished(running, error))]
  }

  function JobCalls(c: Cluster, j: Job, w: Answers): seq<Call>
  {
    if !c.rolloutsEnabled || !w.clientsOk then []
    else match j.kind
      case TalosJob => DriveCalls(c, j, w.error)
      case KubernetesJob =>
        if !w.upgraderConfigured then [PutJob(Finished(j, Some("kubernetes upgrader not configured")))]
        else if !w.upgraderOk then []
        else DriveCalls(c, j, w.error)
      case KindUnspecified => [PutJob(Finished(j, Some("unknown rollout kind")))]
  }

  type World = Key -> Answers

  function ClusterCalls(c: Cluster, jobs: seq<Job>, w: World): seq<Call>
  {
    if jobs == [] then []
    else
      (if Actionable(jobs[0].state) then JobCalls(c, jobs[0], w(KeyOf(jobs[0]))) else []) + ClusterCalls(c, jobs[1..], w)
  }

  /** The stored jobs of one cluster, in pool order. */
  ghost function JobsOf(jobs: map<Key, Job>, cluster: string): (js: seq<Job>)
    ensures forall j :: j in js <==> exists k :: k in jobs && k.cluster == cluster && jobs[k] == j
  {
    var pools := Listed(set k | k in jobs && k.cluster == cluster :: k.pool);
    var js := seq(|pools|, i requires 0 <= i < |pools| => assert pools[i] in pools; jobs[Key(cluster, pools[i])]);
    assert forall j :: j in js <==> exists k :: k in jobs && k.cluster == cluster && jobs[k] == j by {
      JobsOfMembers(jobs, cluster, pools, js);
    }
    js
  }

  lemma JobsOfMembers(jobs: map<Key, Job>, cluster: string, pools: seq<string>, js: seq<Job>)
    requires forall p :: p in pools <==> Key(cluster, p) in jobs
    requires |js| == |pools| && forall i :: 0 <= i < |pools| ==> pools[i] in pools && js[i] == jobs[Key(cluster, pools[i])]
    ensures forall j :: j in js <==> exists k :: k in jobs && k.cluster == cluster && jobs[k] == j
  {
    forall k | k in jobs && k.cluster == cluster ensures jobs[k] in js {
      assert k == Key(cluster, k.pool) && k.pool in pools;
      var i :| 0 <= i < |pools| && pools[i] == k.pool;
      assert js[i] == jobs[k];
    }
  }

  /** The whole pass: the listed clusters in order, each with the jobs stored for it when its turn comes. */
  ghost function PassCalls(jobs: map<Key, Job>, clusters: seq<Cluster>, w: World): seq<Call>
    decreases |clusters|
  {
    if clusters == [] then []
    else
      var head := VisitCalls(jobs, clusters[0], w);
      head + PassCalls(JobsAfter(jobs, head), clusters[1..], w)
  }

  ghost function VisitCalls(jobs: map<Key, Job>, c: Cluster, w: World): seq<Call>
  {
    if c.rolloutsEnabled then ClusterCalls(c, JobsOf(jobs, c.name), w) else []
  }

  function JobsAfter(jobs: map<Key, Job>, t: seq<Call>): map<Key, Job>
    decreases |t|
  {
    if t == [] then jobs
    else JobsAfter(if t[0].PutJob? then jobs[KeyOf(t[0].job) := t[0].job] else jobs, t[1..])
  }

  /** A pass goes through its clusters in listing order, and through the jobs of each in the order given. */
  lemma {:induction false} PassInOrder(jobs: map<Key, Job>, a: seq<Cluster>, b: seq<Cluster>, w: World)
    ensures PassCalls(jobs, a + b, w) == PassCalls(jobs, a, w) + PassCalls(JobsAfter(jobs, PassCalls(jobs, a, w)), b, w)
    decreases |a|
  {
    if a == [] {
      assert a + b == b;
    } else {
      var head, after := FirstVisit(jobs, a, w);
      var _, _ := FirstVisit(jobs, a + b, w);
      assert (a + b)[0] == a[0] && (a + b)[1..] == a[1..] + b;
      PassInOrder(after, a[1..], b, w);
      var rest := PassCalls(after, a[1..], w);
      JobsConcat(jobs, head, rest);
      Regrouped(head, rest, PassCalls(JobsAfter(after, rest), b, w));
    }
  }

  lemma FirstVisit(jobs: map<Key, Job>, clusters: seq<Cluster>, w: World) returns (head: seq<Call>, after: map<Key, Job>)
    requires clusters != []
    ensures head == VisitCalls(jobs, clusters[0], w) && after == JobsAfter(jobs, head)
    ensures PassCalls(jobs, clusters, w) == head + PassCalls(after, clusters[1..], w)
  {
    head := VisitCalls(jobs, clusters[0], w);
    after := JobsAfter(jobs, head);
  }

  lemma Regrouped(a: seq<Call>, b: seq<Call>, c: seq<Call>)
    ensures a + (b + c) == (a + b) + c
  {
  }

  lemma {:induction false} JobsInOrder(c: Cluster, a: seq<Job>, b: seq<Job>, w: World)
    ensures ClusterCalls(c, a + b, w) == ClusterCalls(c, a, w) + ClusterCalls(c, b, w)
    decreases |a|
  {
    if a == [] {
      assert a + b == b;
    } else {
      assert (a + b)[0] == a[0] && (a + b)[1..] == a[1..] + b;
      JobsInOrder(c, a[1..], b, w);
    }
  }

  lemma {:induction false} JobsConcat(jobs: map<Key, Job>, s: seq<Call>, t: seq<Call>)
    ensures JobsAfter(jobs, s + t) == JobsAfter(JobsAfter(jobs, s), t)
    decreases |s|
  {
    if s == [] {
      assert s + t == t;
    } else {
      assert (s + t)[1..] == s[1..] + t;
      JobsConcat(if s[0].PutJob? then jobs[KeyOf(s[0].job) := s[0].job] else jobs, s[1..], t);
    }
  }

  /** A driven job ends Done or Failed in its own slot. */
  lemma DriveEffect(jobs: map<Key, Job>, c: Cluster, j: Job, error: Option<string>)
    ensures JobsAfter(jobs, DriveCalls(c, j, error)) ==
              jobs[KeyOf(j) := j.(state := JobRunning)][KeyOf(j) := Finished(j.(state := JobRunning), error)]
  {
    var t := DriveCalls(c, j, error);
    var mid := jobs[KeyOf(j) := j.(state := JobRunning)];
    var last := PutJob(Finished(j.(state := JobRunning), error));
    assert t[1..][1..] == [last];
    assert JobsAfter(jobs, t) == JobsAfter(mid, t[1..]);
    assert JobsAfter(mid, t[1..]) == JobsAfter(mid, [last]);
    assert [last][1..] == [];
    assert JobsAfter(mid, [last]) == JobsAfter(mid[KeyOf(last.job) := last.job], []);
  }

  /** The reconciler is run for the job. */
  predicate Driven(j: Job, w: Answers)
  {
    w.clientsOk && (j.kind == TalosJob || (j.kind == KubernetesJob && w.upgraderConfigured && w.upgraderOk))
  }

  /** The job is given up without running the reconciler. */
  predicate GivenUp(j: Job, w: Answers)
  {
    w.clientsOk && (j.kind == KindUnspecified || (j.kind == KubernetesJob && !w.upgraderConfigured))
  }

  /**
   * What an uncut turn leaves of a job of an enabled cluster: driven, it is Running first and ends Done exactly when the
   * reconciler returned nil, else Failed with its error; given up, it is Failed at once; otherwise it is left as it was.
   */
  lemma JobEnds(jobs: map<Key, Job>, c: Cluster, j: Job, w: Answers)
    requires c.rolloutsEnabled && Key(j.cluster, j.pool) in jobs && jobs[Key(j.cluster, j.pool)] == j
    ensures var t := JobCalls(c, j, w);
            var after := JobsAfter(jobs, t);
            && after.Keys == jobs.Keys && (forall k :: k in jobs && k != Key(j.cluster, j.pool) ==> after[k] == jobs[k])
            && var j' := after[Key(j.cluster, j.pool)];
            && (!Driven(j, w) && !GivenUp(j, w) ==> t == [] && j' == j)
            && (Driven(j, w) ==>
                  && |t| == 3 && t[0] == PutJob(j.(state := JobRunning)) && t[1] == Drive(c.name, j.pool, j.kind) && t[2] == PutJob(j')
                  && (w.error.None? ==> j' == j.(state := JobDone, message := ""))
                  && (w.error.Some? ==> j' == j.(state := JobFailed, message := w.error.value)))
            && (GivenUp(j, w) ==> t == [PutJob(j')] && j'.state == JobFailed && j' == j.(state := JobFailed, message := j'.message))
  {
    if Driven(j, w) {
      DriveEffect(jobs, c, j, w.error);
    } else if GivenUp(j, w) {
      var t := JobCalls(c, j, w);
      assert t[1..] == [] && JobsAfter(jobs, t) == JobsAfter(jobs[KeyOf(j) := t[0].job], []);
    }
  }

  /** What is left of a pass from cluster `i` on: its visit, then the rest over the jobs that leaves. */
  lemma VisitFirst(done: seq<Call>, jobs: map<Key, Job>, clusters: seq<Cluster>, i: nat, w: World)
    requires i < |clusters|
    ensures var head := VisitCalls(jobs, clusters[i], w);
            var after := JobsAfter(jobs, head);
            && done + PassCalls(jobs, clusters[i..], w) == (done + head) + PassCalls(after, clusters[i + 1..], w)
            && JobsAfter(jobs, PassCalls(jobs, clusters[i..], w)) == JobsAfter(after, PassCalls(after, clusters[i + 1..], w))
  {
    assert clusters[i..][0] == clusters[i] && clusters[i..][1..] == clusters[i + 1..];
    var head := VisitCalls(jobs, clusters[i], w);
    HeadThenRest(done, jobs, head, PassCalls(JobsAfter(jobs, head), clusters[i + 1..], w));
  }

  lemma JobFirst(done: seq<Call>, jobs: map<Key, Job>, c: Cluster, js: seq<Job>, i: nat, w: World)
    requires i < |js|
    ensures var head := if Actionable(js[i].state) then JobCalls(c, js[i], w(KeyOf(js[i]))) else [];
            var rest := ClusterCalls(c, js[i + 1..], w);
            && done + ClusterCalls(c, js[i..], w) == (done + head) + rest
            && JobsAfter(jobs, ClusterCalls(c, js[i..], w)) == JobsAfter(JobsAfter(jobs, head), rest)
  {
    assert js[i..][0] == js[i] && js[i..][1..] == js[i + 1..];
    var head, rest := if Actionable(js[i].state) then JobCalls(c, js[i], w(KeyOf(js[i]))) else [], ClusterCalls(c, js[i + 1..], w);
    assert ClusterCalls(c, js[i..], w) == head + rest;
    HeadThenRest(done, jobs, head, rest);
  }

  lemma HeadThenRest(done: seq<Call>, jobs: map<Key, Job>, head: seq<Call>, rest: seq<Call>)
    ensures done + (head + rest) == (done + head) + rest
    ensures JobsAfter(jobs, head + rest) == JobsAfter(JobsAfter(jobs, head), rest)
  {
    JobsConcat(jobs, head, rest);
  }

  class Executor {
    var jobs: map<Key, Job>  // the job records
    var calls: seq<Call>

    twostate predicate Made(t: seq<Call>)
      reads this
    {
      calls == old(calls) + t && jobs == JobsAfter(old(jobs), t)
    }

    constructor (jobs: map<Key, Job>)
      ensures this.jobs == jobs && calls == []
    {
      this.jobs, calls := jobs, [];
    }

    method Put(j: Job)
      modifies this
      ensures calls == old(calls) + [PutJob(j)] && jobs == old(jobs)[KeyOf(j) := j]
    {
      jobs := jobs[KeyOf(j) := j];
      calls := calls + [PutJob(j)];
    }

    method Finish(j: Job, state: JobState, message: string)
      modifies this
      ensures calls == old(calls) + [PutJob(j.(state := state, message := message))]
      ensures jobs == old(jobs)[KeyOf(j) := j.(state := state, message := message)]
    {
      Put(j.(state := state, message := message));
    }

    method DriveJob(c: Cluster, j: Job, error: Option<string>)
      modifies this
      ensures Made(DriveCalls(c, j, error))
    {
      DriveEffect(jobs, c, j, error);
      var running := j.(state := JobRunning);
      Put(running);
      calls := calls + [Drive(c.name, j.pool, j.kind)];
      if error.Some? {
        Finish(running, JobFailed, error.value);
      } else {
        Finish(running, JobDone, "");
      }
    }

    method RunJob(c: Cluster, j: Job, w: Answers)
      modifies this
      ensures Made(JobCalls(c, j, w))
    {
      if !c.rolloutsEnabled {
        return;
      }
      if !w.clientsOk {
        return;
      }
      match j.kind {
        case TalosJob =>
          DriveJob(c, j, w.error);
        case KubernetesJob =>
          if !w.upgraderConfigured {
            Finish(j, JobFailed, "kubernetes upgrader not configured");
            assert JobCalls(c, j, w)[1..] == [];
            return;
          }
          if !w.upgraderOk {
            return;
          }
          DriveJob(c, j, w.error);
        case KindUnspecified =>
          Finish(j, JobFailed, "unknown rollout kind");
          assert JobCalls(c, j, w)[1..] == [];
      }
    }

    method RunCluster(c: Cluster, js: seq<Job>, w: World)
      requires c.rolloutsEnabled
      modifies this
      ensures Made(ClusterCalls(c, js, w))
    {
      ghost var all := ClusterCalls(c, js, w);
      for i := 0 to |js|
        invariant calls + ClusterCalls(c, js[i..], w) == old(calls) + all
        invariant JobsAfter(jobs, ClusterCalls(c, js[i..], w)) == JobsAfter(old(jobs), all)
      {
        JobFirst(calls, jobs, c, js, i, w);
        if !Actionable(js[i].state) {
          continue;
        }
        RunJob(c, js[i], w(KeyOf(js[i])));
      }
      assert js[|js|..] == [];
    }

    /** The stored jobs of a cluster, in pool order. */
    method ListJobs(cluster: string) returns (js: seq<Job>)
      ensures js == JobsOf(jobs, cluster)
    {
      var todo, pools := set k | k in jobs && k.cluster == cluster, [];
      while todo != {}
        invariant todo <= jobs.Keys && Ascending(pools) && forall k :: k in todo ==> k.cluster == cluster
        invariant forall p :: p in pools <==> Key(cluster, p) in jobs && Key(cluster, p) !in todo
      {
        var k :| k in todo;
        InsertAscending(k.pool, pools);
        forall x ensures x in Insert(k.pool, pools) <==> x == k.pool || x in pools { InsertMembers(k.pool, pools, x); }
        pools := Insert(k.pool, pools);
        todo := todo - {k};
      }
      AscendingUnique(pools, Listed(set k | k in jobs && k.cluster == cluster :: k.pool));
      js := [];
      for i := 0 to |pools|
        invariant |js| == i && forall n :: 0 <= n < i ==> pools[n] in pools && js[n] == jobs[Key(cluster, pools[n])]
      {
        assert pools[i] in pools;
        js := js + [jobs[Key(cluster, pools[i])]];
      }
    }

    /** Every actionable job of every enabled cluster in the listing. */
    method RunOnce(clusters: seq<Cluster>, w: World)
      modifies this
      ensures Made(PassCalls(old(jobs), clusters, w))
    {
      ghost var all := PassCalls(jobs, clusters, w);
      for i := 0 to |clusters|
        invariant calls + PassCalls(jobs, clusters[i..], w) == old(calls) + all
        invariant JobsAfter(jobs, PassCalls(jobs, clusters[i..], w)) == JobsAfter(old(jobs), all)
      {
        VisitFirst(calls, jobs, clusters, i, w);
        if !clusters[i].rolloutsEnabled {
          continue;
        }
        var js := ListJobs(clusters[i].name);
        RunCluster(clusters[i], js, w);
      }
      assert clusters[|clusters|..] == [];
    }
  }

  // ----- what a pass may touch -----

  function SubjectOf(x: Call): Key
  {
    if x.PutJob? then KeyOf(x.job) else Key(x.cluster, x.pool)
  }

  /** Every job sits under its own key. */
  ghost predicate KeyedJobs(jobs: map<Key, Job>)
  {
    forall k :: k in jobs ==> KeyOf(jobs[k]) == k
  }

  /** `k` names an actionable stored job. */
  ghost predicate Due(jobs: map<Key, Job>, k: Key)
  {
    k in jobs && Actionable(jobs[k].state)
  }

  ghost predicate EnabledIn(clusters: seq<Cluster>, name: string)
  {
    exists c :: c in clusters && c.rolloutsEnabled && c.name == name
  }

  lemma {:induction false} ClusterSubjects(c: Cluster, js: seq<Job>, w: World, x: Call)
    requires x in ClusterCalls(c, js, w) && forall j :: j in js ==> j.cluster == c.name
    ensures exists j :: j in js && Actionable(j.state) && KeyOf(j) == SubjectOf(x)
    ensures x.PutJob? ==> x.job.state in {JobRunning, JobDone, JobFailed}
    decreases |js|
  {
    var head := if Actionable(js[0].state) then JobCalls(c, js[0], w(KeyOf(js[0]))) else [];
    assert js[0] in js;
    if x in head {
      assert KeyOf(js[0]) == SubjectOf(x);
    } else {
      ClusterSubjects(c, js[1..], w, x);
    }
  }

  /** One visit: only due jobs of an enabled cluster. */
  lemma VisitSubjects(jobs: map<Key, Job>, c: Cluster, w: World, x: Call)
    requires KeyedJobs(jobs) && x in VisitCalls(jobs, c, w)
    ensures c.rolloutsEnabled && SubjectOf(x).cluster == c.name && Due(jobs, SubjectOf(x))
    ensures x.PutJob? ==> x.job.state in {JobRunning, JobDone, JobFailed}
  {
    var js := JobsOf(jobs, c.name);
    ClusterSubjects(c, js, w, x);
    var j :| j in js && Actionable(j.state) && KeyOf(j) == SubjectOf(x);
  }

  lemma {:induction false} KeyedKept(jobs: map<Key, Job>, t: seq<Call>)
    requires KeyedJobs(jobs)
    ensures KeyedJobs(JobsAfter(jobs, t))
    decreases |t|
  {
    if t != [] { KeyedKept(if t[0].PutJob? then jobs[KeyOf(t[0].job) := t[0].job] else jobs, t[1..]); }
  }

  lemma {:induction false} UntouchedJob(jobs: map<Key, Job>, t: seq<Call>, k: Key)
    requires forall x :: x in t ==> SubjectOf(x) != k
    ensures (k in JobsAfter(jobs, t) <==> k in jobs) && (k in jobs ==> JobsAfter(jobs, t)[k] == jobs[k])
    decreases |t|
  {
    if t != [] {
      assert t[0] in t;
      UntouchedJob(if t[0].PutJob? then jobs[KeyOf(t[0].job) := t[0].job] else jobs, t[1..], k);
    }
  }

  /** Every call of a pass is about a job that was due when the pass began, of a cluster its listing shows enabled. */
  lemma {:induction false} PassSubjects(jobs: map<Key, Job>, clusters: seq<Cluster>, w: World, x: Call)
    requires KeyedJobs(jobs) && x in PassCalls(jobs, clusters, w)
    ensures Due(jobs, SubjectOf(x)) && EnabledIn(clusters, SubjectOf(x).cluster)
    ensures x.PutJob? ==> x.job.state in {JobRunning, JobDone, JobFailed}
    decreases |clusters|
  {
    var c, head := clusters[0], VisitCalls(jobs, clusters[0], w);
    assert c in clusters;
    if x in head {
      VisitSubjects(jobs, c, w, x);
    } else {
      KeyedKept(jobs, head);
      PassSubjects(JobsAfter(jobs, head), clusters[1..], w, x);
      DueBefore(jobs, c, w, SubjectOf(x));
    }
  }

  /** A visit makes no job due that was not. */
  lemma DueBefore(jobs: map<Key, Job>, c: Cluster, w: World, k: Key)
    requires KeyedJobs(jobs) && Due(JobsAfter(jobs, VisitCalls(jobs, c, w)), k)
    ensures Due(jobs, k)
  {
    var head := VisitCalls(jobs, c, w);
    if !Due(jobs, k) {
      forall x | x in head ensures SubjectOf(x) != k { VisitSubjects(jobs, c, w, x); }
      UntouchedJob(jobs, head, k);
    }
  }

  /**
   * However a pass is cut: a job that is not stored Pending or Running, or whose cluster the listing shows
   * disabled or not at all, is neither driven nor changed.
   */
  lemma PassLeavesAlone(jobs: map<Key, Job>, clusters: seq<Cluster>, w: World, cut: nat, k: Key)
    requires KeyedJobs(jobs) && cut <= |PassCalls(jobs, clusters, w)| && !(Due(jobs, k) && EnabledIn(clusters, k.cluster))
    ensures var t := PassCalls(jobs, clusters, w)[..cut];
            && (k in JobsAfter(jobs, t) <==> k in jobs) && (k in jobs ==> JobsAfter(jobs, t)[k] == jobs[k])
            && forall x :: x in t ==> SubjectOf(x) != k
  {
    var t := PassCalls(jobs, clusters, w)[..cut];
    forall x | x in t ensures SubjectOf(x) != k { PassSubjects(jobs, clusters, w, x); }
    UntouchedJob(jobs, t, k);
  }
}
