/**
 * One Talos job over its whole life: the executor's job writes around the reconciler's calls, turn after
 * turn, each turn cut anywhere. How often the job is driven, and how often that upgrades a node.
 */
module JobRollout {
  import opened Basics
  import opened Kube
  import opened Records
  import opened Rollout
  import opened RolloutModel
  import opened RolloutTheorems
  import X = RolloutExecutor

  datatype Event = JobWrite(job: Job) | NodeCall(call: Call)

  /** What persists: the job's record and the records of its nodes. */
  datatype Progress = Progress(job: Job, recs: Recs)

  /** One executor pass as the job sees it: the cluster listed, whether clients could be built, the drive, the cut. */
  datatype Turn = Turn(cluster: Cluster, clientsOk: bool, input: PassInput, message: string, cut: nat)

  function ErrorOf(v: Verdict, message: string): Option<string>
  {
    if ReturnsNil(v) then None else Some(message)
  }

  function NodeCalls(t: seq<Call>): (es: seq<Event>)
    ensures |es| == |t| && forall i :: 0 <= i < |t| ==> es[i] == NodeCall(t[i])
  {
    seq(|t|, i requires 0 <= i < |t| => NodeCall(t[i]))
  }

  /** The executor's calls with its drive spelled out. */
  function Spelled(xs: seq<X.Call>, t: seq<Call>): seq<Event>
  {
    if xs == [] then []
    else (if xs[0].PutJob? then [JobWrite(xs[0].job)] else NodeCalls(t)) + Spelled(xs[1..], t)
  }

  function TurnEvents(s: Progress, n: Turn): seq<Event>
  {
    if !X.Actionable(s.job.state) then []
    else
      var error := ErrorOf(ReconcileVerdict(n.input, s.recs), n.message);
      Spelled(X.JobCalls(n.cluster, s.job, X.Answers(n.clientsOk, false, false, error)), ReconcileCalls(n.input, s.recs))
  }

  function Taken(s: Progress, n: Turn): seq<Event>
  {
    var es := TurnEvents(s, n);
    if n.cut < |es| then es[..n.cut] else es
  }

  function Applied(s: Progress, e: Event): Progress
  {
    match e
    case JobWrite(j) => s.(job := j)
    case NodeCall(c) => s.(recs := Recorded(s.recs, c))
  }

  function After(s: Progress, es: seq<Event>): Progress
    decreases |es|
  {
    if es == [] then s else After(Applied(s, es[0]), es[1..])
  }

  /** Every event of a run of turns, in order. */
  function Run(s: Progress, turns: seq<Turn>): seq<Event>
    decreases |turns|
  {
    if turns == [] then [] else Taken(s, turns[0]) + Run(After(s, Taken(s, turns[0])), turns[1..])
  }

  function StateAt(s: Progress, turns: seq<Turn>, k: nat): Progress
    requires k <= |turns|
    decreases k
  {
    if k == 0 then s else StateAt(After(s, Taken(s, turns[0])), turns[1..], k - 1)
  }

  // ----- the shape of one turn -----

  /** The cluster is enabled in the listing and its clients can be built. */
  predicate On(n: Turn)
  {
    n.cluster.rolloutsEnabled && n.clientsOk
  }

  predicate Live(s: Progress)
  {
    s.job.kind == TalosJob && X.Actionable(s.job.state)
  }

  function Running(j: Job): Job
  {
    j.(state := JobRunning)
  }

  function Ended(s: Progress, n: Turn): Job
  {
    X.Finished(Running(s.job), ErrorOf(ReconcileVerdict(n.input, s.recs), n.message))
  }

  /** A live job under an enabled cluster: Running, the reconciler's calls, Done or Failed. Otherwise nothing. */
  lemma TurnShape(s: Progress, n: Turn)
    requires s.job.kind == TalosJob
    ensures TurnEvents(s, n) ==
              if Live(s) && On(n)
              then [JobWrite(Running(s.job))] + NodeCalls(ReconcileCalls(n.input, s.recs)) + [JobWrite(Ended(s, n))]
              else []
  {
    if Live(s) && On(n) {
      var t, error := ReconcileCalls(n.input, s.recs), ErrorOf(ReconcileVerdict(n.input, s.recs), n.message);
      SpelledDrive(n.cluster, s.job, error, t);
    }
  }

  lemma SpelledDrive(c: Cluster, j: Job, error: Option<string>, t: seq<Call>)
    ensures Spelled(X.DriveCalls(c, j, error), t) == [JobWrite(Running(j))] + NodeCalls(t) + [JobWrite(X.Finished(Running(j), error))]
  {
    var xs := X.DriveCalls(c, j, error);
    var last := X.PutJob(X.Finished(Running(j), error));
    assert xs[1..][1..] == [last] && [last][1..] == [];
    assert Spelled([last], t) == [JobWrite(last.job)] + Spelled([], t);
    assert Spelled(xs[1..], t) == NodeCalls(t) + Spelled([last], t);
  }

  lemma AfterCons(s: Progress, e: Event, es: seq<Event>)
    ensures After(s, [e] + es) == After(Applied(s, e), es)
  {
    assert ([e] + es)[1..] == es;
  }

  lemma {:induction false} AfterCalls(s: Progress, t: seq<Call>, es: seq<Event>)
    ensures After(s, NodeCalls(t) + es) == After(s.(recs := RecsAfter(s.recs, t)), es)
    decreases |t|
  {
    if t == [] {
      assert NodeCalls(t) + es == es;
    } else {
      assert NodeCalls(t) + es == [NodeCall(t[0])] + (NodeCalls(t[1..]) + es);
      AfterCons(s, NodeCall(t[0]), NodeCalls(t[1..]) + es);
      AfterCalls(s.(recs := Recorded(s.recs, t[0])), t[1..], es);
    }
  }

  /** The turn got as far as its final job write. */
  predicate Finishes(s: Progress, n: Turn)
  {
    Live(s) && On(n) && n.cut >= |TurnEvents(s, n)|
  }

  /** The turn got as far as its first job write. */
  predicate Drives(s: Progress, n: Turn)
  {
    Taken(s, n) != []
  }

  /** The node calls a turn got to. */
  function Pass(n: Turn): CutPass
  {
    CutPass(n.input, if n.cut == 0 then 0 else n.cut - 1)
  }

  /** What a turn leaves: nothing changed, a Running job, or a Done or Failed one. */
  lemma TurnEffect(s: Progress, n: Turn)
    requires s.job.kind == TalosJob
    ensures Drives(s, n) <==> Live(s) && On(n) && n.cut > 0
    ensures After(s, Taken(s, n)) ==
              if !Drives(s, n) then s
              else Progress(if Finishes(s, n) then Ended(s, n) else Running(s.job), RecsAfter(s.recs, Cut(Pass(n), s.recs)))
    ensures Drives(s, n) ==>
              Taken(s, n) == [JobWrite(Running(s.job))] + NodeCalls(Cut(Pass(n), s.recs)) + (if Finishes(s, n) then [JobWrite(Ended(s, n))] else [])
  {
    TurnShape(s, n);
    if Live(s) && On(n) && n.cut > 0 {
      var t, first, last := ReconcileCalls(n.input, s.recs), JobWrite(Running(s.job)), JobWrite(Ended(s, n));
      var es, c := TurnEvents(s, n), Cut(Pass(n), s.recs);
      var tail := if Finishes(s, n) then [last] else [];
      if Finishes(s, n) {
        assert es == [first] + NodeCalls(t) + [last];
      } else {
        assert c == t[..n.cut - 1] by { if n.cut - 1 == |t| { assert t[..|t|] == t; } }
        assert es[..n.cut] == [first] + NodeCalls(c);
      }
      assert Taken(s, n) == [first] + NodeCalls(c) + tail;
      assert [first] + NodeCalls(c) + tail == [first] + (NodeCalls(c) + tail);
      AfterCons(s, first, NodeCalls(c) + tail);
      AfterCalls(s.(job := Running(s.job)), c, tail);
      if tail != [] { assert [last] == [last] + []; AfterCons(s.(job := Running(s.job), recs := RecsAfter(s.recs, c)), last, []); }
    }
  }

  /** A live job stays live exactly when the turn does not finish; a dead one stays dead. */
  lemma LiveAfter(s: Progress, n: Turn)
    requires s.job.kind == TalosJob
    ensures var s' := After(s, Taken(s, n)); s'.job.kind == TalosJob && (Live(s') <==> Live(s) && !Finishes(s, n))
  {
    TurnEffect(s, n);
    TurnShape(s, n);
  }

  /**
   * The last thing an uncut turn of a live job does is write it Done if its pass returned nil and Failed if not; what it
   * is about is not changed. And its first write says Running.
   */
  lemma LastWriteTellsVerdict(s: Progress, n: Turn)
    requires s.job.kind == TalosJob && Finishes(s, n)
    ensures var es, nil := Taken(s, n), ReturnsNil(ReconcileVerdict(n.input, s.recs));
            && |es| >= 2 && es[0] == JobWrite(s.job.(state := JobRunning))
            && es[|es| - 1] == JobWrite(if nil then s.job.(state := JobDone, message := "") else s.job.(state := JobFailed, message := n.message))
            && After(s, es).job == es[|es| - 1].job
  {
    TurnEffect(s, n);
    TurnShape(s, n);
  }

  // ----- when a job is driven -----

  /** The turn finds the cluster enabled and its clients built, and gets to its first write. */
  predicate Starts(n: Turn)
  {
    On(n) && n.cut > 0
  }

  /** Turn `k` drives the job exactly when the job was live, the turn starts, and no earlier turn reached its final job write. */
  lemma DriveIff(s: Progress, turns: seq<Turn>, k: nat)
    requires s.job.kind == TalosJob && k < |turns|
    ensures Drives(StateAt(s, turns, k), turns[k]) <==> Live(s) && Starts(turns[k]) && NoneFinished(s, turns, k)
  {
    LiveIff(s, turns, k);
    FirstDrive(StateAt(s, turns, k), turns[k]);
  }

  lemma {:induction false} LiveIff(s: Progress, turns: seq<Turn>, k: nat)
    requires s.job.kind == TalosJob && k <= |turns|
    ensures StateAt(s, turns, k).job.kind == TalosJob
    ensures Live(StateAt(s, turns, k)) <==> Live(s) && NoneFinished(s, turns, k)
    decreases k
  {
    if k > 0 {
      var s' := NextState(s, turns, k);
      LiveIff(s', turns[1..], k - 1);
    }
  }

  lemma NextState(s: Progress, turns: seq<Turn>, k: nat) returns (s': Progress)
    requires s.job.kind == TalosJob && 0 < k <= |turns|
    ensures s'.job.kind == TalosJob && (Live(s') <==> Live(s) && !Finishes(s, turns[0]))
    ensures StateAt(s, turns, k) == StateAt(s', turns[1..], k - 1)
    ensures NoneFinished(s, turns, k) <==> !Finishes(s, turns[0]) && NoneFinished(s', turns[1..], k - 1)
  {
    s' := After(s, Taken(s, turns[0]));
    LiveAfter(s, turns[0]);
    FinishShift(s, turns, k);
  }

  lemma FirstDrive(s: Progress, n: Turn)
    requires s.job.kind == TalosJob
    ensures Drives(s, n) <==> Live(s) && Starts(n)
  {
    TurnEffect(s, n);
  }

  ghost predicate NoneFinished(s: Progress, turns: seq<Turn>, k: nat)
    requires k <= |turns|
  {
    forall i :: 0 <= i < k ==> !Finishes(StateAt(s, turns, i), turns[i])
  }

  lemma FinishShift(s: Progress, turns: seq<Turn>, k: nat)
    requires 0 < k <= |turns|
    ensures var s', rest := After(s, Taken(s, turns[0])), turns[1..];
            && StateAt(s, turns, k) == StateAt(s', rest, k - 1)
            && (NoneFinished(s, turns, k) <==> !Finishes(s, turns[0]) && NoneFinished(s', rest, k - 1))
  {
    var s', rest := After(s, Taken(s, turns[0])), turns[1..];
    assert StateAt(s, turns, 0) == s;
    assert forall i :: 1 <= i < k ==> StateAt(s, turns, i) == StateAt(s', rest, i - 1) && turns[i] == rest[i - 1];
    assert forall i :: 0 <= i < k - 1 ==> StateAt(s', rest, i) == StateAt(s, turns, i + 1) && rest[i] == turns[i + 1];
  }

  ghost predicate DrivenTwice(s: Progress, turns: seq<Turn>)
  {
    exists j, k :: 0 <= j < k < |turns| && Drives(StateAt(s, turns, j), turns[j]) && Drives(StateAt(s, turns, k), turns[k])
  }

  /**
   * A job is driven a second time if and only if some turn that started it was cut before its final job
   * write, and a later turn again finds the cluster enabled and the clients built, no turn in between
   * having reached that write.
   */
  lemma SecondDriveIff(s: Progress, turns: seq<Turn>)
    requires Live(s)
    ensures DrivenTwice(s, turns) <==>
              exists j, k :: 0 <= j < k < |turns| && Starts(turns[j]) && Starts(turns[k]) && NoneFinished(s, turns, k)
  {
    if j, k :| 0 <= j < k < |turns| && Drives(StateAt(s, turns, j), turns[j]) && Drives(StateAt(s, turns, k), turns[k]) {
      DriveIff(s, turns, j);
      DriveIff(s, turns, k);
      assert Starts(turns[j]) && Starts(turns[k]);
    }
    if j, k :| 0 <= j < k < |turns| && Starts(turns[j]) && Starts(turns[k]) && NoneFinished(s, turns, k) {
      DriveIff(s, turns, j);
      DriveIff(s, turns, k);
      assert DrivenTwice(s, turns);
    }
  }

  // ----- how often a node is upgraded under one job -----

  predicate SameUpgrade(e: Event, f: Event)
  {
    e.NodeCall? && f.NodeCall? && e.call.UpgradeOS? && f.call.UpgradeOS? && e.call.addr == f.call.addr
  }

  ghost predicate UpgradesOnce(es: seq<Event>)
  {
    forall i, j :: 0 <= i < j < |es| ==> !SameUpgrade(es[i], es[j])
  }

  ghost predicate AllDistinct(turns: seq<Turn>)
  {
    forall i :: 0 <= i < |turns| ==> DistinctMembers(turns[i].input)
  }

  /** One turn, cut anywhere, upgrades no node twice. */
  lemma TurnUpgradesOnce(s: Progress, n: Turn)
    requires s.job.kind == TalosJob && DistinctMembers(n.input)
    ensures UpgradesOnce(Taken(s, n))
  {
    TurnEffect(s, n);
    if Drives(s, n) {
      var t := Cut(Pass(n), s.recs);
      forall i: nat, j: nat | i < j < |t| && t[i].UpgradeOS? && t[j].UpgradeOS? ensures t[i].addr != t[j].addr {
        PassUpgradesOnce(Pass(n), s.recs, i, j);
      }
      WordUpgradesOnce(JobWrite(Running(s.job)), t, if Finishes(s, n) then [JobWrite(Ended(s, n))] else []);
    }
  }

  lemma WordUpgradesOnce(first: Event, t: seq<Call>, tail: seq<Event>)
    requires first.JobWrite? && forall i :: 0 <= i < |tail| ==> tail[i].JobWrite?
    requires forall i: nat, j: nat :: i < j < |t| && t[i].UpgradeOS? && t[j].UpgradeOS? ==> t[i].addr != t[j].addr
    ensures UpgradesOnce([first] + NodeCalls(t) + tail)
  {
    var es := [first] + NodeCalls(t) + tail;
    forall i, j | 0 <= i < j < |es| ensures !SameUpgrade(es[i], es[j]) {
      if 1 <= i && j <= |t| { assert es[i] == NodeCall(t[i - 1]) && es[j] == NodeCall(t[j - 1]); }
    }
  }

  lemma {:induction false} NothingWithoutDrive(s: Progress, turns: seq<Turn>)
    requires s.job.kind == TalosJob && forall k :: 0 <= k < |turns| ==> !Drives(StateAt(s, turns, k), turns[k])
    ensures Run(s, turns) == []
    decreases |turns|
  {
    if turns != [] {
      TurnEffect(s, turns[0]);
      assert !Drives(StateAt(s, turns, 0), turns[0]);
      assert forall k :: 0 <= k < |turns| - 1 ==> StateAt(s, turns[1..], k) == StateAt(s, turns, k + 1) && turns[1..][k] == turns[k + 1];
      NothingWithoutDrive(s, turns[1..]);
    }
  }

  /** A job that is not driven twice upgrades each node at most once. */
  lemma {:induction false} DrivenOnce(s: Progress, turns: seq<Turn>)
    requires s.job.kind == TalosJob && AllDistinct(turns) && !DrivenTwice(s, turns)
    ensures UpgradesOnce(Run(s, turns))
    decreases |turns|
  {
    if turns != [] {
      var n, rest := turns[0], turns[1..];
      var s' := After(s, Taken(s, n));
      TurnEffect(s, n);
      assert StateAt(s, turns, 0) == s;
      assert forall k :: 0 <= k < |rest| ==> StateAt(s', rest, k) == StateAt(s, turns, k + 1) && rest[k] == turns[k + 1];
      if Drives(s, n) {
        NothingWithoutDrive(s', rest);
        TurnUpgradesOnce(s, n);
        assert Run(s, turns) == Taken(s, n);
      } else {
        DrivenOnce(s', rest);
        assert Run(s, turns) == Run(s', rest);
      }
    }
  }

  /** Every turn that drives the job reaches its final job write. */
  ghost predicate NeverCut(s: Progress, turns: seq<Turn>)
  {
    forall k :: 0 <= k < |turns| && Drives(StateAt(s, turns, k), turns[k]) ==> Finishes(StateAt(s, turns, k), turns[k])
  }

  /**
   * At most one upgrade per node and job: it holds when no drive is cut before its final job write, and
   * whenever it fails the job was driven twice, which `SecondDriveIff` characterises.
   */
  lemma OneUpgradePerJob(s: Progress, turns: seq<Turn>)
    requires Live(s) && AllDistinct(turns)
    ensures NeverCut(s, turns) ==> UpgradesOnce(Run(s, turns))
    ensures !UpgradesOnce(Run(s, turns)) ==> DrivenTwice(s, turns)
  {
    if !DrivenTwice(s, turns) { DrivenOnce(s, turns); }
    if NeverCut(s, turns) && DrivenTwice(s, turns) {
      var j, k :| 0 <= j < k < |turns| && Drives(StateAt(s, turns, j), turns[j]) && Drives(StateAt(s, turns, k), turns[k]);
      DriveIff(s, turns, k);
    }
  }

  // ----- the node calls of a job's turns are a run of cut passes -----

  function CallsIn(es: seq<Event>): seq<Call>
  {
    if es == [] then [] else (if es[0].NodeCall? then [es[0].call] else []) + CallsIn(es[1..])
  }

  lemma {:induction false} CallsConcat(s: seq<Event>, t: seq<Event>)
    ensures CallsIn(s + t) == CallsIn(s) + CallsIn(t)
    decreases |s|
  {
    if s == [] {
      assert s + t == t;
    } else {
      var head := if s[0].NodeCall? then [s[0].call] else [];
      assert (s + t)[0] == s[0] && (s + t)[1..] == s[1..] + t;
      CallsConcat(s[1..], t);
      assert head + (CallsIn(s[1..]) + CallsIn(t)) == (head + CallsIn(s[1..])) + CallsIn(t);
    }
  }

  lemma {:induction false} CallsOfCalls(t: seq<Call>)
    ensures CallsIn(NodeCalls(t)) == t
    decreases |t|
  {
    if t != [] {
      assert NodeCalls(t)[1..] == NodeCalls(t[1..]);
      CallsOfCalls(t[1..]);
    }
  }

  /** The turns that drive, as cut passes. */
  function Passes(s: Progress, turns: seq<Turn>): seq<CutPass>
    decreases |turns|
  {
    if turns == [] then []
    else (if Drives(s, turns[0]) then [Pass(turns[0])] else []) + Passes(After(s, Taken(s, turns[0])), turns[1..])
  }

  lemma TurnCalls(s: Progress, n: Turn)
    requires s.job.kind == TalosJob
    ensures CallsIn(Taken(s, n)) == if Drives(s, n) then Cut(Pass(n), s.recs) else []
  {
    TurnEffect(s, n);
    if Drives(s, n) {
      var first, calls := [JobWrite(Running(s.job))], NodeCalls(Cut(Pass(n), s.recs));
      var last := if Finishes(s, n) then [JobWrite(Ended(s, n))] else [];
      CallsConcat(first + calls, last);
      CallsConcat(first, calls);
      CallsOfCalls(Cut(Pass(n), s.recs));
      assert first[1..] == [] && (last != [] ==> last[1..] == []);
    }
  }

  /** So every theorem about runs of cut passes is one about jobs. */
  lemma {:induction false} RunIsPasses(s: Progress, turns: seq<Turn>)
    requires s.job.kind == TalosJob
    ensures CallsIn(Run(s, turns)) == RunCalls(s.recs, Passes(s, turns))
    decreases |turns|
  {
    if turns != [] {
      var s', taken := After(s, Taken(s, turns[0])), Taken(s, turns[0]);
      TurnEffect(s, turns[0]);
      TurnCalls(s, turns[0]);
      RunIsPasses(s', turns[1..]);
      CallsConcat(taken, Run(s', turns[1..]));
      if Drives(s, turns[0]) {
        var passes := Passes(s, turns);
        assert passes[0] == Pass(turns[0]) && passes[1..] == Passes(s', turns[1..]);
      } else {
        assert Passes(s, turns) == Passes(s', turns[1..]) && Run(s, turns) == Run(s', turns[1..]);
      }
    }
  }

  // ----- what lies between two upgrades of a node under one job -----

  function Pos(es: seq<Event>, i: nat): nat
    requires i <= |es|
  {
    |CallsIn(es[..i])|
  }

  lemma CallAt(es: seq<Event>, i: nat)
    requires i < |es| && es[i].NodeCall?
    ensures Pos(es, i) < |CallsIn(es)| && CallsIn(es)[Pos(es, i)] == es[i].call
  {
    assert es == es[..i] + es[i..];
    CallsConcat(es[..i], es[i..]);
    assert es[i..][0] == es[i];
  }

  lemma PosMono(es: seq<Event>, i: nat, j: nat)
    requires i < j <= |es| && es[i].NodeCall?
    ensures Pos(es, i) < Pos(es, j)
  {
    assert es[..j] == es[..i] + es[i..j] && es[i..j][0] == es[i];
    CallsConcat(es[..i], es[i..j]);
  }

  lemma {:induction false} EventAt(es: seq<Event>, k: nat) returns (e: nat)
    requires k < |CallsIn(es)|
    ensures e < |es| && es[e].NodeCall? && Pos(es, e) == k && es[e].call == CallsIn(es)[k]
    decreases |es|
  {
    if es[0].NodeCall? && k == 0 {
      e := 0;
    } else {
      var r := EventAt(es[1..], if es[0].NodeCall? then k - 1 else k);
      e := r + 1;
      assert es[..e][0] == es[0] && es[..e][1..] == es[1..][..r];
    }
  }

  lemma {:induction false} PassesDistinct(s: Progress, turns: seq<Turn>)
    requires AllDistinct(turns)
    ensures forall n :: 0 <= n < |Passes(s, turns)| ==> DistinctMembers(Passes(s, turns)[n].input)
    decreases |turns|
  {
    if turns != [] { PassesDistinct(After(s, Taken(s, turns[0])), turns[1..]); }
  }

  /** One turn of a run: what it got to, and whether that includes its final job write. */
  datatype Block = Block(events: seq<Event>, finished: bool)

  function BlockOf(s: Progress, n: Turn): Block
  {
    Block(Taken(s, n), Finishes(s, n))
  }

  function Blocks(s: Progress, turns: seq<Turn>): seq<Block>
    decreases |turns|
  {
    if turns == [] then [] else [BlockOf(s, turns[0])] + Blocks(After(s, Taken(s, turns[0])), turns[1..])
  }

  function Flat(bs: seq<Block>): seq<Event>
    decreases |bs|
  {
    if bs == [] then [] else bs[0].events + Flat(bs[1..])
  }

  lemma {:induction false} RunIsBlocks(s: Progress, turns: seq<Turn>)
    ensures Flat(Blocks(s, turns)) == Run(s, turns)
    decreases |turns|
  {
    if turns != [] {
      var b, rest := BlockOf(s, turns[0]), Blocks(After(s, Taken(s, turns[0])), turns[1..]);
      assert ([b] + rest)[1..] == rest;
      RunIsBlocks(After(s, Taken(s, turns[0])), turns[1..]);
    }
  }

  /** Event `m` is the last of its turn, and the turn did not reach its final job write. */
  ghost predicate CutRightAfter(bs: seq<Block>, m: nat)
    decreases |bs|
  {
    bs != [] &&
    if m < |bs[0].events| then m == |bs[0].events| - 1 && !bs[0].finished else CutRightAfter(bs[1..], m - |bs[0].events|)
  }

  predicate RecordsFailed(e: Event)
  {
    e.NodeCall? && e.call.SetState? && e.call.state == Failed
  }

  predicate Upgrades(e: Event)
  {
    e.NodeCall? && e.call.UpgradeOS?
  }

  /** At `r` the node upgraded at `j` was read at another version than it is then upgraded to; until `j` no Done. */
  ghost predicate ReadBehind(es: seq<Event>, r: nat, j: nat)
    requires j < |es| && es[j].NodeCall?
  {
    var a := es[j].call.addr;
    && r + 2 < j && es[r].NodeCall? && es[r].call.ReadVersion? && es[r].call.addr == a && es[r].call.version.Some?
    && es[j - 2].NodeCall? && es[j - 2].call.SetState? && es[j - 2].call.addr == a && es[j - 2].call.state == Upgrading
    && es[r].call.version.value != es[j - 2].call.target
    && (forall x :: r < x < j ==> es[x].NodeCall? && es[x].call.addr == a && !RecordsDone(es[x].call))
  }

  /** Nothing follows event `m` in its turn but the final job write. */
  predicate EndsAt(b: Block, m: nat)
  {
    if b.finished then m + 2 == |b.events| && b.events[m + 1].JobWrite? else m + 1 == |b.events|
  }

  /** A Failed record ends the turn but for the final job write; an upgrade was decided by a read in the same turn. */
  ghost predicate Orderly(b: Block)
  {
    && (forall m :: 0 <= m < |b.events| && RecordsFailed(b.events[m]) ==> EndsAt(b, m))
    && (forall j :: 0 <= j < |b.events| && Upgrades(b.events[j]) ==> exists r :: ReadBehind(b.events, r, j))
  }

  /** Every turn is orderly and after one that finished nothing happens. */
  ghost predicate AllOrderly(bs: seq<Block>)
    decreases |bs|
  {
    bs != [] ==> Orderly(bs[0]) && (bs[0].finished ==> Flat(bs[1..]) == []) && AllOrderly(bs[1..])
  }

  // ----- one turn is orderly -----

  /** The same in the calls of one pass. */
  ghost predicate ReadInPass(t: seq<Call>, i: nat, j: nat)
  {
    && i + 2 < j < |t| && t[i].ReadVersion? && t[i].addr == t[j].addr && t[i].version.Some?
    && t[j - 2].SetState? && t[j - 2].addr == t[j].addr && t[j - 2].state == Upgrading && t[i].version.value != t[j - 2].target
    && (forall x :: i < x < j ==> t[x].addr == t[j].addr && !RecordsDone(t[x]))
  }

  lemma ReadOf(p: Plan, t: seq<Call>, j: nat) returns (i: nat)
    requires 3 <= j < |t| && BehindStory(p, t[..j], t[j].addr) && t[j - 3].Drain? && t[j - 1].ReadImage?
    requires t[j - 2] == SetState(t[j].addr, Upgrading, p.target)
    ensures ReadInPass(t, i, j)
  {
    var u, a := t[..j], t[j].addr;
    i :| 0 <= i < |u| && ReadsBehind(p, u[i], a) && forall m :: i < m < |u| ==> u[m].addr == a && !RecordsDone(u[m]);
    assert u[i] == t[i];
    forall x | i < x < j ensures t[x].addr == a && !RecordsDone(t[x]) { assert t[x] == u[x]; }
  }

  lemma PassReads(n: CutPass, recs: Recs, t: seq<Call>, j: nat) returns (i: nat)
    requires DistinctMembers(n.input) && Gate(n.input).Ok? && t == Cut(n, recs) && j < |t| && t[j].UpgradeOS?
    ensures ReadInPass(t, i, j)
  {
    UpgradeReadBehind(n, recs, j);
    UpgradeBlock(n, recs, j);
    i := ReadOf(Gate(n.input).value, t, j);
  }

  lemma ReadLifted(first: Event, t: seq<Call>, tail: seq<Event>, i: nat, j: nat)
    requires ReadInPass(t, i, j)
    ensures var es := [first] + NodeCalls(t) + tail; es[j + 1] == NodeCall(t[j]) && ReadBehind(es, i + 1, j + 1)
  {
    var es := [first] + NodeCalls(t) + tail;
    assert forall x :: 1 <= x <= |t| ==> es[x] == NodeCall(t[x - 1]);
  }

  /** What a pass promises about its calls carries over to the turn around it. */
  lemma TurnOrderly(b: Block, first: Event, t: seq<Call>, tail: seq<Event>)
    requires b.events == [first] + NodeCalls(t) + tail && first.JobWrite? && |tail| == (if b.finished then 1 else 0)
    requires forall x :: 0 <= x < |tail| ==> tail[x].JobWrite?
    requires forall k :: 0 <= k < |t| && t[k].SetState? && t[k].state == Failed ==> k == |t| - 1
    requires forall j :: 0 <= j < |t| && t[j].UpgradeOS? ==> exists i :: ReadInPass(t, i, j)
    ensures Orderly(b)
  {
    var es := b.events;
    assert forall x :: 1 <= x <= |t| ==> es[x] == NodeCall(t[x - 1]);
    forall m | 0 <= m < |es| && RecordsFailed(es[m]) ensures EndsAt(b, m) {
      assert 1 <= m <= |t| && RecordsFailed(NodeCall(t[m - 1]));
      assert b.finished ==> es[|t| + 1] == tail[0];
    }
    forall j | 0 <= j < |es| && Upgrades(es[j]) ensures exists r :: ReadBehind(es, r, j) {
      assert 1 <= j <= |t| && t[j - 1].UpgradeOS?;
      var i :| ReadInPass(t, i, j - 1);
      ReadLifted(first, t, tail, i, j - 1);
    }
  }

  lemma PassPromises(n: CutPass, recs: Recs, t: seq<Call>)
    requires DistinctMembers(n.input) && t == Cut(n, recs)
    ensures forall k :: 0 <= k < |t| && t[k].SetState? && t[k].state == Failed ==> k == |t| - 1
    ensures forall j :: 0 <= j < |t| && t[j].UpgradeOS? ==> exists i :: ReadInPass(t, i, j)
  {
    forall k | 0 <= k < |t| && t[k].SetState? && t[k].state == Failed ensures k == |t| - 1 { NothingAfterFailed(n, recs, k); }
    forall j | 0 <= j < |t| && t[j].UpgradeOS? ensures exists i :: ReadInPass(t, i, j) { var i := PassReads(n, recs, t, j); }
  }

  lemma BlockOrderly(s: Progress, n: Turn)
    requires s.job.kind == TalosJob && DistinctMembers(n.input)
    ensures Orderly(BlockOf(s, n))
  {
    TurnEffect(s, n);
    if Drives(s, n) {
      var t := Cut(Pass(n), s.recs);
      PassPromises(Pass(n), s.recs, t);
      TurnOrderly(BlockOf(s, n), JobWrite(Running(s.job)), t, if Finishes(s, n) then [JobWrite(Ended(s, n))] else []);
    }
  }

  lemma {:induction false} SilentWhenDead(s: Progress, turns: seq<Turn>)
    requires s.job.kind == TalosJob && !Live(s)
    ensures Run(s, turns) == []
    decreases |turns|
  {
    if turns != [] {
      TurnEffect(s, turns[0]);
      SilentWhenDead(s, turns[1..]);
    }
  }

  lemma {:induction false} BlocksOrderly(s: Progress, turns: seq<Turn>)
    requires s.job.kind == TalosJob && AllDistinct(turns)
    ensures AllOrderly(Blocks(s, turns))
    decreases |turns|
  {
    if turns != [] {
      var b, s' := BlockOf(s, turns[0]), After(s, Taken(s, turns[0]));
      var rest := Blocks(s', turns[1..]);
      assert ([b] + rest)[1..] == rest;
      BlockOrderly(s, turns[0]);
      LiveAfter(s, turns[0]);
      BlocksOrderly(s', turns[1..]);
      if b.finished {
        SilentWhenDead(s', turns[1..]);
        RunIsBlocks(s', turns[1..]);
      }
    }
  }

  // ----- orderly turns, one after another -----

  lemma {:induction false} FailedThenMore(bs: seq<Block>, m: nat, j: nat)
    requires AllOrderly(bs) && m < j < |Flat(bs)| && RecordsFailed(Flat(bs)[m]) && Flat(bs)[j].NodeCall?
    ensures CutRightAfter(bs, m)
    decreases |bs|
  {
    var c := bs[0].events;
    if m < |c| {
      assert RecordsFailed(c[m]) && Flat(bs) == c + Flat(bs[1..]);
    } else {
      FailedThenMore(bs[1..], m - |c|, j - |c|);
    }
  }

  lemma ReadShifted(es: seq<Event>, front: seq<Event>, back: seq<Event>, r: nat, j: nat)
    requires j < |es| && es[j].NodeCall? && ReadBehind(es, r, j)
    ensures ReadBehind(front + es + back, r + |front|, j + |front|)
  {
    var all, d := front + es + back, |front|;
    assert forall x :: 0 <= x < |es| ==> all[x + d] == es[x];
    forall x | r + d < x < j + d ensures all[x].NodeCall? && all[x].call.addr == all[j + d].call.addr && !RecordsDone(all[x].call) {
      assert all[x] == es[x - d];
    }
  }

  /** Every upgrade of a run was decided by such a read, in the same turn. */
  lemma {:induction false} UpgradeDecidedByRead(bs: seq<Block>, j: nat) returns (r: nat)
    requires AllOrderly(bs) && j < |Flat(bs)| && Upgrades(Flat(bs)[j])
    ensures ReadBehind(Flat(bs), r, j)
    decreases |bs|
  {
    var c, rest := bs[0].events, Flat(bs[1..]);
    if j < |c| {
      r :| ReadBehind(c, r, j);
      ReadShifted(c, [], rest, r, j);
      assert Flat(bs) == [] + c + rest;
    } else {
      var i := UpgradeDecidedByRead(bs[1..], j - |c|);
      r := i + |c|;
      ReadShifted(rest, c, [], i, j - |c|);
      assert Flat(bs) == c + rest + [];
    }
  }

  lemma EventBetween(es: seq<Event>, i: nat, j: nat, k: nat) returns (m: nat)
    requires i < j < |es| && es[i].NodeCall? && es[j].NodeCall? && Pos(es, i) < k < Pos(es, j) < |CallsIn(es)|
    ensures i < m < j && es[m].NodeCall? && es[m].call == CallsIn(es)[k]
  {
    m := EventAt(es, k);
    if m < i { PosMono(es, m, i); }
    if j < m { PosMono(es, j, m); }
  }

  lemma SettledCall(s: Progress, turns: seq<Turn>, t: seq<Call>, i: nat, j: nat) returns (k: nat)
    requires s.job.kind == TalosJob && AllDistinct(turns) && t == CallsIn(Run(s, turns))
    requires i < j < |t| && t[i].UpgradeOS? && t[j].UpgradeOS? && t[i].addr == t[j].addr
    ensures i < k < j && t[k].SetState? && t[k].addr == t[i].addr && (t[k].state == Done || t[k].state == Failed)
  {
    RunIsPasses(s, turns);
    PassesDistinct(s, turns);
    UpgradesAreSettled(s.recs, Passes(s, turns), i, j);
    k :| i < k < j && t[k].SetState? && t[k].addr == t[i].addr && (t[k].state == Done || t[k].state == Failed);
  }

  lemma SettledEvent(s: Progress, turns: seq<Turn>, es: seq<Event>, i: nat, j: nat) returns (m: nat)
    requires s.job.kind == TalosJob && AllDistinct(turns) && es == Run(s, turns) && i < j < |es| && SameUpgrade(es[i], es[j])
    ensures i < m < j && es[m].NodeCall? && es[m].call.SetState? && es[m].call.addr == es[j].call.addr
    ensures es[m].call.state == Done || es[m].call.state == Failed
  {
    CallAt(es, i);
    CallAt(es, j);
    PosMono(es, i, j);
    var k := SettledCall(s, turns, CallsIn(es), Pos(es, i), Pos(es, j));
    m := EventBetween(es, i, j, k);
  }

  /** What at `m` makes room for the upgrade at `j`: a Failed record cut off there, or a Done and a later read behind. */
  ghost predicate Reopened(bs: seq<Block>, m: nat, j: nat)
  {
    var es := Flat(bs);
    && m < j < |es| && es[j].NodeCall?
    && es[m].NodeCall? && es[m].call.SetState? && es[m].call.addr == es[j].call.addr
    && match es[m].call.state
       case Failed => CutRightAfter(bs, m)
       case Done => exists r :: m < r < j && ReadBehind(es, r, j)
       case _ => false
  }

  lemma Reopens(bs: seq<Block>, m: nat, j: nat)
    requires AllOrderly(bs) && m < j < |Flat(bs)| && Upgrades(Flat(bs)[j])
    requires var e := Flat(bs)[m];
             e.NodeCall? && e.call.SetState? && e.call.addr == Flat(bs)[j].call.addr && (e.call.state == Done || e.call.state == Failed)
    ensures Reopened(bs, m, j)
  {
    if RecordsFailed(Flat(bs)[m]) {
      FailedThenMore(bs, m, j);
    } else {
      var r := UpgradeDecidedByRead(bs, j);
      assert m < r;
    }
  }

  /**
   * Between two upgrades of a node under one job, either the node was recorded Failed and the turn was cut right
   * there, before the job's final write; or it was recorded Done and afterwards read at another version.
   */
  lemma BetweenUpgrades(s: Progress, turns: seq<Turn>, i: nat, j: nat)
    requires s.job.kind == TalosJob && AllDistinct(turns) && i < j < |Run(s, turns)| && SameUpgrade(Run(s, turns)[i], Run(s, turns)[j])
    ensures exists m :: i < m < j && Reopened(Blocks(s, turns), m, j)
  {
    var m := SettledEvent(s, turns, Run(s, turns), i, j);
    RunIsBlocks(s, turns);
    BlocksOrderly(s, turns);
    Reopens(Blocks(s, turns), m, j);
  }

  // ----- the failing run -----

  function FailingTurn(cut: nat): Turn
  {
    Turn(Cluster("c", None, None, None, 1, Manual, true, false), true, OneNode(), "upgrade failed", cut)
  }

  function FreshJob(): Progress
  {
    Progress(Job("c", "w", TalosJob, "t", JobPending, ["a"], "", 1), map[])
  }

  /**
   * A process that dies after recording node "a" Failed and before writing the job Failed: its turn has
   * nine events and stops at eight, the last being the Failed record. The next turn upgrades "a" again.
   */
  lemma SecondUpgradeAfterCrash(s: Progress, n: Turn, n': Turn)
    requires s == FreshJob() && n == FailingTurn(8) && n' == FailingTurn(9)
    ensures var es := Run(s, [n, n']);
            && |TurnEvents(s, n)| == 9 && |Taken(s, n)| == 8 && TurnEvents(s, n)[8].JobWrite?
            && |es| == 17 && es[7] == NodeCall(SetState("a", Failed, "t"))
            && es[6].NodeCall? && es[6].call.UpgradeOS? && SameUpgrade(es[6], es[14])
  {
    var s' := After(s, Taken(s, n));
    FailingTurnEvents(s, n);
    FailingTurnEvents(s', n');
    TwoTurns(s, n, n');
  }

  /** A turn of the failing pass: nine events, the upgrade seventh, the Failed record eighth, the final write last. */
  lemma FailingTurnEvents(s: Progress, n: Turn)
    requires Live(s) && !InFlight(StateOf(s.recs, "a")) && n == FailingTurn(n.cut) && (n.cut == 8 || n.cut == 9)
    ensures var es, taken := TurnEvents(s, n), Taken(s, n);
            && |es| == 9 && |taken| == n.cut && es[8].JobWrite? && taken == es[..n.cut]
            && es[6].NodeCall? && es[6].call.UpgradeOS? && es[6].call.addr == "a" && es[7] == NodeCall(SetState("a", Failed, "t"))
    ensures var s' := After(s, Taken(s, n));
            s'.job.kind == TalosJob && (n.cut == 8 ==> Live(s') && !InFlight(StateOf(s'.recs, "a")))
  {
    FailingPass(s.recs);
    var t := ReconcileCalls(OneNode(), s.recs);
    TurnShape(s, n);
    assert TurnEvents(s, n) == [JobWrite(Running(s.job))] + NodeCalls(t) + [JobWrite(Ended(s, n))];
    assert TurnEvents(s, n)[..9] == TurnEvents(s, n);
    TurnEffect(s, n);
    WholePass(n, s.recs, t);
  }

  lemma WholePass(n: Turn, recs: Recs, t: seq<Call>)
    requires t == ReconcileCalls(n.input, recs) && n.cut > |t|
    ensures Cut(Pass(n), recs) == t
  {
  }

  /** The one node's seven calls: read, record, drain, record, read image, upgrade, record Failed. */
  lemma FailingPass(recs: Recs)
    requires !InFlight(StateOf(recs, "a"))
    ensures var t := ReconcileCalls(OneNode(), recs);
            && |t| == 7 && t[5].UpgradeOS? && t[5].addr == "a" && t[6] == SetState("a", Failed, "t")
            && StateOf(RecsAfter(recs, t), "a") == Failed
  {
    OneMember(OneNode(), WorkerPool(), FailingReplies(), recs);
  }

  lemma TwoTurns(s: Progress, n: Turn, n': Turn)
    ensures Run(s, [n, n']) == Taken(s, n) + Taken(After(s, Taken(s, n)), n')
  {
    assert [n, n'][1..] == [n'] && [n'][1..] == [];
    var s' := After(s, Taken(s, n));
    assert Run(s', [n']) == Taken(s', n') + Run(After(s', Taken(s', n')), []);
  }

  // ----- the code -----

  /** The executor's handling of one Talos job, with the reconciler it drives. */
  class Worker {
    var job: Job
    var recs: Recs
    var events: seq<Event>

    ghost function Now(): Progress
      reads this
    {
      Progress(job, recs)
    }

    method Put(j: Job)
      modifies this
      ensures job == j && recs == old(recs) && events == old(events) + [JobWrite(j)]
    {
      job := j;
      events := events + [JobWrite(j)];
    }

    method Reconcile(input: PassInput) returns (v: Verdict)
      modifies this
      ensures v == ReconcileVerdict(input, old(recs)) && job == old(job)
      ensures recs == RecsAfter(old(recs), ReconcileCalls(input, old(recs)))
      ensures events == old(events) + NodeCalls(ReconcileCalls(input, old(recs)))
    {
      var r := new Reconciler(recs);
      v := r.ReconcilePool(input);
      recs := r.recs;
      events := events + NodeCalls(r.calls);
    }

    /** The job goes Running, the reconciler runs, and its verdict becomes the job's. */
    method Drive(input: PassInput, message: string)
      modifies this
      ensures var ended := X.Finished(Running(old(job)), ErrorOf(ReconcileVerdict(input, old(recs)), message));
              && events == old(events) + ([JobWrite(Running(old(job)))] + NodeCalls(ReconcileCalls(input, old(recs))) + [JobWrite(ended)])
              && Now() == Progress(ended, RecsAfter(old(recs), ReconcileCalls(input, old(recs))))
    {
      var running := job.(state := JobRunning);
      Put(running);
      var v := Reconcile(input);
      if ReturnsNil(v) {
        Put(running.(state := JobDone, message := ""));
      } else {
        Put(running.(state := JobFailed, message := message));
      }
      Grouped(old(events), JobWrite(running), NodeCalls(ReconcileCalls(input, old(recs))), JobWrite(job));
    }

    /** One uncut turn; a cut one is a prefix of it. */
    method RunJob(n: Turn)
      requires job.kind == TalosJob
      modifies this
      ensures events == old(events) + TurnEvents(old(Now()), n)
      ensures Now() == After(old(Now()), TurnEvents(old(Now()), n))
    {
      UncutTurn(Now(), n);
      if !X.Actionable(job.state) {
        return;
      }
      if !n.cluster.rolloutsEnabled {
        return;
      }
      if !n.clientsOk {
        return;
      }
      Drive(n.input, n.message);
    }
  }

  lemma Grouped(es: seq<Event>, a: Event, t: seq<Event>, b: Event)
    ensures es + [a] + t + [b] == es + ([a] + t + [b])
  {
  }

  lemma UncutTurn(s: Progress, n: Turn)
    requires s.job.kind == TalosJob
    ensures Live(s) && On(n) ==>
              TurnEvents(s, n) == [JobWrite(Running(s.job))] + NodeCalls(ReconcileCalls(n.input, s.recs)) + [JobWrite(Ended(s, n))]
    ensures After(s, TurnEvents(s, n)) ==
              if Live(s) && On(n) then Progress(Ended(s, n), RecsAfter(s.recs, ReconcileCalls(n.input, s.recs))) else s
    ensures !(Live(s) && On(n)) ==> TurnEvents(s, n) == []
  {
    TurnShape(s, n);
    var t := ReconcileCalls(n.input, s.recs);
    if Live(s) && On(n) {
      var first, last := JobWrite(Running(s.job)), JobWrite(Ended(s, n));
      assert [first] + NodeCalls(t) + [last] == [first] + (NodeCalls(t) + [last]) && [last] == [last] + [];
      AfterCons(s, first, NodeCalls(t) + [last]);
      AfterCalls(s.(job := Running(s.job)), t, [last]);
      AfterCons(s.(job := Running(s.job), recs := RecsAfter(s.recs, t)), last, []);
    }
  }
}
