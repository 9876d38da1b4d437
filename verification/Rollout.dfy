/** The reconciler itself: the member loop, the upgrade of one node, and the wait for it to return. */
module Rollout {
  import opened Basics
  import opened Image
  import opened Kube
  import opened Records
  import opened RolloutModel
  import opened Text

  /** Members other than `self` that are missing from the listing or not ready in it. */
  method CountUnavailable(ready: map<string, bool>, members: seq<string>, self: string, ghost nodes: seq<NodeInfo>) returns (n: nat)
    requires forall ip :: (ip in ready && ready[ip]) <==> ReadyAt(nodes, ip)
    ensures n == UnavailableOthers(nodes, members, self)
  {
    n := 0;
    for i := 0 to |members|
      invariant n == UnavailableOthers(nodes, members[..i], self)
    {
      assert members[..i + 1][..i] == members[..i];
      var m := members[i];
      if m == self {
        continue;
      }
      if m !in ready || !ready[m] {
        n := n + 1;
      }
    }
    assert members[..|members|] == members;
  }

  /** The two lookup tables built from a node listing; later entries overwrite earlier ones. */
  method IndexNodes(nodes: seq<NodeInfo>) returns (names: map<string, string>, ready: map<string, bool>)
    ensures forall ip :: (if ip in names then names[ip] else "") == NameFor(nodes, ip)
    ensures forall ip :: (ip in ready && ready[ip]) <==> ReadyAt(nodes, ip)
  {
    names, ready := map[], map[];
    for i := 0 to |nodes|
      invariant forall ip :: (if ip in names then names[ip] else "") == NameFor(nodes[..i], ip)
      invariant forall ip :: (ip in ready && ready[ip]) <==> ReadyAt(nodes[..i], ip)
    {
      assert nodes[..i + 1][..i] == nodes[..i];
      names := names[nodes[i].internalIP := nodes[i].name];
      ready := ready[nodes[i].internalIP := nodes[i].ready];
    }
    assert nodes[..|nodes|] == nodes;
  }

  lemma RecsOne(recs: Recs, c: Call)
    ensures RecsAfter(recs, [c]) == Recorded(recs, c)
  {
    assert [c] == [c] + [];
    RecsCons(recs, c, []);
  }

  /** Appending one call and then a tail, and what the tail records after it. */
  lemma Chain(calls: seq<Call>, recs: Recs, c: Call, rest: seq<Call>)
    ensures (calls + [c]) + rest == calls + ([c] + rest)
    ensures RecsAfter(Recorded(recs, c), rest) == RecsAfter(recs, [c] + rest)
  {
    RecsCons(recs, c, rest);
  }

  /** One turn of the loop, seen from the rest of the pass. */
  lemma Turn(p: Plan, recs: Recs, replies: nat -> Replies, i: nat, calls: seq<Call>)
    requires i < |p.members|
    ensures var a := p.members[i];
            var s := StateOf(recs, a);
            var w := NodeWord(p, a, s, replies(i));
            var run, recs' := Pass(p, recs, replies, i), RecsAfter(recs, w);
            match NodeEnding(p, a, s, replies(i))
            case Halted => run == PassRun(w, HaltedAt(i))
            case Blocked => run == PassRun(w, BlockedAt(i))
            case Finished =>
              var rest := Pass(p, recs', replies, i + 1);
              && run.outcome == rest.outcome
              && calls + run.calls == (calls + w) + rest.calls
              && RecsAfter(recs, run.calls) == RecsAfter(recs', rest.calls)
  {
    var a := p.members[i];
    var w := NodeWord(p, a, StateOf(recs, a), replies(i));
    if NodeEnding(p, a, StateOf(recs, a), replies(i)) == Finished {
      var rest := Pass(p, RecsAfter(recs, w), replies, i + 1).calls;
      RecsConcat(recs, w, rest);
      assert calls + (w + rest) == (calls + w) + rest;
    }
  }

  /** Polling records nothing. */
  lemma {:induction false} WaitRecs(p: Plan, a: string, probes: seq<Probe>, recs: Recs)
    ensures RecsAfter(recs, WaitWord(p, a, probes)) == recs
    decreases |probes|
  {
    if probes != [] {
      var rest := if Healthy(p, probes[0]) then [] else WaitWord(p, a, probes[1..]);
      RecsCons(recs, Poll(a, NameFor(p.nodes, a), probes[0].ready, probes[0].version), rest);
      if !Healthy(p, probes[0]) { WaitRecs(p, a, probes[1..], recs); }
    }
  }

  class Reconciler {
    var recs: Recs        // this cluster's MachineRollout records
    var calls: seq<Call>  // every write and call made, in order

    constructor (recs: Recs)
      ensures this.recs == recs && calls == []
    {
      this.recs := recs;
      calls := [];
    }

    /** The state changed by exactly the word `w`. */
    twostate predicate Made(w: seq<Call>)
      reads this
    {
      calls == old(calls) + w && recs == RecsAfter(old(recs), w)
    }

    method Note(c: Call)
      modifies this
      ensures calls == old(calls) + [c] && recs == Recorded(old(recs), c)
    {
      recs := Recorded(recs, c);
      calls := calls + [c];
    }

    method Fail(a: string, target: string, ghost p: Plan)
      requires target == p.target
      modifies this
      ensures Made(FailWord(p, a))
    {
      RecsOne(recs, SetState(a, Failed, target));
      Note(SetState(a, Failed, target));
    }

    method MarkDone(a: string, target: string)
      modifies this
      ensures Made([SetState(a, Done, target)])
    {
      RecsOne(recs, SetState(a, Done, target));
      Note(SetState(a, Done, target));
    }

    /** Polls until ready at the target or out of time. */
    method WaitHealthy(a: string, name: string, target: string, probes: seq<Probe>, ghost p: Plan) returns (ok: bool)
      requires name == NameFor(p.nodes, a) && target == p.target
      modifies this
      ensures Made(WaitWord(p, a, probes))
      ensures ok == Recovers(p, probes)
    {
      WaitRecs(p, a, probes, recs);
      var left := probes;
      while left != []
        invariant calls + WaitWord(p, a, left) == old(calls) + WaitWord(p, a, probes)
        invariant Recovers(p, left) == Recovers(p, probes)
        invariant recs == old(recs)
        decreases |left|
      {
        var poll := Poll(a, name, left[0].ready, left[0].version);
        ghost var rest := if Healthy(p, left[0]) then [] else WaitWord(p, a, left[1..]);
        assert calls + WaitWord(p, a, left) == (calls + [poll]) + rest;
        calls := calls + [poll];
        if left[0].ready && left[0].version == target {
          return true;
        }
        left := left[1..];
      }
      return false;
    }

    method FinishUpgrade(a: string, name: string, target: string, r: Replies, ghost p: Plan) returns (ok: bool)
      requires name == NameFor(p.nodes, a) && target == p.target
      modifies this
      ensures Made(FinishWord(p, a, r))
      ensures ok == FinishOk(p, a, r)
    {
      if name == "" {
        Fail(a, target, p);
        return false;
      }
      ghost var probes := [r.first] + r.more;
      ghost var c := SetState(a, WaitingHealthy, target);
      RecsCons(recs, c, WaitWord(p, a, probes) + CloseWord(p, a, r));
      RecsConcat(Recorded(recs, c), WaitWord(p, a, probes), CloseWord(p, a, r));
      Note(SetState(a, WaitingHealthy, target));
      var healthy := WaitHealthy(a, name, target, [r.first] + r.more, p);
      ok := Close(healthy, a, name, target, r, p);
    }

    method Close(healthy: bool, a: string, name: string, target: string, r: Replies, ghost p: Plan) returns (ok: bool)
      requires name == NameFor(p.nodes, a) && target == p.target && healthy == Recovers(p, [r.first] + r.more)
      modifies this
      ensures Made(CloseWord(p, a, r))
      ensures ok == (healthy && r.uncordonOk)
    {
      if !healthy {
        Fail(a, target, p);
        return false;
      }
      ghost var rest := if r.uncordonOk then [SetState(a, Done, target)] else FailWord(p, a);
      RecsCons(recs, Uncordon(a, name, r.uncordonOk), rest);
      Note(Uncordon(a, name, r.uncordonOk));
      if !r.uncordonOk {
        Fail(a, target, p);
        return false;
      }
      MarkDone(a, target);
      return true;
    }

    /** Record, read the installer image, upgrade, and wait. */
    method Install(a: string, name: string, target: string, r: Replies, ghost p: Plan) returns (ok: bool)
      requires name == NameFor(p.nodes, a) && target == p.target
      modifies this
      ensures Made(InstallWord(p, a, r))
      ensures ok == (r.image.Some? && r.upgradeOk && FinishOk(p, a, r))
    {
      ghost var rest := AfterImage(p, a, r);
      Chain(calls, recs, SetState(a, Upgrading, target), [ReadImage(a, r.image)] + rest);
      Note(SetState(a, Upgrading, target));
      Chain(calls, recs, ReadImage(a, r.image), rest);
      Note(ReadImage(a, r.image));
      ok := Upgrade(a, name, target, r, p);
    }

    method Upgrade(a: string, name: string, target: string, r: Replies, ghost p: Plan) returns (ok: bool)
      requires name == NameFor(p.nodes, a) && target == p.target
      modifies this
      ensures Made(AfterImage(p, a, r))
      ensures ok == (r.image.Some? && r.upgradeOk && FinishOk(p, a, r))
    {
      if r.image.None? {
        Fail(a, target, p);
        return false;
      }
      var image := DeriveInstallerImage(r.image.value, target);
      Chain(calls, recs, UpgradeOS(a, image, r.upgradeOk), if r.upgradeOk then FinishWord(p, a, r) else FailWord(p, a));
      Note(UpgradeOS(a, image, r.upgradeOk));
      if !r.upgradeOk {
        Fail(a, target, p);
        return false;
      }
      ok := FinishUpgrade(a, name, target, r, p);
    }

    method DrainAndInstall(a: string, name: string, target: string, r: Replies, ghost p: Plan) returns (ok: bool)
      requires name == NameFor(p.nodes, a) && target == p.target
      modifies this
      ensures Made(DrainWord(p, a, r))
      ensures ok == (r.drainOk && r.image.Some? && r.upgradeOk && FinishOk(p, a, r))
    {
      ghost var rest := if r.drainOk then InstallWord(p, a, r) else FailWord(p, a);
      Chain(calls, recs, SetState(a, Draining, target), [Drain(a, name, r.drainOk)] + rest);
      Note(SetState(a, Draining, target));
      Chain(calls, recs, Drain(a, name, r.drainOk), rest);
      Note(Drain(a, name, r.drainOk));
      if !r.drainOk {
        Fail(a, target, p);
        return false;
      }
      ok := Install(a, name, target, r, p);
    }

    method UpgradeNode(role: Role, strategy: Option<Strategy>, a: string, name: string, target: string, r: Replies, ghost p: Plan)
        returns (ok: bool)
      requires name == NameFor(p.nodes, a) && target == p.target
      requires p.snapshot == (role == ControlPlane && strategy.Some? && strategy.value.snapshotBeforeControlPlane)
      modifies this
      ensures Made(UpgradeWord(p, a, r))
      ensures ok == UpgradeOk(p, a, r)
    {
      if name == "" {
        Fail(a, target, p);
        return false;
      }
      if role == ControlPlane && strategy.Some? && strategy.value.snapshotBeforeControlPlane {
        Chain(calls, recs, Snapshot(a, r.snapshotOk), if r.snapshotOk then DrainWord(p, a, r) else FailWord(p, a));
        Note(Snapshot(a, r.snapshotOk));
        if !r.snapshotOk {
          Fail(a, target, p);
          return false;
        }
      }
      ok := DrainAndInstall(a, name, target, r, p);
    }

    /** One turn of the member loop. */
    method Member(np: NodePool, a: string, name: string, target: string, over: bool, r: Replies, ghost p: Plan) returns (e: Ending)
      requires name == NameFor(p.nodes, a) && target == p.target && over == OverBudget(p, a)
      requires p.snapshot == (np.role == ControlPlane && np.strategy.Some? && np.strategy.value.snapshotBeforeControlPlane)
      modifies this
      ensures Made(NodeWord(p, a, StateOf(old(recs), a), r))
      ensures e == NodeEnding(p, a, StateOf(old(recs), a), r)
    {
      var st := StateOf(recs, a);
      if st == Upgrading || st == WaitingHealthy {
        var ok := FinishUpgrade(a, name, target, r, p);
        return if ok then Finished else Halted;
      }
      Chain(calls, recs, ReadVersion(a, r.version), AfterVersion(p, a, r));
      Note(ReadVersion(a, r.version));
      e := Compare(np, a, name, target, over, r, p);
    }

    method Compare(np: NodePool, a: string, name: string, target: string, over: bool, r: Replies, ghost p: Plan) returns (e: Ending)
      requires name == NameFor(p.nodes, a) && target == p.target && over == OverBudget(p, a)
      requires p.snapshot == (np.role == ControlPlane && np.strategy.Some? && np.strategy.value.snapshotBeforeControlPlane)
      modifies this
      ensures Made(AfterVersion(p, a, r))
      ensures e == NodeEnding(p, a, Idle, r)
    {
      if r.version.None? {
        Fail(a, target, p);
        return Halted;
      }
      if r.version.value == target {
        MarkDone(a, target);
        return Finished;
      }
      if over {
        return Blocked;
      }
      var ok := UpgradeNode(np.role, np.strategy, a, name, target, r, p);
      return if ok then Finished else Halted;
    }

    /** The whole pass over a pool. */
    method ReconcilePool(n: PassInput) returns (v: Verdict)
      modifies this
      ensures Made(ReconcileCalls(n, old(recs)))
      ensures v == ReconcileVerdict(n, old(recs))
    {
      if n.np.None? {
        return NoPool;
      }
      var np := n.np.value;
      if np.paused {
        return PausedPool;
      }
      var target := TargetVersion(np, n.cl);
      if target.None? || target.value == "" {
        return NoTarget;
      }
      if n.nodes.None? {
        return ListFailed;
      }
      var names, ready := IndexNodes(n.nodes.value);
      var members := Sort(np.members);
      var maxUnavail := if np.strategy.Some? then np.strategy.value.maxUnavailable else 0;
      if maxUnavail < 1 {
        maxUnavail := 1;
      }
      ghost var p := PlanFor(np, target.value, n.nodes.value);
      var outcome := MemberLoop(np, members, names, ready, target.value, maxUnavail, n.replies, p);
      return Ran(outcome);
    }

    method MemberLoop(np: NodePool, members: seq<string>, names: map<string, string>, ready: map<string, bool>,
                      target: string, maxUnavail: nat, replies: nat -> Replies, ghost p: Plan) returns (o: Outcome)
      requires p.members == members && p.target == target && p.budget == maxUnavail
      requires p.snapshot == (np.role == ControlPlane && np.strategy.Some? && np.strategy.value.snapshotBeforeControlPlane)
      requires forall ip :: (if ip in names then names[ip] else "") == NameFor(p.nodes, ip)
      requires forall ip :: (ip in ready && ready[ip]) <==> ReadyAt(p.nodes, ip)
      modifies this
      ensures Made(Pass(p, old(recs), replies, 0).calls)
      ensures o == Pass(p, old(recs), replies, 0).outcome
    {
      ghost var all := Pass(p, recs, replies, 0);
      for i := 0 to |members|
        invariant calls + Pass(p, recs, replies, i).calls == old(calls) + all.calls
        invariant RecsAfter(recs, Pass(p, recs, replies, i).calls) == RecsAfter(old(recs), all.calls)
        invariant Pass(p, recs, replies, i).outcome == all.outcome
      {
        var a := members[i];
        var unavail := CountUnavailable(ready, members, a, p.nodes);
        Turn(p, recs, replies, i, calls);
        var e := Member(np, a, if a in names then names[a] else "", target, unavail >= maxUnavail, replies(i), p);
        if e == Halted {
          return HaltedAt(i);
        }
        if e == Blocked {
          return BlockedAt(i);
        }
      }
      return Converged;
    }
  }
}
