/** What following the protocol guarantees, stated on the traces themselves. */
module RolloutTheorems {
  import opened Basics
  import opened Image
  import opened Kube
  import opened Records
  import opened RolloutModel
  import opened RolloutProtocol
  import opened Text

  // ----- whole runs: passes over any pools, cut anywhere -----

  datatype CutPass = CutPass(input: PassInput, cut: nat)

  /** The calls a pass got to make before it was cut. */
  function Cut(n: CutPass, recs: Recs): seq<Call>
  {
    var t := ReconcileCalls(n.input, recs);
    if n.cut < |t| then t[..n.cut] else t
  }

  function RunCalls(recs: Recs, passes: seq<CutPass>): seq<Call>
    decreases |passes|
  {
    if passes == [] then []
    else
      var t := Cut(passes[0], recs);
      t + RunCalls(RecsAfter(recs, t), passes[1..])
  }

  ghost predicate DistinctMembers(n: PassInput)
  {
    n.np.Some? ==> Distinct(n.np.value.members)
  }

  function Fresh(recs: Recs, u: set<string>): Mon
  {
    Mon(Between(None), recs, u)
  }

  /** A cut pass follows the protocol from any records in which unsettled nodes are mid-flight. */
  lemma CutFollows(n: CutPass, recs: Recs, u: set<string>)
    requires DistinctMembers(n.input) && Gate(n.input).Ok?
    requires forall a :: a in u ==> InFlight(StateOf(recs, a))
    ensures var p := Gate(n.input).value;
            Follow(p, Fresh(recs, u), Cut(n, recs)).Some? && MInv(p, Follow(p, Fresh(recs, u), Cut(n, recs)).value)
  {
    var p := Gate(n.input).value;
    var t := ReconcileCalls(n.input, recs);
    SortAscending(n.input.np.value.members);
    PassFollows(p, Fresh(recs, u), n.input.replies, 0);
    FollowPrefix(p, Fresh(recs, u), t, if n.cut < |t| then n.cut else |t|);
    assert t[..|t|] == t;
    FollowInv(p, Fresh(recs, u), Cut(n, recs));
  }

  // ----- resume safety -----

  predicate Fine(recs: Recs, u: set<string>, c: Call)
  {
    (c.Snapshot? || c.Drain? ==> !InFlight(StateOf(recs, c.addr))) && (c.UpgradeOS? ==> c.addr !in u)
  }

  predicate Sound(recs: Recs, u: set<string>, t: seq<Call>)
    decreases |t|
  {
    t != [] ==> Fine(recs, u, t[0]) && Sound(Recorded(recs, t[0]), Settled(u, t[0]), t[1..])
  }

  function UnsettledAfter(u: set<string>, t: seq<Call>): set<string>
    decreases |t|
  {
    if t == [] then u else UnsettledAfter(Settled(u, t[0]), t[1..])
  }

  lemma {:induction false} FollowSound(p: Plan, m: Mon, t: seq<Call>)
    requires MInv(p, m) && Follow(p, m, t).Some?
    ensures Sound(m.recs, m.unsettled, t)
    ensures Follow(p, m, t).value.unsettled == UnsettledAfter(m.unsettled, t)
    ensures Follow(p, m, t).value.recs == RecsAfter(m.recs, t)
    decreases |t|
  {
    if t != [] {
      RolloutProtocol.StepInv(p, m, t[0]);
      FollowSound(p, Step(p, m, t[0]).value, t[1..]);
    }
  }

  lemma {:induction false} SoundConcat(recs: Recs, u: set<string>, s: seq<Call>, t: seq<Call>)
    ensures Sound(recs, u, s + t) <==> Sound(recs, u, s) && Sound(RecsAfter(recs, s), UnsettledAfter(u, s), t)
    ensures UnsettledAfter(u, s + t) == UnsettledAfter(UnsettledAfter(u, s), t)
    decreases |s|
  {
    if s == [] {
      assert s + t == t;
    } else {
      assert (s + t)[1..] == s[1..] + t;
      SoundConcat(Recorded(recs, s[0]), Settled(u, s[0]), s[1..], t);
    }
  }

  lemma {:induction false} RunSound(recs: Recs, u: set<string>, passes: seq<CutPass>)
    requires forall i :: 0 <= i < |passes| ==> DistinctMembers(passes[i].input)
    requires forall a :: a in u ==> InFlight(StateOf(recs, a))
    ensures Sound(recs, u, RunCalls(recs, passes))
    decreases |passes|
  {
    if passes != [] {
      var t := Cut(passes[0], recs);
      var recs', u' := RecsAfter(recs, t), UnsettledAfter(u, t);
      if Gate(passes[0].input).Ok? {
        var p := Gate(passes[0].input).value;
        CutFollows(passes[0], recs, u);
        FollowSound(p, Fresh(recs, u), t);
      }
      RunSound(recs', u', passes[1..]);
      SoundConcat(recs, u, t, RunCalls(recs', passes[1..]));
    }
  }

  lemma SoundAt(recs: Recs, u: set<string>, t: seq<Call>, i: nat)
    requires Sound(recs, u, t) && i < |t|
    ensures Fine(RecsAfter(recs, t[..i]), UnsettledAfter(u, t[..i]), t[i])
  {
    assert t == t[..i] + t[i..];
    SoundConcat(recs, u, t[..i], t[i..]);
  }

  /** Over every run of cut passes, a node recorded mid-flight is never snapshotted or drained. */
  lemma ResumeNeverRedrains(recs: Recs, passes: seq<CutPass>, i: nat)
    requires forall n :: 0 <= n < |passes| ==> DistinctMembers(passes[n].input)
    ensures var t := RunCalls(recs, passes);
            i < |t| && (t[i].Snapshot? || t[i].Drain?) ==>
              var r, a := RecsAfter(recs, t[..i]), t[i].addr;
              a in r ==> r[a].state != Upgrading && r[a].state != WaitingHealthy
  {
    var t := RunCalls(recs, passes);
    RunSound(recs, {}, passes);
    if i < |t| { SoundAt(recs, {}, t, i); }
  }

  lemma {:induction false} StaysUnsettled(u: set<string>, t: seq<Call>, a: string)
    requires a in u
    requires forall m :: 0 <= m < |t| && t[m].SetState? && t[m].addr == a ==> t[m].state != Done && t[m].state != Failed
    ensures a in UnsettledAfter(u, t)
    decreases |t|
  {
    if t != [] { StaysUnsettled(Settled(u, t[0]), t[1..], a); }
  }

  /** Between two UpgradeOS calls on one node, over every run of cut passes, its record has been Done or Failed. */
  lemma UpgradesAreSettled(recs: Recs, passes: seq<CutPass>, i: nat, j: nat)
    requires forall n :: 0 <= n < |passes| ==> DistinctMembers(passes[n].input)
    ensures var t := RunCalls(recs, passes);
            i < j < |t| && t[i].UpgradeOS? && t[j].UpgradeOS? && t[i].addr == t[j].addr ==>
              exists m :: i < m < j && t[m].SetState? && t[m].addr == t[i].addr && (t[m].state == Done || t[m].state == Failed)
  {
    var t := RunCalls(recs, passes);
    RunSound(recs, {}, passes);
    if i < j < |t| && t[i].UpgradeOS? && t[j].UpgradeOS? && t[i].addr == t[j].addr { SettledBetween(recs, t, i, j); }
  }

  lemma SettledBetween(recs: Recs, t: seq<Call>, i: nat, j: nat)
    requires Sound(recs, {}, t) && i < j < |t| && t[i].UpgradeOS? && t[j].UpgradeOS? && t[i].addr == t[j].addr
    ensures exists m :: i < m < j && t[m].SetState? && t[m].addr == t[i].addr && (t[m].state == Done || t[m].state == Failed)
  {
    var a := t[i].addr;
    SoundAt(recs, {}, t, j);
    var mid := t[i + 1..j];
    assert t[..j] == (t[..i] + [t[i]]) + mid;
    SoundConcat(recs, {}, t[..i] + [t[i]], mid);
    SoundConcat(recs, {}, t[..i], [t[i]]);
    var u := UnsettledAfter({}, t[..i] + [t[i]]);
    assert a in u;
    if forall m :: i < m < j && t[m].SetState? && t[m].addr == a ==> t[m].state != Done && t[m].state != Failed {
      StaysUnsettled(u, mid, a);
    }
  }

  // ----- within one pass -----

  lemma FollowSnoc(p: Plan, m: Mon, t: seq<Call>)
    requires t != [] && Follow(p, m, t).Some?
    ensures var init, c := t[..|t| - 1], t[|t| - 1];
            Follow(p, m, init).Some? && Step(p, Follow(p, m, init).value, c) == Follow(p, m, t)
  {
    var init, c := t[..|t| - 1], t[|t| - 1];
    assert t == init + [c];
    FollowConcat(p, m, init, [c]);
    FollowOne(p, Follow(p, m, init).value, c);
  }

  function Subject(g: Stage): Option<string>
  {
    if g.Between? then g.last else Some(g.addr)
  }

  /** Members are visited in ascending order and never returned to. */
  ghost predicate Ascends(t: seq<Call>, g: Stage)
  {
    && (forall i, j :: 0 <= i < j < |t| ==> t[i].addr == t[j].addr || Less(t[i].addr, t[j].addr))
    && (forall i :: 0 <= i < |t| ==>
          Subject(g).Some? && (t[i].addr == Subject(g).value || Less(t[i].addr, Subject(g).value)))
  }

  lemma OrderedStep(p: Plan, m: Mon, t: seq<Call>, c: Call)
    requires Ascends(t, m.stage) && Step(p, m, c).Some?
    ensures Ascends(t + [c], Step(p, m, c).value.stage)
  {
    var g' := Step(p, m, c).value.stage;
    assert Subject(g') == Some(c.addr);
    forall i | 0 <= i < |t| ensures t[i].addr == c.addr || Less(t[i].addr, c.addr) {
      if m.stage.Between? && t[i].addr != m.stage.last.value { LessTransitive(t[i].addr, m.stage.last.value, c.addr); }
    }
  }

  lemma {:induction false} FollowOrdered(p: Plan, m: Mon, t: seq<Call>)
    requires m.stage == Between(None) && Follow(p, m, t).Some?
    ensures Ascends(t, Follow(p, m, t).value.stage)
    decreases |t|
  {
    if t != [] {
      var init := t[..|t| - 1];
      FollowSnoc(p, m, t);
      FollowOrdered(p, m, init);
      OrderedStep(p, Follow(p, m, init).value, init, t[|t| - 1]);
      assert t == init + [t[|t| - 1]];
    }
  }

  /** Nodes drained and not uncordoned since, within the trace. */
  function Cordoned(t: seq<Call>): set<string>
  {
    if t == [] then {}
    else
      var c, before := t[|t| - 1], Cordoned(t[..|t| - 1]);
      if c.Drain? then before + {c.addr} else if c.Uncordon? && c.ok then before - {c.addr} else before
  }

  function MayBeCordoned(g: Stage): set<string>
  {
    match g
    case Between(_) => {}
    case Vouched(_) => {}
    case Outdated(_) => {}
    case Snapped(_) => {}
    case Cordoning(_) => {}
    case _ => {g.addr}
  }

  lemma {:induction false} FollowCordons(p: Plan, m: Mon, t: seq<Call>)
    requires m.stage == Between(None) && Follow(p, m, t).Some?
    ensures Cordoned(t) <= MayBeCordoned(Follow(p, m, t).value.stage)
    decreases |t|
  {
    if t != [] {
      FollowSnoc(p, m, t);
      FollowCordons(p, m, t[..|t| - 1]);
    }
  }

  /** Before a node's upgrade in a snapshotting pool: its snapshot, then nothing but that node. */
  ghost predicate SnapStory(t: seq<Call>, a: string)
  {
    exists i :: 0 <= i < |t| && t[i] == Snapshot(a, true) && forall m :: i < m < |t| ==> t[m].addr == a
  }

  lemma SnapExtends(t: seq<Call>, a: string, c: Call)
    requires SnapStory(t, a) && c.addr == a
    ensures SnapStory(t + [c], a)
  {
    var i :| 0 <= i < |t| && t[i] == Snapshot(a, true) && forall m :: i < m < |t| ==> t[m].addr == a;
    assert (t + [c])[i] == Snapshot(a, true);
  }

  predicate AfterSnapshot(g: Stage)
  {
    g.Snapped? || g.Cordoning? || g.Drained? || g.Ordered? || g.Imaged?
  }

  lemma {:induction false} FollowSnapped(p: Plan, m: Mon, t: seq<Call>)
    requires m.stage == Between(None) && p.snapshot && Follow(p, m, t).Some?
    ensures AfterSnapshot(Follow(p, m, t).value.stage) ==> SnapStory(t, Follow(p, m, t).value.stage.addr)
    decreases |t|
  {
    if t != [] {
      var init, c := t[..|t| - 1], t[|t| - 1];
      FollowSnoc(p, m, t);
      FollowSnapped(p, m, init);
      var g, g' := Follow(p, m, init).value.stage, Follow(p, m, t).value.stage;
      assert t == init + [c];
      if AfterSnapshot(g') {
        if g'.Snapped? { assert t[|t| - 1] == Snapshot(g'.addr, true); } else { SnapExtends(init, g.addr, c); }
      }
    }
  }

  /** A version read of `a` that showed another version than the target, then nothing but `a`, and no Done. */
  ghost predicate BehindStory(p: Plan, t: seq<Call>, a: string)
  {
    exists i :: 0 <= i < |t| && ReadsBehind(p, t[i], a) && forall m :: i < m < |t| ==> t[m].addr == a && !RecordsDone(t[m])
  }

  predicate RecordsDone(c: Call)
  {
    c.SetState? && c.state == Done
  }

  predicate ReadsBehind(p: Plan, c: Call, a: string)
  {
    c.ReadVersion? && c.addr == a && c.version.Some? && c.version.value != p.target
  }

  lemma BehindExtends(p: Plan, t: seq<Call>, a: string, c: Call)
    requires ReadsBehind(p, c, a) || (BehindStory(p, t, a) && c.addr == a && !RecordsDone(c))
    ensures BehindStory(p, t + [c], a)
  {
    if ReadsBehind(p, c, a) {
      assert ReadsBehind(p, (t + [c])[|t|], a);
    } else {
      var i :| 0 <= i < |t| && ReadsBehind(p, t[i], a) && forall m :: i < m < |t| ==> t[m].addr == a && !RecordsDone(t[m]);
      assert ReadsBehind(p, (t + [c])[i], a);
    }
  }

  /** A stage before the upgrade is entered from one about the same node, or by reading that node behind. */
  lemma IntoBefore(p: Plan, m: Mon, c: Call)
    requires Step(p, m, c).Some? && BeforeUpgrade(Step(p, m, c).value.stage)
    ensures var a := Step(p, m, c).value.stage.addr; c.addr == a && !RecordsDone(c) && (ReadsBehind(p, c, a) || (BeforeUpgrade(m.stage) && m.stage.addr == a))
  {
  }

  lemma {:induction false} FollowBehind(p: Plan, m: Mon, t: seq<Call>)
    requires m.stage == Between(None) && Follow(p, m, t).Some?
    ensures var g := Follow(p, m, t).value.stage; BeforeUpgrade(g) ==> BehindStory(p, t, g.addr)
    decreases |t|
  {
    if t != [] {
      var init, c := t[..|t| - 1], t[|t| - 1];
      FollowSnoc(p, m, t);
      FollowBehind(p, m, init);
      var g := Follow(p, m, t).value.stage;
      assert t == init + [c];
      if BeforeUpgrade(g) {
        IntoBefore(p, Follow(p, m, init).value, c);
        BehindExtends(p, init, g.addr, c);
      }
    }
  }

  /** A version read of `a` that showed the target, then nothing but `a`. */
  predicate ReadsTarget(p: Plan, c: Call, a: string)
  {
    c == ReadVersion(a, Some(p.target)) || (c.Poll? && c.addr == a && c.ready && c.seen == p.target)
  }

  ghost predicate VouchStory(p: Plan, t: seq<Call>, a: string)
  {
    exists i :: 0 <= i < |t| && ReadsTarget(p, t[i], a) && forall m :: i < m < |t| ==> t[m].addr == a
  }

  lemma VouchExtends(p: Plan, t: seq<Call>, a: string, c: Call)
    requires VouchStory(p, t, a) && c.addr == a
    ensures VouchStory(p, t + [c], a)
  {
    var i :| 0 <= i < |t| && ReadsTarget(p, t[i], a) && forall m :: i < m < |t| ==> t[m].addr == a;
    assert ReadsTarget(p, (t + [c])[i], a);
  }

  lemma VouchStarts(p: Plan, t: seq<Call>, a: string, c: Call)
    requires ReadsTarget(p, c, a)
    ensures VouchStory(p, t + [c], a)
  {
    assert ReadsTarget(p, (t + [c])[|t|], a);
  }

  lemma {:induction false} FollowVouched(p: Plan, m: Mon, t: seq<Call>)
    requires m.stage == Between(None) && Follow(p, m, t).Some?
    ensures var g := Follow(p, m, t).value.stage; g.Vouched? || g.Well? ==> VouchStory(p, t, g.addr)
    decreases |t|
  {
    if t != [] {
      var init, c := t[..|t| - 1], t[|t| - 1];
      FollowSnoc(p, m, t);
      FollowVouched(p, m, init);
      var n := Follow(p, m, init).value;
      var g' := Follow(p, m, t).value.stage;
      Into(p, n, c);
      assert t == init + [c];
      if g'.Vouched? && n.stage.Well? {
        VouchExtends(p, init, g'.addr, c);
      } else if g'.Vouched? || g'.Well? {
        VouchStarts(p, init, g'.addr, c);
      }
    }
  }

  /** How each stage is entered. */
  lemma Into(p: Plan, m: Mon, c: Call)
    requires Step(p, m, c).Some?
    ensures var g := Step(p, m, c).value.stage;
            && (g.Between? ==> m.stage == Vouched(c.addr) && g == Between(Some(c.addr)) && c == SetState(c.addr, Done, p.target))
            && (!g.Between? ==> c.addr == g.addr)
            && (g.Cordoning? ==> c == SetState(g.addr, Draining, p.target))
            && (g.Drained? ==> m.stage == Cordoning(g.addr) && c == Drain(g.addr, NameFor(p.nodes, g.addr), true))
            && (g.Ordered? ==> m.stage == Drained(g.addr) && c == SetState(g.addr, Upgrading, p.target))
            && (g.Imaged? ==> m.stage == Ordered(g.addr) && c == ReadImage(g.addr, Some(g.image)))
            && (g.Well? ==> ReadsTarget(p, c, g.addr))
            && (g.Vouched? ==> m.stage == Well(g.addr) || ReadsTarget(p, c, g.addr))
            && (g.Over? ==> c == SetState(g.addr, Failed, p.target))
            && (Fails(c) <==> g.Failing?)
  {
  }

  /** What each stage lets through. */
  lemma OutOf(p: Plan, m: Mon, c: Call)
    requires Step(p, m, c).Some?
    ensures !m.stage.Over?
    ensures m.stage.Failing? ==> c == SetState(m.stage.addr, Failed, p.target) && Step(p, m, c).value.stage == Over(c.addr)
    ensures c.Drain? ==> m.stage == Cordoning(c.addr) && c.name == NameFor(p.nodes, c.addr)
    ensures c.UpgradeOS? ==>
              m.stage.Imaged? && m.stage.addr == c.addr && c.installer == DeriveInstallerImage(m.stage.image, p.target)
    ensures c.SetState? ==> c.target == p.target && (c.state == Done ==> m.stage == Vouched(c.addr))
  {
  }

  /** The stage just before an entry of the trace, and that the entry was a legal step from it. */
  lemma StepAt(p: Plan, m: Mon, t: seq<Call>, j: nat)
    requires MInv(p, m) && Follow(p, m, t).Some? && j < |t|
    ensures Follow(p, m, t[..j]).Some? && MInv(p, Follow(p, m, t[..j]).value)
    ensures Step(p, Follow(p, m, t[..j]).value, t[j]).Some?
  {
    FollowPrefix(p, m, t, j + 1);
    FollowPrefix(p, m, t, j);
    FollowInv(p, m, t[..j]);
    FollowSnoc(p, m, t[..j + 1]);
    assert t[..j + 1][..j] == t[..j];
  }

  /** What one cut pass may do, whatever the seams answered and wherever it was cut. */
  lemma PassDiscipline(n: CutPass, recs: Recs)
    requires DistinctMembers(n.input) && Gate(n.input).Ok?
    ensures var t := Cut(n, recs);
            && (forall i, j :: 0 <= i < j < |t| ==> t[i].addr == t[j].addr || Less(t[i].addr, t[j].addr))
            && (forall k, a, b :: 0 <= k <= |t| && a in Cordoned(t[..k]) && b in Cordoned(t[..k]) ==> a == b)
  {
    var p, t := Gate(n.input).value, Cut(n, recs);
    CutFollows(n, recs, {});
    FollowOrdered(p, Fresh(recs, {}), t);
    forall k, a, b | 0 <= k <= |t| && a in Cordoned(t[..k]) && b in Cordoned(t[..k]) ensures a == b {
      FollowPrefix(p, Fresh(recs, {}), t, k);
      FollowCordons(p, Fresh(recs, {}), t[..k]);
    }
  }

  lemma LastStep(p: Plan, m: Mon, t: seq<Call>)
    requires m.stage == Between(None) && Follow(p, m, t).Some? && Follow(p, m, t).value.stage != Between(None)
    ensures t != []
    ensures var init := t[..|t| - 1];
            Follow(p, m, init).Some? && Step(p, Follow(p, m, init).value, t[|t| - 1]) == Follow(p, m, t)
  {
    FollowSnoc(p, m, t);
  }

  lemma DrainAt(p: Plan, m: Mon, t: seq<Call>, j: nat)
    requires MInv(p, m) && m.stage == Between(None) && Follow(p, m, t).Some? && j < |t| && t[j].Drain?
    ensures MayStart(p, t[j].addr) && t[j].name == NameFor(p.nodes, t[j].addr)
    ensures j > 0 && t[j - 1] == SetState(t[j].addr, Draining, p.target)
  {
    StepAt(p, m, t, j);
    OutOf(p, Follow(p, m, t[..j]).value, t[j]);
    LastStep(p, m, t[..j]);
    Into(p, Follow(p, m, t[..j][..j - 1]).value, t[j - 1]);
  }

  // ----- the plan in the terms of the stored pool and the listing -----

  /** The version asked for: the pool's own, else the cluster's. */
  predicate Wanted(np: NodePool, cl: Option<Cluster>, target: string)
  {
    && target != ""
    && if np.desired.Some? && np.desired.value != "" then np.desired == Some(target)
       else cl.Some? && cl.value.desired.Some? && cl.value.desired.value.talosVersion == target
  }

  /** Snapshots are for control-plane pools whose strategy asks for them. */
  predicate WantsSnapshot(np: NodePool)
  {
    np.role == ControlPlane && np.strategy.Some? && np.strategy.value.snapshotBeforeControlPlane
  }

  /** How many of a pool may be away at once: the strategy's number, and one where it gives none. */
  function Allowance(np: NodePool): nat
  {
    if np.strategy.Some? && np.strategy.value.maxUnavailable > 1 then np.strategy.value.maxUnavailable else 1
  }

  /** A pass gets past its checks exactly when the pool is there and not paused, a version is wanted and nodes are listed. */
  lemma GateIff(n: PassInput)
    ensures Gate(n).Ok? <==> n.np.Some? && !n.np.value.paused && n.nodes.Some? && exists t :: Wanted(n.np.value, n.cl, t)
    ensures Gate(n).Ok? ==>
              var p := Gate(n).value;
              && Wanted(n.np.value, n.cl, p.target) && p.nodes == n.nodes.value && (p.snapshot <==> WantsSnapshot(n.np.value))
              && p.budget == Allowance(n.np.value) && (forall a :: a in p.members <==> a in n.np.value.members)
    ensures Gate(n).Ok? && DistinctMembers(n) ==> Ascending(Gate(n).value.members)
  {
    if Gate(n).Ok? {
      var np := n.np.value;
      assert Wanted(np, n.cl, Gate(n).value.target);
      forall a ensures a in Sort(np.members) <==> a in np.members { SortMembers(np.members, a); }
      if Distinct(np.members) { SortAscending(np.members); }
    } else if n.np.Some? && !n.np.value.paused && n.nodes.Some? {
      forall t ensures !Wanted(n.np.value, n.cl, t) { }
    }
  }

  /** The budget in the pool's and the listing's own terms. */
  lemma OverBudgetIff(n: PassInput, a: string)
    requires DistinctMembers(n) && Gate(n).Ok?
    ensures OverBudget(Gate(n).value, a) <==> |Down(n.nodes.value, n.np.value.members, a)| >= Allowance(n.np.value)
  {
    var p := Gate(n).value;
    GateIff(n);
    forall i, j | 0 <= i < j < |p.members| ensures p.members[i] != p.members[j] { LessAsymmetric(p.members[i], p.members[j]); }
    CountIsSize(p.nodes, p.members, a);
    assert Down(p.nodes, p.members, a) == Down(n.nodes.value, n.np.value.members, a);
  }

  /**
   * A drain starts only with fewer members down than the strategy allows, on the node the listing last gave that
   * address, with its record already Draining at the wanted version.
   */
  lemma DrainWithinBudget(n: CutPass, recs: Recs, j: nat)
    requires DistinctMembers(n.input)
    ensures var t := Cut(n, recs);
            j < |t| && t[j].Drain? ==>
              && n.input.np.Some? && n.input.nodes.Some?
              && var np, nodes, a := n.input.np.value, n.input.nodes.value, t[j].addr;
              && a in np.members && |Down(nodes, np.members, a)| < Allowance(np)
              && t[j].name != "" && (exists i: nat :: LastEntry(nodes, a, i) && nodes[i].name == t[j].name)
              && j > 0 && t[j - 1].SetState? && t[j - 1].addr == a && t[j - 1].state == Draining && Wanted(np, n.input.cl, t[j - 1].target)
  {
    var t := Cut(n, recs);
    if j < |t| && t[j].Drain? {
      var p, a := Gate(n.input).value, t[j].addr;
      CutFollows(n, recs, {});
      DrainAt(p, Fresh(recs, {}), t, j);
      OverBudgetIff(n.input, a);
      GateIff(n.input);
      LookupIff(p.nodes, a);
      CutMember(n, recs, j);
    }
  }

  lemma CutMember(n: CutPass, recs: Recs, j: nat)
    requires DistinctMembers(n.input) && j < |Cut(n, recs)|
    ensures n.input.np.Some? && Cut(n, recs)[j].addr in n.input.np.value.members
  {
    GateIff(n.input);
    HaltOnFailure(n.input, recs);
    var p, t := Gate(n.input).value, ReconcileCalls(n.input, recs);
    var v := ReconcileVerdict(n.input, recs);
    assert t[j] in t && Cut(n, recs)[j] == t[j];
    assert MadeCalls(p, t, v.outcome, 0);
  }

  /** And a pass stops short of a member only where as many others are down as the strategy allows. */
  lemma BlockedMeansDown(n: PassInput, recs: Recs)
    requires DistinctMembers(n)
    ensures var v := ReconcileVerdict(n, recs);
            v.Ran? && v.outcome.BlockedAt? ==>
              && n.np.Some? && n.nodes.Some?
              && exists a :: a in n.np.value.members && |Down(n.nodes.value, n.np.value.members, a)| >= Allowance(n.np.value)
                               && forall c :: c in ReconcileCalls(n, recs) && c.addr == a ==> c.ReadVersion?
  {
    var v := ReconcileVerdict(n, recs);
    if v.Ran? && v.outcome.BlockedAt? {
      var p := Gate(n).value;
      HaltOnFailure(n, recs);
      GateIff(n);
      assert MadeCalls(p, ReconcileCalls(n, recs), v.outcome, 0);
      var a := p.members[v.outcome.i];
      OverBudgetIff(n, a);
      assert a in n.np.value.members;
    }
  }

  /**
   * In a control-plane pool that asks for it each UpgradeOS follows a successful snapshot of that node, with no other
   * node touched since; elsewhere nothing is snapshotted.
   */
  lemma SnapshotFirst(n: CutPass, recs: Recs, j: nat)
    requires DistinctMembers(n.input)
    ensures var t := Cut(n, recs);
            j < |t| ==>
              && n.input.np.Some?
              && (t[j].UpgradeOS? && WantsSnapshot(n.input.np.value) ==> SnapStory(t[..j], t[j].addr))
              && (t[j].Snapshot? ==> WantsSnapshot(n.input.np.value))
  {
    var t := Cut(n, recs);
    if j < |t| {
      var p := Gate(n.input).value;
      CutFollows(n, recs, {});
      GateIff(n.input);
      StepAt(p, Fresh(recs, {}), t, j);
      OutOf(p, Follow(p, Fresh(recs, {}), t[..j]).value, t[j]);
      if t[j].UpgradeOS? && p.snapshot { FollowSnapped(p, Fresh(recs, {}), t[..j]); }
      if t[j].Snapshot? { SnapshotOut(p, Follow(p, Fresh(recs, {}), t[..j]).value, t[j]); }
    }
  }

  lemma SnapshotOut(p: Plan, m: Mon, c: Call)
    requires Step(p, m, c).Some? && c.Snapshot?
    ensures p.snapshot
  {
  }

  lemma UpgradeAt(p: Plan, m: Mon, t: seq<Call>, j: nat)
    requires MInv(p, m) && m.stage == Between(None) && Follow(p, m, t).Some? && j < |t| && t[j].UpgradeOS?
    ensures var a := t[j].addr;
            && j >= 3
            && t[j - 3] == Drain(a, NameFor(p.nodes, a), true)
            && t[j - 2] == SetState(a, Upgrading, p.target)
            && t[j - 1].ReadImage? && t[j - 1].addr == a && t[j - 1].image.Some?
            && t[j].installer == DeriveInstallerImage(t[j - 1].image.value, p.target)
  {
    StepAt(p, m, t, j);
    OutOf(p, Follow(p, m, t[..j]).value, t[j]);
    ImagedStory(p, m, t[..j]);
  }

  /** A node whose upgrade is recorded was drained just before. */
  lemma OrderedStory(p: Plan, m: Mon, t: seq<Call>)
    requires m.stage == Between(None) && Follow(p, m, t).Some? && Follow(p, m, t).value.stage.Ordered?
    ensures var a, k := Follow(p, m, t).value.stage.addr, |t|;
            k >= 2 && t[k - 2] == Drain(a, NameFor(p.nodes, a), true) && t[k - 1] == SetState(a, Upgrading, p.target)
  {
    var k := |t|;
    LastStep(p, m, t);
    Into(p, Follow(p, m, t[..k - 1]).value, t[k - 1]);
    LastStep(p, m, t[..k - 1]);
    assert t[..k - 1][..k - 2] == t[..k - 2];
    Into(p, Follow(p, m, t[..k - 2]).value, t[k - 2]);
  }

  lemma ImagedStory(p: Plan, m: Mon, t: seq<Call>)
    requires m.stage == Between(None) && Follow(p, m, t).Some? && Follow(p, m, t).value.stage.Imaged?
    ensures var g, k := Follow(p, m, t).value.stage, |t|;
            && k >= 3 && t[k - 3] == Drain(g.addr, NameFor(p.nodes, g.addr), true)
            && t[k - 2] == SetState(g.addr, Upgrading, p.target) && t[k - 1] == ReadImage(g.addr, Some(g.image))
  {
    var k := |t|;
    LastStep(p, m, t);
    Into(p, Follow(p, m, t[..k - 1]).value, t[k - 1]);
    OrderedStory(p, m, t[..k - 1]);
  }

  /** Each UpgradeOS is the fourth of drain, record, read image, upgrade, and carries the derived image. */
  lemma UpgradeBlock(n: CutPass, recs: Recs, j: nat)
    requires DistinctMembers(n.input) && Gate(n.input).Ok?
    ensures var p, t := Gate(n.input).value, Cut(n, recs);
            j < |t| && t[j].UpgradeOS? ==>
              var a := t[j].addr;
              && j >= 3
              && t[j - 3] == Drain(a, NameFor(p.nodes, a), true)
              && t[j - 2] == SetState(a, Upgrading, p.target)
              && t[j - 1].ReadImage? && t[j - 1].addr == a && t[j - 1].image.Some?
              && t[j].installer == DeriveInstallerImage(t[j - 1].image.value, p.target)
  {
    var t := Cut(n, recs);
    CutFollows(n, recs, {});
    if j < |t| && t[j].UpgradeOS? { UpgradeAt(Gate(n.input).value, Fresh(recs, {}), t, j); }
  }

  /** Each UpgradeOS rests on a version read of that node, in the same pass, that showed another version than the target. */
  lemma UpgradeReadBehind(n: CutPass, recs: Recs, j: nat)
    requires DistinctMembers(n.input) && Gate(n.input).Ok?
    ensures var p, t := Gate(n.input).value, Cut(n, recs);
            j < |t| && t[j].UpgradeOS? ==> BehindStory(p, t[..j], t[j].addr)
  {
    var p, m, t := Gate(n.input).value, Fresh(recs, {}), Cut(n, recs);
    CutFollows(n, recs, {});
    if j < |t| && t[j].UpgradeOS? {
      StepAt(p, m, t, j);
      OutOf(p, Follow(p, m, t[..j]).value, t[j]);
      FollowBehind(p, m, t[..j]);
    }
  }

  /** Each record of Done rests on a version read of that node, in the same pass, equal to the non-empty target. */
  lemma DoneIsVouched(n: CutPass, recs: Recs, j: nat)
    requires DistinctMembers(n.input) && Gate(n.input).Ok?
    ensures var p, t := Gate(n.input).value, Cut(n, recs);
            j < |t| && t[j].SetState? && t[j].state == Done ==>
              p.target != "" && t[j].target == p.target && VouchStory(p, t[..j], t[j].addr)
  {
    CutFollows(n, recs, {});
    DoneAt(Gate(n.input).value, Fresh(recs, {}), Cut(n, recs), j);
  }

  lemma DoneAt(p: Plan, m: Mon, t: seq<Call>, j: nat)
    requires MInv(p, m) && m.stage == Between(None) && Follow(p, m, t).Some?
    ensures j < |t| && t[j].SetState? && t[j].state == Done ==> t[j].target == p.target && VouchStory(p, t[..j], t[j].addr)
  {
    if j < |t| && t[j].SetState? && t[j].state == Done {
      StepAt(p, m, t, j);
      OutOf(p, Follow(p, m, t[..j]).value, t[j]);
      FollowVouched(p, m, t[..j]);
    }
  }

  lemma FailureAt(p: Plan, m: Mon, t: seq<Call>, j: nat)
    requires MInv(p, m) && m.stage == Between(None) && Follow(p, m, t).Some? && j < |t| && Fails(t[j])
    ensures |t| <= j + 2 && (j + 1 < |t| ==> t[j + 1] == SetState(t[j].addr, Failed, p.target))
  {
    StepAt(p, m, t, j);
    Into(p, Follow(p, m, t[..j]).value, t[j]);
    if j + 1 < |t| {
      StepAt(p, m, t, j + 1);
      FollowSnoc(p, m, t[..j + 1]);
      assert t[..j + 1][..j] == t[..j];
      OutOf(p, Follow(p, m, t[..j + 1]).value, t[j + 1]);
      NothingAfterOver(p, m, t, j + 1);
    }
  }

  lemma NothingAfterOver(p: Plan, m: Mon, t: seq<Call>, j: nat)
    requires MInv(p, m) && Follow(p, m, t).Some? && j < |t|
    requires Follow(p, m, t[..j]).Some? && Step(p, Follow(p, m, t[..j]).value, t[j]).Some?
    requires Step(p, Follow(p, m, t[..j]).value, t[j]).value.stage.Over?
    ensures |t| == j + 1
  {
    if j + 1 < |t| {
      FollowPrefix(p, m, t, j + 1);
      FollowSnoc(p, m, t[..j + 1]);
      assert t[..j + 1][..j] == t[..j];
      StepAt(p, m, t, j + 1);
      OutOf(p, Follow(p, m, t[..j + 1]).value, t[j + 1]);
    }
  }

  /** After a call fails, the only thing left in the pass is recording that node Failed. */
  lemma FailureStops(n: CutPass, recs: Recs, j: nat)
    requires DistinctMembers(n.input) && Gate(n.input).Ok?
    requires j < |Cut(n, recs)| && Fails(Cut(n, recs)[j])
    ensures var p, t := Gate(n.input).value, Cut(n, recs);
            |t| <= j + 2 && (j + 1 < |t| ==> t[j + 1] == SetState(t[j].addr, Failed, p.target))
  {
    CutFollows(n, recs, {});
    FailureAt(Gate(n.input).value, Fresh(recs, {}), Cut(n, recs), j);
  }

  // ----- halt on failure -----

  /** What one member's calls leave in its record. */
  lemma NodeResult(p: Plan, a: string, recs: Recs, r: Replies)
    ensures var s := StateOf(recs, a);
            var w, after := NodeWord(p, a, s, r), RecsAfter(recs, NodeWord(p, a, s, r));
            match NodeEnding(p, a, s, r)
            case Finished => a in after && after[a] == Rec(Done, p.target)
            case Halted => a in after && after[a] == Rec(Failed, p.target)
            case Blocked => w == [ReadVersion(a, r.version)] && after == recs && OverBudget(p, a)
  {
    var s := StateOf(recs, a);
    var w, m := NodeWord(p, a, s, r), Fresh(recs, {});
    NodeFollows(p, m, a, r);
    FollowRecs(p, m, w);
    if NodeEnding(p, a, s, r) == Blocked {
      assert w == [ReadVersion(a, r.version)] + [];
      RecsCons(recs, ReadVersion(a, r.version), []);
    } else {
      LastStep(p, m, w);
      Into(p, Follow(p, m, w[..|w| - 1]).value, w[|w| - 1]);
    }
  }

  function EndOf(o: Outcome, n: nat): nat
  {
    match o
    case Converged => n
    case BlockedAt(k) => k
    case HaltedAt(k) => k
  }

  /**
   * What a pass from member `i` on leaves behind: everything before the stopping point Done, the
   * halting member Failed, every other record as it was, and no call beyond the stopping point.
   */
  ghost predicate PassResult(p: Plan, recs: Recs, run: PassRun, i: nat)
    requires i <= |p.members|
  {
    && i <= EndOf(run.outcome, |p.members|) <= |p.members| && (!run.outcome.Converged? ==> EndOf(run.outcome, |p.members|) < |p.members|)
    && LeftRecs(p, recs, RecsAfter(recs, run.calls), run.outcome, i) && MadeCalls(p, run.calls, run.outcome, i)
  }

  ghost predicate SameRec(recs: Recs, recs': Recs, b: string)
  {
    (b in recs' <==> b in recs) && (b in recs ==> recs'[b] == recs[b])
  }

  /** Members from `i` to the end reached are Done, the one halted at is Failed, everything else is as it was. */
  ghost predicate LeftRecs(p: Plan, recs: Recs, after: Recs, o: Outcome, i: nat)
    requires i <= EndOf(o, |p.members|) <= |p.members| && (!o.Converged? ==> EndOf(o, |p.members|) < |p.members|)
  {
    var e := EndOf(o, |p.members|);
    && (forall j :: i <= j < e ==> p.members[j] in after && after[p.members[j]] == Rec(Done, p.target))
    && (o.HaltedAt? ==> p.members[e] in after && after[p.members[e]] == Rec(Failed, p.target))
    && (forall b :: b !in p.members[i..e] && !(o.HaltedAt? && b == p.members[e]) ==> SameRec(recs, after, b))
  }

  /** Calls are about those members only; the one blocked at is over budget and only had its version read. */
  ghost predicate MadeCalls(p: Plan, calls: seq<Call>, o: Outcome, i: nat)
    requires i <= EndOf(o, |p.members|) <= |p.members| && (!o.Converged? ==> EndOf(o, |p.members|) < |p.members|)
  {
    var e := EndOf(o, |p.members|);
    && (o.BlockedAt? ==> OverBudget(p, p.members[e]))
    && (forall c :: c in calls ==> c.addr in p.members[i..e] || (e < |p.members| && c.addr == p.members[e]))
    && (o.BlockedAt? ==> forall c :: c in calls && c.addr == p.members[e] ==> c.ReadVersion?)
  }

  lemma {:induction false} AfterAll(p: Plan, recs: Recs, replies: nat -> Replies, i: nat) returns (run: PassRun)
    requires i <= |p.members| && Ascending(p.members)
    ensures run == Pass(p, recs, replies, i) && PassResult(p, recs, run, i)
    decreases |p.members| - i
  {
    if i == |p.members| {
      run := PassRun([], Converged);
      NoMembers(p, recs);
    } else {
      var w, ending := FirstMember(p, recs, replies, i);
      if ending == Finished {
        var rest := AfterAll(p, RecsAfter(recs, w), replies, i + 1);
        run := PassRun(w + rest.calls, rest.outcome);
        PassStep(p, recs, w, rest, i);
      } else {
        run := PassRun(w, if ending == Halted then HaltedAt(i) else BlockedAt(i));
        PassStops(p, recs, w, run.outcome, i);
      }
    }
  }

  lemma NoMembers(p: Plan, recs: Recs)
    ensures PassResult(p, recs, PassRun([], Converged), |p.members|)
  {
  }

  /** The calls about member `i`, how they end, and how the pass goes on from there. */
  lemma FirstMember(p: Plan, recs: Recs, replies: nat -> Replies, i: nat) returns (w: seq<Call>, ending: Ending)
    requires i < |p.members|
    ensures About(w, p.members[i]) && forall b :: b != p.members[i] ==> SameRec(recs, RecsAfter(recs, w), b)
    ensures var a, recs', run := p.members[i], RecsAfter(recs, w), Pass(p, recs, replies, i);
            match ending
            case Finished =>
              var rest := Pass(p, recs', replies, i + 1);
              a in recs' && recs'[a] == Rec(Done, p.target) && run == PassRun(w + rest.calls, rest.outcome)
            case Halted => a in recs' && recs'[a] == Rec(Failed, p.target) && run == PassRun(w, HaltedAt(i))
            case Blocked =>
              && recs' == recs && OverBudget(p, a) && run == PassRun(w, BlockedAt(i))
              && forall c :: c in w ==> c.ReadVersion?
  {
    var a := p.members[i];
    var s := StateOf(recs, a);
    w, ending := NodeWord(p, a, s, replies(i)), NodeEnding(p, a, s, replies(i));
    NodeResult(p, a, recs, replies(i));
    NodeAbout(p, a, s, replies(i));
    forall b | b != a ensures SameRec(recs, RecsAfter(recs, w), b) {
      RecsElsewhere(recs, w, a, b);
    }
  }

  lemma PassStops(p: Plan, recs: Recs, w: seq<Call>, o: Outcome, i: nat)
    requires i < |p.members| && About(w, p.members[i])
    requires var a, recs' := p.members[i], RecsAfter(recs, w);
             && (forall b :: b != a ==> SameRec(recs, recs', b))
             && (|| (o == HaltedAt(i) && a in recs' && recs'[a] == Rec(Failed, p.target))
                 || (o == BlockedAt(i) && recs' == recs && OverBudget(p, a) && forall c :: c in w ==> c.ReadVersion?))
    ensures PassResult(p, recs, PassRun(w, o), i)
  {
    assert forall c :: c in w ==> c.addr == p.members[i];
  }

  lemma PassStep(p: Plan, recs: Recs, w: seq<Call>, rest: PassRun, i: nat)
    requires i < |p.members| && Ascending(p.members)
    requires About(w, p.members[i])
    requires var recs' := RecsAfter(recs, w);
             && p.members[i] in recs' && recs'[p.members[i]] == Rec(Done, p.target)
             && (forall b :: b != p.members[i] ==> SameRec(recs, recs', b))
             && PassResult(p, recs', rest, i + 1)
    ensures PassResult(p, recs, PassRun(w + rest.calls, rest.outcome), i)
  {
    RecsConcat(recs, w, rest.calls);
    var recs' := RecsAfter(recs, w);
    StepMembers(p, i, EndOf(rest.outcome, |p.members|));
    StepRecs(p, recs, recs', RecsAfter(recs', rest.calls), rest.outcome, i);
    StepCalls(p, w, rest.calls, rest.outcome, i);
  }

  lemma StepMembers(p: Plan, i: nat, e: nat)
    requires i < e <= |p.members| && Ascending(p.members)
    ensures p.members[i..e] == [p.members[i]] + p.members[i + 1..e] && p.members[i] !in p.members[i + 1..e]
    ensures e < |p.members| ==> p.members[i] != p.members[e]
  {
    forall j | i < j < |p.members| ensures p.members[j] != p.members[i] { LessAsymmetric(p.members[i], p.members[j]); }
  }

  /** The records: member `i` first, from `recs` to `recs'`, then the rest, to `after`. */
  lemma StepRecs(p: Plan, recs: Recs, recs': Recs, after: Recs, o: Outcome, i: nat)
    requires i < EndOf(o, |p.members|) <= |p.members| && (!o.Converged? ==> EndOf(o, |p.members|) < |p.members|) && Ascending(p.members)
    requires var a := p.members[i]; a in recs' && recs'[a] == Rec(Done, p.target) && (forall b :: b != a ==> SameRec(recs, recs', b))
    requires LeftRecs(p, recs', after, o, i + 1)
    ensures LeftRecs(p, recs, after, o, i)
  {
    var e := EndOf(o, |p.members|);
    StepMembers(p, i, e);
    assert SameRec(recs', after, p.members[i]);
    forall b | b !in p.members[i..e] && !(o.HaltedAt? && b == p.members[e]) ensures SameRec(recs, after, b) {
      assert SameRec(recs, recs', b) && SameRec(recs', after, b);
    }
  }

  /** The calls of a pass that starts with `w` on member `i`. */
  lemma StepCalls(p: Plan, w: seq<Call>, rest: seq<Call>, o: Outcome, i: nat)
    requires i < EndOf(o, |p.members|) <= |p.members| && (!o.Converged? ==> EndOf(o, |p.members|) < |p.members|) && Ascending(p.members)
    requires About(w, p.members[i]) && MadeCalls(p, rest, o, i + 1)
    ensures MadeCalls(p, w + rest, o, i)
  {
    StepMembers(p, i, EndOf(o, |p.members|));
    assert forall c :: c in w ==> c.addr == p.members[i];
  }

  /**
   * Halt on failure, and what nil means. A pass that returns an error after starting has every earlier
   * member Done at the target, the failing member Failed, and nothing later touched. A nil pass was
   * paused without effect, stopped by the budget after a Done prefix, or left every member Done.
   */
  lemma HaltOnFailure(n: PassInput, recs: Recs)
    requires DistinctMembers(n)
    ensures var v, t := ReconcileVerdict(n, recs), ReconcileCalls(n, recs);
            && (!v.Ran? ==> t == [])
            && (v.Ran? ==> PassResult(Gate(n).value, recs, PassRun(t, v.outcome), 0))
            && (ReturnsNil(v) <==> (n.np.Some? && n.np.value.paused) || (v.Ran? && !v.outcome.HaltedAt?))
  {
    if Gate(n).Ok? {
      SortAscending(n.np.value.members);
      var _ := AfterAll(Gate(n).value, recs, n.replies, 0);
    }
  }

  // ----- one upgrade per node and pass -----

  predicate PastMember(g: Stage, a: string)
  {
    if g.Between? then g.last.Some? && (g.last.value == a || Less(a, g.last.value)) else Less(a, g.addr)
  }

  /** Once a member is behind, nothing in the pass is about it. */
  lemma {:induction false} NothingBehind(p: Plan, m: Mon, t: seq<Call>, a: string)
    requires PastMember(m.stage, a) && Follow(p, m, t).Some?
    ensures forall k :: 0 <= k < |t| ==> Less(a, t[k].addr)
    decreases |t|
  {
    if t != [] {
      var n := Step(p, m, t[0]).value;
      if m.stage.Between? && m.stage.last.value != a { LessTransitive(a, m.stage.last.value, t[0].addr); }
      assert PastMember(n.stage, a);
      NothingBehind(p, n, t[1..], a);
    }
  }

  lemma UpgradesDiffer(p: Plan, m: Mon, t: seq<Call>, i: nat, j: nat)
    requires MInv(p, m) && m.stage == Between(None) && m.unsettled == {} && Follow(p, m, t).Some?
    requires i < j < |t| && t[i].UpgradeOS? && t[j].UpgradeOS?
    ensures t[i].addr != t[j].addr
  {
    if t[i].addr == t[j].addr {
      FollowSound(p, m, t);
      SettledBetween(m.recs, t, i, j);
      var k :| i < k < j && t[k].SetState? && t[k].addr == t[i].addr && (t[k].state == Done || t[k].state == Failed);
      StepAt(p, m, t, k);
      OutOf(p, Follow(p, m, t[..k]).value, t[k]);
      if t[k].state == Failed {
        FailedIsOver(p, Follow(p, m, t[..k]).value, t[k]);
        NothingAfterOver(p, m, t, k);
      } else {
        DoneIsBehind(p, m, t, k, j);
        LessAsymmetric(t[k].addr, t[j].addr);
      }
    }
  }

  lemma FailedIsOver(p: Plan, m: Mon, c: Call)
    requires Step(p, m, c).Some? && c.SetState? && c.state == Failed
    ensures Step(p, m, c).value.stage.Over?
  {
  }

  lemma SplitAt(t: seq<Call>, k: nat)
    requires k < |t|
    ensures t == t[..k] + ([t[k]] + t[k + 1..])
  {
  }

  lemma DoneIsBehind(p: Plan, m: Mon, t: seq<Call>, k: nat, j: nat)
    requires Follow(p, m, t).Some? && k < j < |t| && t[k].SetState? && t[k].state == Done && Follow(p, m, t[..k]).Some?
    requires Follow(p, m, t[..k]).value.stage == Vouched(t[k].addr) && Step(p, Follow(p, m, t[..k]).value, t[k]).Some?
    ensures Less(t[k].addr, t[j].addr)
  {
    var n := Follow(p, m, t[..k]).value;
    SplitAt(t, k);
    FollowConcat(p, m, t[..k], [t[k]] + t[k + 1..]);
    FollowCons(p, n, t[k], t[k + 1..]);
    NothingBehind(p, Step(p, n, t[k]).value, t[k + 1..], t[k].addr);
    assert t[j] == t[k + 1..][j - k - 1];
  }

  /** One pass, cut anywhere, upgrades no node twice. */
  lemma PassUpgradesOnce(n: CutPass, recs: Recs, i: nat, j: nat)
    requires DistinctMembers(n.input)
    ensures var t := Cut(n, recs); i < j < |t| && t[i].UpgradeOS? && t[j].UpgradeOS? ==> t[i].addr != t[j].addr
  {
    var t := Cut(n, recs);
    if i < j < |t| && t[i].UpgradeOS? && t[j].UpgradeOS? {
      CutFollows(n, recs, {});
      UpgradesDiffer(Gate(n.input).value, Fresh(recs, {}), t, i, j);
    }
  }

  // ----- the record says where a node is before anything is done to it -----

  /** What the record of the node at hand says at each stage. */
  ghost predicate Written(m: Mon)
  {
    var g := m.stage;
    && (g.Cordoning? || g.Drained? ==> StateOf(m.recs, g.addr) == Draining)
    && (g.Ordered? || g.Imaged? || g.Upgraded? ==> StateOf(m.recs, g.addr) == Upgrading)
    && (g.Waiting? || g.Well? ==> StateOf(m.recs, g.addr) == WaitingHealthy)
  }

  lemma StepWritten(p: Plan, m: Mon, c: Call)
    requires Written(m) && Step(p, m, c).Some?
    ensures Written(Step(p, m, c).value)
  {
  }

  lemma {:induction false} FollowWritten(p: Plan, m: Mon, t: seq<Call>)
    requires Written(m) && Follow(p, m, t).Some?
    ensures Written(Follow(p, m, t).value)
    decreases |t|
  {
    if t != [] {
      StepWritten(p, m, t[0]);
      FollowWritten(p, Step(p, m, t[0]).value, t[1..]);
    }
  }

  lemma WrittenOut(p: Plan, m: Mon, c: Call)
    requires Written(m) && Step(p, m, c).Some?
    ensures c.Drain? ==> StateOf(m.recs, c.addr) == Draining
    ensures c.ReadImage? || c.UpgradeOS? ==> StateOf(m.recs, c.addr) == Upgrading
    ensures c.Poll? || c.Uncordon? ==> StateOf(m.recs, c.addr) == WaitingHealthy
  {
  }

  /**
   * However a pass is cut: before a node is drained its record says Draining, before its image is read or it is upgraded
   * Upgrading, and while it is waited for and uncordoned WaitingHealthy. So a restart knows what was under way.
   */
  lemma RecordTellsStage(n: CutPass, recs: Recs, j: nat)
    requires DistinctMembers(n.input) && j < |Cut(n, recs)|
    ensures var t, r := Cut(n, recs), RecsAfter(recs, Cut(n, recs)[..j]);
            && (t[j].Drain? ==> t[j].addr in r && r[t[j].addr].state == Draining)
            && (t[j].ReadImage? || t[j].UpgradeOS? ==> t[j].addr in r && r[t[j].addr].state == Upgrading)
            && (t[j].Poll? || t[j].Uncordon? ==> t[j].addr in r && r[t[j].addr].state == WaitingHealthy)
  {
    var p, m, t := Gate(n.input).value, Fresh(recs, {}), Cut(n, recs);
    CutFollows(n, recs, {});
    StepAt(p, m, t, j);
    FollowWritten(p, m, t[..j]);
    FollowRecs(p, m, t[..j]);
    WrittenOut(p, Follow(p, m, t[..j]).value, t[j]);
  }

  /** A Failed record is the last call of its pass. */
  lemma NothingAfterFailed(n: CutPass, recs: Recs, k: nat)
    requires DistinctMembers(n.input)
    ensures var t := Cut(n, recs); k < |t| && t[k].SetState? && t[k].state == Failed ==> k == |t| - 1
  {
    var t := Cut(n, recs);
    if k < |t| && t[k].SetState? && t[k].state == Failed {
      CutFollows(n, recs, {});
      var p, m := Gate(n.input).value, Fresh(recs, {});
      StepAt(p, m, t, k);
      FailedIsOver(p, Follow(p, m, t[..k]).value, t[k]);
      NothingAfterOver(p, m, t, k);
    }
  }

  // ----- what is left cordoned over whole runs -----

  lemma IntoVouched(p: Plan, m: Mon, c: Call)
    requires Step(p, m, c).Some? && Step(p, m, c).value.stage.Vouched?
    ensures c == ReadVersion(c.addr, Some(p.target)) || (c.Uncordon? && c.ok)
    ensures Step(p, m, c).value.stage == Vouched(c.addr)
  {
  }

  /** A node's last call before it is recorded Done: its version read at the target, or its uncordon. */
  predicate Closes(c: Call, a: string)
  {
    c.addr == a && (c.ReadVersion? || (c.Uncordon? && c.ok))
  }

  lemma DoneCloses(p: Plan, m: Mon, t: seq<Call>, j: nat)
    requires MInv(p, m) && m.stage == Between(None) && Follow(p, m, t).Some? && j < |t| && t[j].SetState? && t[j].state == Done
    ensures j > 0 && Closes(t[j - 1], t[j].addr)
  {
    StepAt(p, m, t, j);
    OutOf(p, Follow(p, m, t[..j]).value, t[j]);
    LastStep(p, m, t[..j]);
    assert t[..j][..j - 1] == t[..j - 1];
    IntoVouched(p, Follow(p, m, t[..j - 1]).value, t[j - 1]);
  }

  lemma {:induction false} RunDoneCloses(recs: Recs, passes: seq<CutPass>, k: nat)
    requires forall n :: 0 <= n < |passes| ==> DistinctMembers(passes[n].input)
    ensures var t := RunCalls(recs, passes); k < |t| && t[k].SetState? && t[k].state == Done ==> k > 0 && Closes(t[k - 1], t[k].addr)
    decreases |passes|
  {
    if passes != [] {
      var c := Cut(passes[0], recs);
      var recs', rest := RecsAfter(recs, c), passes[1..];
      if k < |c| {
        PassDoneCloses(passes[0], recs, k);
      } else {
        RunDoneCloses(recs', rest, k - |c|);
      }
    }
  }

  lemma PassDoneCloses(n: CutPass, recs: Recs, k: nat)
    requires DistinctMembers(n.input)
    ensures var t := Cut(n, recs); k < |t| && t[k].SetState? && t[k].state == Done ==> k > 0 && Closes(t[k - 1], t[k].addr)
  {
    var t := Cut(n, recs);
    if k < |t| && t[k].SetState? && t[k].state == Done {
      CutFollows(n, recs, {});
      DoneCloses(Gate(n.input).value, Fresh(recs, {}), t, k);
    }
  }

  /**
   * Over every run of cut passes, a node is recorded Done while still cordoned if and only if it was cordoned
   * and the pass found it at the target by reading its version: that path does not uncordon.
   */
  lemma DoneCordonedIff(recs: Recs, passes: seq<CutPass>, k: nat)
    requires forall n :: 0 <= n < |passes| ==> DistinctMembers(passes[n].input)
    ensures var t := RunCalls(recs, passes);
            k < |t| && t[k].SetState? && t[k].state == Done ==>
              && k > 0
              && (t[k].addr in Cordoned(t[..k + 1]) <==> t[k - 1].ReadVersion? && t[k].addr in Cordoned(t[..k - 1]))
  {
    var t := RunCalls(recs, passes);
    RunDoneCloses(recs, passes, k);
    if k < |t| && t[k].SetState? && t[k].state == Done { CordonedAround(t, k); }
  }

  lemma CordonedAround(t: seq<Call>, k: nat)
    requires 0 < k < |t| && t[k].SetState? && Closes(t[k - 1], t[k].addr)
    ensures t[k].addr in Cordoned(t[..k + 1]) <==> t[k - 1].ReadVersion? && t[k].addr in Cordoned(t[..k - 1])
  {
    assert t[..k + 1][..k] == t[..k] && t[..k][..k - 1] == t[..k - 1];
  }

  lemma {:induction false} StaysCordoned(t: seq<Call>, i: nat, a: string)
    requires i < |t| && t[i].Drain? && t[i].addr == a && forall k :: i < k < |t| ==> !t[k].Uncordon?
    ensures a in Cordoned(t)
    decreases |t|
  {
    if i < |t| - 1 { StaysCordoned(t[..|t| - 1], i, a); }
  }

  function UpgradedReplies(): Replies
  {
    FailingReplies().(version := Some("t"))
  }

  function OneNodeUpgraded(): PassInput
  {
    OneNode().(replies := (i: nat) => UpgradedReplies())
  }

  /** An upgrade that reports failure after taking effect: the next pass records the node Done and leaves it cordoned. */
  lemma DoneWhileCordoned(first: CutPass, second: CutPass)
    requires first == CutPass(OneNode(), 7) && second == CutPass(OneNodeUpgraded(), 2)
    ensures var t := RunCalls(map[], [first, second]); |t| == 9 && t[8] == SetState("a", Done, "t") && "a" in Cordoned(t)
  {
    var t1 := FailedCut(first);
    var t2 := ThereCut(second, RecsAfter(map[], t1));
    TwoPasses(map[], first, second, t1, t2);
    StaysCordoned(t1 + t2, 2, "a");
  }

  lemma FailedCut(n: CutPass) returns (t: seq<Call>)
    requires n == CutPass(OneNode(), 7)
    ensures t == Cut(n, map[]) && |t| == 7 && t[2].Drain? && t[2].addr == "a" && (forall i :: 0 <= i < |t| ==> !t[i].Uncordon?)
    ensures !InFlight(StateOf(RecsAfter(map[], t), "a"))
  {
    OneMember(OneNode(), WorkerPool(), FailingReplies(), map[]);
    t := Cut(n, map[]);
  }

  lemma ThereCut(n: CutPass, recs: Recs) returns (t: seq<Call>)
    requires n == CutPass(OneNodeUpgraded(), 2) && !InFlight(StateOf(recs, "a"))
    ensures t == Cut(n, recs) == [ReadVersion("a", Some("t")), SetState("a", Done, "t")]
  {
    AlreadyThere(recs);
    t := Cut(n, recs);
  }

  lemma AlreadyThere(recs: Recs)
    requires !InFlight(StateOf(recs, "a"))
    ensures ReconcileCalls(OneNodeUpgraded(), recs) == [ReadVersion("a", Some("t")), SetState("a", Done, "t")]
  {
    OnePlan(OneNodeUpgraded(), WorkerPool());
    var p, n := Gate(OneNodeUpgraded()).value, OneNodeUpgraded();
    var w := NodeWord(p, "a", StateOf(recs, "a"), n.replies(0));
    assert w == [ReadVersion("a", Some("t")), SetState("a", Done, "t")];
    assert Pass(p, RecsAfter(recs, w), n.replies, 1) == PassRun([], Converged);
    assert Pass(p, recs, n.replies, 0).calls == w + [];
  }

  lemma TwoPasses(recs: Recs, n: CutPass, n': CutPass, t: seq<Call>, t': seq<Call>)
    requires Cut(n, recs) == t && Cut(n', RecsAfter(recs, t)) == t'
    ensures RunCalls(recs, [n, n']) == t + t'
  {
    assert [n, n'][1..] == [n'] && [n'][1..] == [];
    assert RunCalls(RecsAfter(recs, t), [n']) == t' + RunCalls(RecsAfter(RecsAfter(recs, t), t'), []);
    assert t' + [] == t';
  }

  // ----- a pool of one node whose upgrade fails -----

  function WorkerPool(): NodePool
  {
    NodePool("c", "w", Worker, ["a"], Some("t"), None, false, 0, 0, map[], [])
  }

  function FailingReplies(): Replies
  {
    Replies(Some("old"), true, true, Some("img"), false, Probe(false, ""), [], true)
  }

  function OneNode(): PassInput
  {
    PassInput(Some(WorkerPool()), None, Some([NodeInfo("n", "a", "worker", "", true)]), (i: nat) => FailingReplies())
  }

  lemma OneMember(n: PassInput, np: NodePool, r: Replies, recs: Recs)
    requires np.members == ["a"] && np.desired == Some("t") && !np.paused && np.role == Worker && np.strategy.None?
    requires n.np == Some(np) && n.nodes == Some([NodeInfo("n", "a", "worker", "", true)]) && n.replies(0) == r
    requires r == Replies(Some("old"), true, true, Some("img"), false, Probe(false, ""), [], true)
    requires !InFlight(StateOf(recs, "a"))
    ensures Gate(n).Ok?
    ensures var t := ReconcileCalls(n, recs);
            && |t| == 7 && t[5].UpgradeOS? && t[5].addr == "a" && t[6] == SetState("a", Failed, "t")
            && t[2].Drain? && t[2].addr == "a" && (forall i :: 0 <= i < |t| ==> !t[i].Uncordon?)
            && StateOf(RecsAfter(recs, t), "a") == Failed
  {
    OnePlan(n, np);
    var p := Gate(n).value;
    OneWord(p, StateOf(recs, "a"), r);
    assert Pass(p, recs, n.replies, 0).calls == NodeWord(p, "a", StateOf(recs, "a"), r);
    NodeResult(p, "a", recs, r);
  }

  lemma OnePlan(n: PassInput, np: NodePool)
    requires np.members == ["a"] && np.desired == Some("t") && !np.paused && np.role == Worker && np.strategy.None?
    requires n.np == Some(np) && n.nodes == Some([NodeInfo("n", "a", "worker", "", true)])
    ensures Gate(n).Ok?
    ensures var p := Gate(n).value;
            p.members == ["a"] && p.budget == 1 && !p.snapshot && p.target == "t" && p.nodes == n.nodes.value
  {
    assert Sort(["a"]) == ["a"] by { assert Sort(["a"]) == Insert("a", Sort([])); }
  }

  lemma OneWord(p: Plan, s: NodeState, r: Replies)
    requires p.members == ["a"] && p.budget == 1 && !p.snapshot && p.target == "t"
    requires p.nodes == [NodeInfo("n", "a", "worker", "", true)] && !InFlight(s)
    requires r == Replies(Some("old"), true, true, Some("img"), false, Probe(false, ""), [], true)
    ensures var w := NodeWord(p, "a", s, r);
            && |w| == 7 && w[5].UpgradeOS? && w[5].addr == "a" && w[6] == SetState("a", Failed, "t") && NodeEnding(p, "a", s, r) == Halted
            && w[2].Drain? && w[2].addr == "a" && forall i :: 0 <= i < |w| ==> !w[i].Uncordon?
  {
    assert NameFor(p.nodes, "a") == "n";
    assert UnavailableOthers(p.nodes, p.members, "a") == 0 by {
      assert p.members[..0] == [];
    }
    FailingInstall(p, "a", r, "img", "t");
    var w := NodeWord(p, "a", s, r);
    assert w == [ReadVersion("a", r.version), SetState("a", Draining, "t"), Drain("a", "n", true)] + InstallWord(p, "a", r);
  }

  lemma FailingInstall(p: Plan, a: string, r: Replies, image: string, target: string)
    requires p.target == target && r.image == Some(image) && !r.upgradeOk
    ensures InstallWord(p, a, r) ==
              [SetState(a, Upgrading, target), ReadImage(a, r.image), UpgradeOS(a, DeriveInstallerImage(image, target), false), SetState(a, Failed, target)]
  {
  }
}
