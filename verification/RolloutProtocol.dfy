/**
 * The protocol a rollout trace must follow, as an automaton of its own, and the proof that every
 * pass follows it whatever the seams answer and wherever a crash cuts it.
 */
module RolloutProtocol {
  import opened Basics
  import opened Image
  import opened Kube
  import opened Records
  import opened RolloutModel
  import opened Text

  datatype Stage =
    | Between(last: Option<string>)   // between members
    | Outdated(addr: string)          // version differs from the target
    | Snapped(addr: string)           // etcd snapshot taken
    | Cordoning(addr: string)         // recorded Draining
    | Drained(addr: string)
    | Ordered(addr: string)           // recorded Upgrading
    | Imaged(addr: string, image: string)
    | Upgraded(addr: string)          // UpgradeOS accepted
    | Waiting(addr: string)           // recorded WaitingHealthy
    | Well(addr: string)              // ready at the target version
    | Vouched(addr: string)           // may be recorded Done
    | Failing(addr: string)           // must be recorded Failed
    | Over(addr: string)              // recorded Failed: no further call of any kind

  predicate Beyond(last: Option<string>, a: string)
  {
    last.None? || Less(last.value, a)
  }

  predicate MayStart(p: Plan, a: string)
  {
    !OverBudget(p, a) && NameFor(p.nodes, a) != ""
  }

  function WhenOk(ok: bool, s: Stage, a: string): Option<Stage>
  {
    Some(if ok then s else Failing(a))
  }

  /** From between two members: a mid-flight member resumes its wait, any other has its version read. */
  function Enter(p: Plan, s: NodeState, c: Call): Option<Stage>
  {
    match c
    case ReadVersion(a, v) =>
      if InFlight(s) then None
      else if v.None? then Some(Failing(a))
      else Some(if v.value == p.target then Vouched(a) else Outdated(a))
    case SetState(a, WaitingHealthy, t) => if InFlight(s) && t == p.target then Some(Waiting(a)) else None
    case SetState(a, Failed, t) => if InFlight(s) && t == p.target then Some(Over(a)) else None
    case _ => None
  }

  /** From within a member: the only calls allowed at each stage. */
  function Within(p: Plan, g: Stage, c: Call): Option<Stage>
    requires !g.Between?
  {
    if c.addr != g.addr || (c.SetState? && c.target != p.target) then None
    else if c.SetState? && c.state == Failed then
      (if g.Failing? || g.Waiting? || g.Outdated? || g.Upgraded? then Some(Over(c.addr)) else None)
    else
      match g
      case Outdated(a) =>
        if !MayStart(p, a) then None
        else if p.snapshot then (if c.Snapshot? then WhenOk(c.ok, Snapped(a), a) else None)
        else if c.SetState? && c.state == Draining then Some(Cordoning(a)) else None
      case Snapped(a) => if c.SetState? && c.state == Draining then Some(Cordoning(a)) else None
      case Cordoning(a) => if c.Drain? && c.name == NameFor(p.nodes, a) then WhenOk(c.ok, Drained(a), a) else None
      case Drained(a) => if c.SetState? && c.state == Upgrading then Some(Ordered(a)) else None
      case Ordered(a) =>
        if !c.ReadImage? then None else if c.image.None? then Some(Failing(a)) else Some(Imaged(a, c.image.value))
      case Imaged(a, x) =>
        if c.UpgradeOS? && c.installer == DeriveInstallerImage(x, p.target) then WhenOk(c.ok, Upgraded(a), a) else None
      case Upgraded(a) => if c.SetState? && c.state == WaitingHealthy then Some(Waiting(a)) else None
      case Waiting(a) =>
        if !c.Poll? || c.name != NameFor(p.nodes, a) then None
        else Some(if c.ready && c.seen == p.target then Well(a) else Waiting(a))
      case Well(a) => if c.Uncordon? && c.name == NameFor(p.nodes, a) then WhenOk(c.ok, Vouched(a), a) else None
      case Vouched(a) => if c.SetState? && c.state == Done then Some(Between(Some(a))) else None
      case Failing(a) => None
      case Over(a) => None
  }

  /** The automaton's memory: where it is, what is recorded, and which nodes have an unsettled UpgradeOS. */
  datatype Mon = Mon(stage: Stage, recs: Recs, unsettled: set<string>)

  function Settled(u: set<string>, c: Call): set<string>
  {
    if c.UpgradeOS? then u + {c.addr}
    else if c.SetState? && (c.state == Done || c.state == Failed) then u - {c.addr}
    else u
  }

  function Step(p: Plan, m: Mon, c: Call): Option<Mon>
  {
    var g :=
      if m.stage.Between? then (if Beyond(m.stage.last, c.addr) then Enter(p, StateOf(m.recs, c.addr), c) else None)
      else Within(p, m.stage, c);
    if g.None? || (c.UpgradeOS? && c.addr in m.unsettled) then None
    else Some(Mon(g.value, Recorded(m.recs, c), Settled(m.unsettled, c)))
  }

  /** Follows a trace; None as soon as a call is out of protocol. */
  function Follow(p: Plan, m: Mon, t: seq<Call>): Option<Mon>
    decreases |t|
  {
    if t == [] then Some(m)
    else
      var n := Step(p, m, t[0]);
      if n.None? then None else Follow(p, n.value, t[1..])
  }

  lemma FollowCons(p: Plan, m: Mon, c: Call, t: seq<Call>)
    ensures Follow(p, m, [c] + t) == if Step(p, m, c).None? then None else Follow(p, Step(p, m, c).value, t)
  {
    assert ([c] + t)[1..] == t;
  }

  lemma FollowOne(p: Plan, m: Mon, c: Call)
    ensures Follow(p, m, [c]) == Step(p, m, c)
  {
    assert [c] == [c] + [];
    FollowCons(p, m, c, []);
  }

  lemma {:induction false} FollowConcat(p: Plan, m: Mon, s: seq<Call>, t: seq<Call>)
    ensures Follow(p, m, s + t) == if Follow(p, m, s).None? then None else Follow(p, Follow(p, m, s).value, t)
    decreases |s|
  {
    if s == [] {
      assert s + t == t;
    } else {
      assert (s + t)[1..] == s[1..] + t;
      var n := Step(p, m, s[0]);
      if n.Some? { FollowConcat(p, n.value, s[1..], t); }
    }
  }

  /** Following is closed under cutting: a crashed pass is still in protocol. */
  lemma FollowPrefix(p: Plan, m: Mon, t: seq<Call>, k: nat)
    requires k <= |t| && Follow(p, m, t).Some?
    ensures Follow(p, m, t[..k]).Some?
  {
    assert t == t[..k] + t[k..];
    FollowConcat(p, m, t[..k], t[k..]);
  }

  // ----- the invariant between calls, in and across passes -----

  predicate BeforeUpgrade(g: Stage)
  {
    g.Outdated? || g.Snapped? || g.Cordoning? || g.Drained? || g.Ordered? || g.Imaged?
  }

  /** Unsettled nodes are recorded mid-flight; the node in hand is not unsettled before its UpgradeOS. */
  ghost predicate MInv(p: Plan, m: Mon)
  {
    && (forall a :: a in m.unsettled ==> InFlight(StateOf(m.recs, a)))
    && (BeforeUpgrade(m.stage) ==> m.stage.addr !in m.unsettled)
    && (m.stage.Outdated? || m.stage.Snapped? || m.stage.Cordoning? ==> !InFlight(StateOf(m.recs, m.stage.addr)))
    && (m.stage.Ordered? || m.stage.Imaged? ==> StateOf(m.recs, m.stage.addr) == Upgrading)
    && (m.stage.Snapped? || m.stage.Cordoning? ==> MayStart(p, m.stage.addr))
  }

  lemma StepInv(p: Plan, m: Mon, c: Call)
    requires MInv(p, m) && Step(p, m, c).Some?
    ensures MInv(p, Step(p, m, c).value)
  {
  }

  lemma {:induction false} FollowInv(p: Plan, m: Mon, t: seq<Call>)
    requires MInv(p, m) && Follow(p, m, t).Some?
    ensures MInv(p, Follow(p, m, t).value)
    decreases |t|
  {
    if t != [] {
      StepInv(p, m, t[0]);
      FollowInv(p, Step(p, m, t[0]).value, t[1..]);
    }
  }

  // ----- every word follows the protocol -----

  lemma FailFollows(p: Plan, m: Mon, a: string)
    requires m.stage in {Failing(a), Waiting(a), Outdated(a), Upgraded(a)}
    ensures Follow(p, m, FailWord(p, a)) == Some(Mon(Over(a), m.recs[a := Rec(Failed, p.target)], m.unsettled - {a}))
  {
    FollowOne(p, m, SetState(a, Failed, p.target));
  }

  lemma {:induction false} WaitFollows(p: Plan, m: Mon, a: string, probes: seq<Probe>)
    requires m.stage == Waiting(a)
    ensures Follow(p, m, WaitWord(p, a, probes)) == Some(m.(stage := if Recovers(p, probes) then Well(a) else Waiting(a)))
    decreases |probes|
  {
    if probes != [] {
      var c := Poll(a, NameFor(p.nodes, a), probes[0].ready, probes[0].version);
      var rest := if Healthy(p, probes[0]) then [] else WaitWord(p, a, probes[1..]);
      FollowCons(p, m, c, rest);
      if !Healthy(p, probes[0]) { WaitFollows(p, m, a, probes[1..]); }
    }
  }

  lemma CloseFollows(p: Plan, m: Mon, a: string, r: Replies)
    requires m.stage == if Recovers(p, [r.first] + r.more) then Well(a) else Waiting(a)
    ensures Follow(p, m, CloseWord(p, a, r)).Some?
    ensures Follow(p, m, CloseWord(p, a, r)).value.stage ==
              if Recovers(p, [r.first] + r.more) && r.uncordonOk then Between(Some(a)) else Over(a)
  {
    if Recovers(p, [r.first] + r.more) {
      var c := Uncordon(a, NameFor(p.nodes, a), r.uncordonOk);
      var m' := Step(p, m, c).value;
      if r.uncordonOk {
        FollowCons(p, m, c, [SetState(a, Done, p.target)]);
        FollowOne(p, m', SetState(a, Done, p.target));
      } else {
        FollowCons(p, m, c, FailWord(p, a));
        FailFollows(p, m', a);
      }
    } else {
      FailFollows(p, m, a);
    }
  }

  /** The wait and its end, from a fresh upgrade or from a resumed member. */
  lemma FinishFollows(p: Plan, m: Mon, a: string, r: Replies)
    requires m.stage == Upgraded(a) ||
             (m.stage.Between? && Beyond(m.stage.last, a) && InFlight(StateOf(m.recs, a)))
    ensures Follow(p, m, FinishWord(p, a, r)).Some?
    ensures Follow(p, m, FinishWord(p, a, r)).value.stage == if FinishOk(p, a, r) then Between(Some(a)) else Over(a)
  {
    if NameFor(p.nodes, a) == "" {
      FollowOne(p, m, SetState(a, Failed, p.target));
    } else {
      var c := SetState(a, WaitingHealthy, p.target);
      var probes := [r.first] + r.more;
      var m1 := Step(p, m, c).value;
      WaitFollows(p, m1, a, probes);
      var m2 := Follow(p, m1, WaitWord(p, a, probes)).value;
      CloseFollows(p, m2, a, r);
      FollowConcat(p, m1, WaitWord(p, a, probes), CloseWord(p, a, r));
      FollowCons(p, m, c, WaitWord(p, a, probes) + CloseWord(p, a, r));
    }
  }

  lemma InstallFollows(p: Plan, m: Mon, a: string, r: Replies)
    requires m.stage == Drained(a) && a !in m.unsettled
    ensures Follow(p, m, InstallWord(p, a, r)).Some?
    ensures Follow(p, m, InstallWord(p, a, r)).value.stage ==
              if r.image.Some? && r.upgradeOk && FinishOk(p, a, r) then Between(Some(a)) else Over(a)
  {
    var c1, c2 := SetState(a, Upgrading, p.target), ReadImage(a, r.image);
    var m1 := Step(p, m, c1).value;
    var m2 := Step(p, m1, c2).value;
    if r.image.None? {
      FailFollows(p, m2, a);
      FollowCons(p, m1, c2, FailWord(p, a));
      FollowCons(p, m, c1, [c2] + FailWord(p, a));
    } else {
      var c3 := UpgradeOS(a, DeriveInstallerImage(r.image.value, p.target), r.upgradeOk);
      var m3 := Step(p, m2, c3).value;
      var rest := if r.upgradeOk then FinishWord(p, a, r) else FailWord(p, a);
      if r.upgradeOk { FinishFollows(p, m3, a, r); } else { FailFollows(p, m3, a); }
      FollowCons(p, m2, c3, rest);
      FollowCons(p, m1, c2, [c3] + rest);
      FollowCons(p, m, c1, [c2] + ([c3] + rest));
    }
  }

  lemma DrainFollows(p: Plan, m: Mon, a: string, r: Replies)
    requires m.stage == Snapped(a) || (m.stage == Outdated(a) && !p.snapshot && MayStart(p, a))
    requires a !in m.unsettled
    ensures Follow(p, m, DrainWord(p, a, r)).Some?
    ensures Follow(p, m, DrainWord(p, a, r)).value.stage ==
              if r.drainOk && r.image.Some? && r.upgradeOk && FinishOk(p, a, r) then Between(Some(a)) else Over(a)
  {
    var c1, c2 := SetState(a, Draining, p.target), Drain(a, NameFor(p.nodes, a), r.drainOk);
    var m1 := Step(p, m, c1).value;
    var m2 := Step(p, m1, c2).value;
    var rest := if r.drainOk then InstallWord(p, a, r) else FailWord(p, a);
    if r.drainOk { InstallFollows(p, m2, a, r); } else { FailFollows(p, m2, a); }
    FollowCons(p, m1, c2, rest);
    FollowCons(p, m, c1, [c2] + rest);
  }

  lemma UpgradeFollows(p: Plan, m: Mon, a: string, r: Replies)
    requires m.stage == Outdated(a) && a !in m.unsettled && !OverBudget(p, a)
    ensures Follow(p, m, UpgradeWord(p, a, r)).Some?
    ensures Follow(p, m, UpgradeWord(p, a, r)).value.stage == if UpgradeOk(p, a, r) then Between(Some(a)) else Over(a)
  {
    if NameFor(p.nodes, a) == "" {
      FailFollows(p, m, a);
    } else if !p.snapshot {
      DrainFollows(p, m, a, r);
    } else {
      var c := Snapshot(a, r.snapshotOk);
      var m1 := Step(p, m, c).value;
      var rest := if r.snapshotOk then DrainWord(p, a, r) else FailWord(p, a);
      if r.snapshotOk { DrainFollows(p, m1, a, r); } else { FailFollows(p, m1, a); }
      FollowCons(p, m, c, rest);
    }
  }

  function StageAt(e: Ending, a: string): Stage
  {
    match e
    case Finished => Between(Some(a))
    case Halted => Over(a)
    case Blocked => Outdated(a)
  }

  lemma NodeFollows(p: Plan, m: Mon, a: string, r: Replies)
    requires MInv(p, m) && m.stage.Between? && Beyond(m.stage.last, a)
    ensures var s := StateOf(m.recs, a);
            var m' := Follow(p, m, NodeWord(p, a, s, r));
            m'.Some? && m'.value.stage == StageAt(NodeEnding(p, a, s, r), a)
  {
    var s := StateOf(m.recs, a);
    if InFlight(s) {
      FinishFollows(p, m, a, r);
    } else {
      var c := ReadVersion(a, r.version);
      var m1 := Step(p, m, c).value;
      if r.version.None? {
        FailFollows(p, m1, a);
        FollowCons(p, m, c, FailWord(p, a));
      } else if r.version.value == p.target {
        FollowOne(p, m1, SetState(a, Done, p.target));
        FollowCons(p, m, c, [SetState(a, Done, p.target)]);
      } else if OverBudget(p, a) {
        FollowCons(p, m, c, []);
      } else {
        UpgradeFollows(p, m1, a, r);
        FollowCons(p, m, c, UpgradeWord(p, a, r));
      }
    }
  }

  /** The automaton's records are the fold of the trace. */
  lemma {:induction false} FollowRecs(p: Plan, m: Mon, t: seq<Call>)
    requires Follow(p, m, t).Some?
    ensures Follow(p, m, t).value.recs == RecsAfter(m.recs, t)
    decreases |t|
  {
    if t != [] { FollowRecs(p, Step(p, m, t[0]).value, t[1..]); }
  }

  /** A pass over ascending members follows the protocol, from any records. */
  lemma {:induction false} PassFollows(p: Plan, m: Mon, replies: nat -> Replies, i: nat)
    requires i <= |p.members| && Ascending(p.members) && MInv(p, m)
    requires m.stage.Between? && forall j :: i <= j < |p.members| ==> Beyond(m.stage.last, p.members[j])
    ensures Follow(p, m, Pass(p, m.recs, replies, i).calls).Some?
    decreases |p.members| - i
  {
    if i < |p.members| {
      var a := p.members[i];
      var s := StateOf(m.recs, a);
      var w := NodeWord(p, a, s, replies(i));
      NodeFollows(p, m, a, replies(i));
      if NodeEnding(p, a, s, replies(i)) == Finished {
        var m' := Follow(p, m, w).value;
        FollowInv(p, m, w);
        FollowRecs(p, m, w);
        PassFollows(p, m', replies, i + 1);
        FollowConcat(p, m, w, Pass(p, m'.recs, replies, i + 1).calls);
      }
    }
  }
}
