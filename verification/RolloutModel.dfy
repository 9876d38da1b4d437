/** The kube client's view of a node. */
module Kube {
  datatype NodeInfo = NodeInfo(name: string, internalIP: string, role: string, kubeletVersion: string, ready: bool)

  /** The name a listing gives an address; the last entry wins, "" if there is none. */
  function NameFor(nodes: seq<NodeInfo>, ip: string): string
  {
    if nodes == [] then ""
    else if nodes[|nodes| - 1].internalIP == ip then nodes[|nodes| - 1].name
    else NameFor(nodes[..|nodes| - 1], ip)
  }

  function ReadyAt(nodes: seq<NodeInfo>, ip: string): bool
  {
    if nodes == [] then false
    else if nodes[|nodes| - 1].internalIP == ip then nodes[|nodes| - 1].ready
    else ReadyAt(nodes[..|nodes| - 1], ip)
  }

  /** Entry `i` is the last one the listing has for the address. */
  predicate LastEntry(nodes: seq<NodeInfo>, ip: string, i: nat)
  {
    i < |nodes| && nodes[i].internalIP == ip && forall j :: i < j < |nodes| ==> nodes[j].internalIP != ip
  }

  /** The last entry the listing has for the address is there and says ready. */
  ghost predicate ShownReady(nodes: seq<NodeInfo>, ip: string)
  {
    exists i: nat :: LastEntry(nodes, ip, i) && nodes[i].ready
  }

  /** The two lookups are lookups of the last entry. */
  lemma {:induction false} LookupIff(nodes: seq<NodeInfo>, ip: string)
    ensures ReadyAt(nodes, ip) <==> ShownReady(nodes, ip)
    ensures NameFor(nodes, ip) != "" <==> exists i: nat :: LastEntry(nodes, ip, i) && nodes[i].name != ""
    ensures forall i: nat :: LastEntry(nodes, ip, i) ==> NameFor(nodes, ip) == nodes[i].name
  {
    if nodes != [] {
      var init, last := nodes[..|nodes| - 1], |nodes| - 1;
      if nodes[last].internalIP == ip {
        assert LastEntry(nodes, ip, last);
        assert forall i: nat :: LastEntry(nodes, ip, i) ==> i == last;
      } else {
        LookupIff(init, ip);
        forall i: nat ensures LastEntry(nodes, ip, i) <==> LastEntry(init, ip, i) {
          if LastEntry(nodes, ip, i) { assert forall j :: i < j < |init| ==> init[j] == nodes[j]; }
          if LastEntry(init, ip, i) {
            forall j | i < j < |nodes| ensures nodes[j].internalIP != ip { if j < last { assert nodes[j] == init[j]; } }
          }
        }
      }
    }
  }

  /** The members other than `self` that are missing from the listing or shown not ready. */
  ghost function Down(nodes: seq<NodeInfo>, members: seq<string>, self: string): set<string>
  {
    set m | m in members && m != self && !ShownReady(nodes, m)
  }

  /** Counting member by member gives the size of that set. */
  lemma {:induction false} CountIsSize(nodes: seq<NodeInfo>, members: seq<string>, self: string)
    requires forall i, j :: 0 <= i < j < |members| ==> members[i] != members[j]
    ensures UnavailableOthers(nodes, members, self) == |Down(nodes, members, self)|
  {
    if members != [] {
      var init, m := members[..|members| - 1], members[|members| - 1];
      CountIsSize(nodes, init, self);
      LookupIff(nodes, m);
      DownSnoc(nodes, members, init, m, self);
    }
  }

  lemma DownSnoc(nodes: seq<NodeInfo>, members: seq<string>, init: seq<string>, m: string, self: string)
    requires members == init + [m] && m !in init
    ensures m !in Down(nodes, init, self)
    ensures Down(nodes, members, self) ==
              if m != self && !ShownReady(nodes, m) then Down(nodes, init, self) + {m} else Down(nodes, init, self)
  {
  }

  /** Members other than `self` that the listing does not show as ready. */
  function UnavailableOthers(nodes: seq<NodeInfo>, members: seq<string>, self: string): nat
  {
    if members == [] then 0
    else
      var m := members[|members| - 1];
      UnavailableOthers(nodes, members[..|members| - 1], self) + (if m != self && !ReadyAt(nodes, m) then 1 else 0)
  }
}

/**
 * The OS rollout of one pool. Every store write and every call across the Talos and kube seams is an
 * entry of a trace; a crash cuts a pass after any entry. The answers of the seams are arbitrary.
 */
module RolloutModel {
  import opened Basics
  import opened Image
  import opened Kube
  import opened Records
  import opened Text

  datatype Call =
    | SetState(addr: string, state: NodeState, target: string)
    | ReadVersion(addr: string, version: Option<string>)
    | Snapshot(addr: string, ok: bool)
    | Drain(addr: string, name: string, ok: bool)
    | ReadImage(addr: string, image: Option<string>)
    | UpgradeOS(addr: string, installer: string, ok: bool)
    | Poll(addr: string, name: string, ready: bool, seen: string)
    | Uncordon(addr: string, name: string, ok: bool)

  /** A call that reports failure. */
  predicate Fails(c: Call)
  {
    match c
    case ReadVersion(_, v) => v.None?
    case Snapshot(_, ok) => !ok
    case Drain(_, _, ok) => !ok
    case ReadImage(_, i) => i.None?
    case UpgradeOS(_, _, ok) => !ok
    case Uncordon(_, _, ok) => !ok
    case _ => false
  }

  /** The persisted progress of a node. */
  datatype Rec = Rec(state: NodeState, target: string)
  type Recs = map<string, Rec>

  function StateOf(recs: Recs, a: string): NodeState
  {
    if a in recs then recs[a].state else StateUnspecified
  }

  predicate InFlight(s: NodeState)
  {
    s == Upgrading || s == WaitingHealthy
  }

  function Recorded(recs: Recs, c: Call): Recs
  {
    if c.SetState? then recs[c.addr := Rec(c.state, c.target)] else recs
  }

  function RecsAfter(recs: Recs, t: seq<Call>): Recs
    decreases |t|
  {
    if t == [] then recs else RecsAfter(Recorded(recs, t[0]), t[1..])
  }

  // ----- the pass -----

  datatype Plan = Plan(members: seq<string>, target: string, snapshot: bool, budget: nat, nodes: seq<NodeInfo>)

  datatype Probe = Probe(ready: bool, version: string)

  /** Everything the seams may answer while one member is processed; the wait ends when the probes run out. */
  datatype Replies = Replies(
    version: Option<string>, snapshotOk: bool, drainOk: bool, image: Option<string>, upgradeOk: bool,
    first: Probe, more: seq<Probe>, uncordonOk: bool)

  datatype Ending = Finished | Halted | Blocked

  predicate Healthy(p: Plan, b: Probe)
  {
    b.ready && b.version == p.target
  }

  function WaitWord(p: Plan, a: string, probes: seq<Probe>): seq<Call>
    decreases |probes|
  {
    if probes == [] then []
    else
      [Poll(a, NameFor(p.nodes, a), probes[0].ready, probes[0].version)] +
      (if Healthy(p, probes[0]) then [] else WaitWord(p, a, probes[1..]))
  }

  predicate Recovers(p: Plan, probes: seq<Probe>)
    decreases |probes|
  {
    probes != [] && (Healthy(p, probes[0]) || Recovers(p, probes[1..]))
  }

  function FailWord(p: Plan, a: string): seq<Call>
  {
    [SetState(a, Failed, p.target)]
  }

  function CloseWord(p: Plan, a: string, r: Replies): seq<Call>
  {
    if !Recovers(p, [r.first] + r.more) then FailWord(p, a)
    else
      [Uncordon(a, NameFor(p.nodes, a), r.uncordonOk)] +
      (if r.uncordonOk then [SetState(a, Done, p.target)] else FailWord(p, a))
  }

  /** Wait for the node to come back at the target, uncordon it, mark it done. */
  function FinishWord(p: Plan, a: string, r: Replies): seq<Call>
  {
    if NameFor(p.nodes, a) == "" then FailWord(p, a)
    else [SetState(a, WaitingHealthy, p.target)] + (WaitWord(p, a, [r.first] + r.more) + CloseWord(p, a, r))
  }

  predicate FinishOk(p: Plan, a: string, r: Replies)
  {
    NameFor(p.nodes, a) != "" && Recovers(p, [r.first] + r.more) && r.uncordonOk
  }

  function AfterImage(p: Plan, a: string, r: Replies): seq<Call>
  {
    if r.image.None? then FailWord(p, a)
    else
      [UpgradeOS(a, DeriveInstallerImage(r.image.value, p.target), r.upgradeOk)] +
      (if r.upgradeOk then FinishWord(p, a, r) else FailWord(p, a))
  }

  function InstallWord(p: Plan, a: string, r: Replies): seq<Call>
  {
    [SetState(a, Upgrading, p.target)] + ([ReadImage(a, r.image)] + AfterImage(p, a, r))
  }

  function DrainWord(p: Plan, a: string, r: Replies): seq<Call>
  {
    [SetState(a, Draining, p.target)] + ([Drain(a, NameFor(p.nodes, a), r.drainOk)] +
    (if r.drainOk then InstallWord(p, a, r) else FailWord(p, a)))
  }

  function UpgradeWord(p: Plan, a: string, r: Replies): seq<Call>
  {
    if NameFor(p.nodes, a) == "" then FailWord(p, a)
    else if !p.snapshot then DrainWord(p, a, r)
    else [Snapshot(a, r.snapshotOk)] + (if r.snapshotOk then DrainWord(p, a, r) else FailWord(p, a))
  }

  predicate UpgradeOk(p: Plan, a: string, r: Replies)
  {
    (p.snapshot ==> r.snapshotOk) && r.drainOk && r.image.Some? && r.upgradeOk && FinishOk(p, a, r)
  }

  predicate OverBudget(p: Plan, a: string)
  {
    UnavailableOthers(p.nodes, p.members, a) >= p.budget
  }

  /** One member: resume the wait if its record says mid-flight, else compare versions and upgrade within budget. */
  function NodeWord(p: Plan, a: string, s: NodeState, r: Replies): seq<Call>
  {
    if InFlight(s) then FinishWord(p, a, r)
    else [ReadVersion(a, r.version)] + AfterVersion(p, a, r)
  }

  function AfterVersion(p: Plan, a: string, r: Replies): seq<Call>
  {
    if r.version.None? then FailWord(p, a)
    else if r.version.value == p.target then [SetState(a, Done, p.target)]
    else if OverBudget(p, a) then []
    else UpgradeWord(p, a, r)
  }

  function NodeEnding(p: Plan, a: string, s: NodeState, r: Replies): Ending
  {
    if InFlight(s) then (if FinishOk(p, a, r) then Finished else Halted)
    else if r.version.None? then Halted
    else if r.version.value == p.target then Finished
    else if OverBudget(p, a) then Blocked
    else if UpgradeOk(p, a, r) then Finished
    else Halted
  }

  datatype Outcome = Converged | BlockedAt(i: nat) | HaltedAt(i: nat)
  datatype PassRun = PassRun(calls: seq<Call>, outcome: Outcome)

  /** The members from the i-th on, in order, until one halts or the budget blocks. */
  function Pass(p: Plan, recs: Recs, replies: nat -> Replies, i: nat): PassRun
    requires i <= |p.members|
    decreases |p.members| - i
  {
    if i == |p.members| then PassRun([], Converged)
    else
      var a := p.members[i];
      var s := StateOf(recs, a);
      var w := NodeWord(p, a, s, replies(i));
      match NodeEnding(p, a, s, replies(i))
      case Halted => PassRun(w, HaltedAt(i))
      case Blocked => PassRun(w, BlockedAt(i))
      case Finished =>
        var rest := Pass(p, RecsAfter(recs, w), replies, i + 1);
        PassRun(w + rest.calls, rest.outcome)
  }

  // ----- from the stored records to a plan -----

  datatype Verdict = Ran(outcome: Outcome) | NoPool | PausedPool | NoTarget | ListFailed

  function TargetVersion(np: NodePool, cl: Option<Cluster>): Option<string>
  {
    if np.desired.Some? && np.desired.value != "" then np.desired
    else if cl.None? then None
    else Some(if cl.value.desired.Some? then cl.value.desired.value.talosVersion else "")
  }

  function PlanFor(np: NodePool, target: string, nodes: seq<NodeInfo>): Plan
  {
    var mu := if np.strategy.Some? then np.strategy.value.maxUnavailable else 0;
    Plan(
      Sort(np.members),
      target,
      np.role == ControlPlane && np.strategy.Some? && np.strategy.value.snapshotBeforeControlPlane,
      if mu < 1 then 1 else mu,
      nodes)
  }

  datatype PassInput = PassInput(
    np: Option<NodePool>, cl: Option<Cluster>, nodes: Option<seq<NodeInfo>>, replies: nat -> Replies)

  /** The checks in front of the member loop, in the order the code makes them. */
  function Gate(n: PassInput): Result<Plan, Verdict>
  {
    if n.np.None? then Err(NoPool)
    else if n.np.value.paused then Err(PausedPool)
    else
      var target := TargetVersion(n.np.value, n.cl);
      if target.None? || target.value == "" then Err(NoTarget)
      else if n.nodes.None? then Err(ListFailed)
      else Ok(PlanFor(n.np.value, target.value, n.nodes.value))
  }

  function ReconcileCalls(n: PassInput, recs: Recs): seq<Call>
  {
    var g := Gate(n);
    if g.Err? then [] else Pass(g.value, recs, n.replies, 0).calls
  }

  function ReconcileVerdict(n: PassInput, recs: Recs): Verdict
  {
    var g := Gate(n);
    if g.Err? then g.error else Ran(Pass(g.value, recs, n.replies, 0).outcome)
  }

  /** The pass returns nil when paused, blocked by the budget, or converged. */
  predicate ReturnsNil(v: Verdict)
  {
    v == PausedPool || (v.Ran? && !v.outcome.HaltedAt?)
  }

  // ----- folding -----

  lemma {:induction false} RecsConcat(recs: Recs, s: seq<Call>, t: seq<Call>)
    ensures RecsAfter(recs, s + t) == RecsAfter(RecsAfter(recs, s), t)
    decreases |s|
  {
    if s == [] {
      assert s + t == t;
    } else {
      assert (s + t)[1..] == s[1..] + t;
      RecsConcat(Recorded(recs, s[0]), s[1..], t);
    }
  }

  lemma RecsCons(recs: Recs, c: Call, t: seq<Call>)
    ensures RecsAfter(recs, [c] + t) == RecsAfter(Recorded(recs, c), t)
  {
    assert ([c] + t)[1..] == t;
  }

  /** A trace about one node leaves every other record alone. */
  ghost predicate About(t: seq<Call>, a: string)
  {
    forall i :: 0 <= i < |t| ==> t[i].addr == a
  }

  lemma {:induction false} RecsElsewhere(recs: Recs, t: seq<Call>, a: string, b: string)
    requires About(t, a) && a != b
    ensures (b in RecsAfter(recs, t) <==> b in recs) && (b in recs ==> RecsAfter(recs, t)[b] == recs[b])
    decreases |t|
  {
    if t != [] { RecsElsewhere(Recorded(recs, t[0]), t[1..], a, b); }
  }

  lemma {:induction false} WaitAbout(p: Plan, a: string, probes: seq<Probe>)
    ensures About(WaitWord(p, a, probes), a)
    ensures forall i :: 0 <= i < |WaitWord(p, a, probes)| ==> WaitWord(p, a, probes)[i].Poll?
    decreases |probes|
  {
    if probes != [] { WaitAbout(p, a, probes[1..]); }
  }

  lemma FinishAbout(p: Plan, a: string, r: Replies)
    ensures About(FinishWord(p, a, r), a)
  {
    WaitAbout(p, a, [r.first] + r.more);
  }

  lemma InstallAbout(p: Plan, a: string, r: Replies)
    ensures About(InstallWord(p, a, r), a)
  {
    FinishAbout(p, a, r);
  }

  lemma UpgradeAbout(p: Plan, a: string, r: Replies)
    ensures About(UpgradeWord(p, a, r), a)
  {
    InstallAbout(p, a, r);
    assert About(DrainWord(p, a, r), a);
  }

  lemma NodeAbout(p: Plan, a: string, s: NodeState, r: Replies)
    ensures About(NodeWord(p, a, s, r), a)
  {
    FinishAbout(p, a, r);
    UpgradeAbout(p, a, r);
  }
}
