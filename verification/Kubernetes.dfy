/** The cluster-wide Kubernetes upgrade: snapshot, upgrade, verify. */
module KubernetesRollout {
  import opened Basics
  import opened Kube
  import opened Records

  datatype Call =
    | SetPhase(phase: K8sPhase, target: string)
    | ListNodes(ok: bool)
    | Snapshot(ip: string, ok: bool)
    | UpgradeK8s(from: string, to: string, ok: bool)

  /** What the seams answer during one pass. */
  datatype Answers = Answers(
    listing: Option<seq<NodeInfo>>, snapshotOk: bool, upgradeOk: bool, relisting: Option<seq<NodeInfo>>)

  function Trimmed(v: string): string
  {
    if |v| > 0 && v[0] == 'v' then v[1..] else v
  }

  predicate SameVersion(a: string, b: string)
  {
    Trimmed(a) == Trimmed(b)
  }

  predicate LeadingV(v: string)
  {
    v != "" && v[0] == 'v'
  }

  /** Versions count as the same exactly when they are, or when they differ by a "v" in front of one of them. */
  lemma SameVersionIff(a: string, b: string)
    ensures SameVersion(a, b) <==> a == b || (a == "v" + b && !LeadingV(b)) || (b == "v" + a && !LeadingV(a))
  {
    if LeadingV(a) { assert a == "v" + a[1..]; }
    if LeadingV(b) { assert b == "v" + b[1..]; }
    assert a == "v" + b ==> a[1..] == b;
    assert b == "v" + a ==> b[1..] == a;
  }

  /** The address and kubelet version of the last control-plane node listed. */
  function ControlPlaneOf(nodes: seq<NodeInfo>): (string, string)
  {
    if nodes == [] then ("", "")
    else
      var n := nodes[|nodes| - 1];
      if n.role == "controlplane" then (n.internalIP, n.kubeletVersion) else ControlPlaneOf(nodes[..|nodes| - 1])
  }

  lemma {:induction false} ControlPlaneListed(nodes: seq<NodeInfo>)
    requires ControlPlaneOf(nodes).0 != ""
    ensures exists n :: n in nodes && n.role == "controlplane" && (n.internalIP, n.kubeletVersion) == ControlPlaneOf(nodes)
  {
    var n := nodes[|nodes| - 1];
    if n.role == "controlplane" {
      assert n in nodes;
    } else {
      ControlPlaneListed(nodes[..|nodes| - 1]);
    }
  }

  /** Entry `i` is the last control-plane node of the listing. */
  predicate LastControlPlane(nodes: seq<NodeInfo>, i: nat)
  {
    i < |nodes| && nodes[i].role == "controlplane" && forall j :: i < j < |nodes| ==> nodes[j].role != "controlplane"
  }

  lemma {:induction false} ControlPlaneIff(nodes: seq<NodeInfo>)
    ensures forall i: nat :: LastControlPlane(nodes, i) ==> ControlPlaneOf(nodes) == (nodes[i].internalIP, nodes[i].kubeletVersion)
    ensures ControlPlaneOf(nodes).0 != "" ==> exists i: nat :: LastControlPlane(nodes, i)
  {
    if nodes != [] {
      var init, last := nodes[..|nodes| - 1], |nodes| - 1;
      if nodes[last].role == "controlplane" {
        assert LastControlPlane(nodes, last);
        assert forall i: nat :: LastControlPlane(nodes, i) ==> i == last;
      } else {
        ControlPlaneIff(init);
        forall i: nat ensures LastControlPlane(nodes, i) <==> LastControlPlane(init, i) {
          if LastControlPlane(nodes, i) { assert forall j :: i < j < |init| ==> init[j] == nodes[j]; }
          if LastControlPlane(init, i) {
            forall j | i < j < |nodes| ensures nodes[j].role != "controlplane" { if j < last { assert nodes[j] == init[j]; } }
          }
        }
      }
    }
  }

  predicate AllAt(nodes: seq<NodeInfo>, target: string)
  {
    forall i :: 0 <= i < |nodes| ==> SameVersion(nodes[i].kubeletVersion, target)
  }

  /** The calls once the control plane is known to be behind. */
  function BehindCalls(target: string, cp: (string, string), w: Answers): seq<Call>
  {
    if !w.snapshotOk then [Snapshot(cp.0, false), SetPhase(K8sFailed, target)]
    else if !w.upgradeOk then [Snapshot(cp.0, true), UpgradeK8s(cp.1, target, false), SetPhase(K8sFailed, target)]
    else
      [Snapshot(cp.0, true), UpgradeK8s(cp.1, target, true), ListNodes(w.relisting.Some?),
       SetPhase(if w.relisting.Some? && AllAt(w.relisting.value, target) then K8sIdle else K8sFailed, target)]
  }

  function K8sCalls(target: string, w: Answers): seq<Call>
  {
    if target == "" then []
    else
      [SetPhase(K8sUpgrading, target), ListNodes(w.listing.Some?)] +
      (if w.listing.None? || ControlPlaneOf(w.listing.value).0 == "" then [SetPhase(K8sFailed, target)]
       else if SameVersion(ControlPlaneOf(w.listing.value).1, target) then [SetPhase(K8sIdle, target)]
       else BehindCalls(target, ControlPlaneOf(w.listing.value), w))
  }

  /** Nil exactly when the control plane was already there, or the upgrade ran and every node got there. */
  predicate ReturnsNil(target: string, w: Answers)
  {
    && target != "" && w.listing.Some? && ControlPlaneOf(w.listing.value).0 != ""
    && (|| SameVersion(ControlPlaneOf(w.listing.value).1, target)
        || (w.snapshotOk && w.upgradeOk && w.relisting.Some? && AllAt(w.relisting.value, target)))
  }

  /** Drives the upgrade; `ok` is a nil return. */
  method ReconcileK8s(target: string, w: Answers) returns (t: seq<Call>, ok: bool)
    ensures t == K8sCalls(target, w) && ok == ReturnsNil(target, w)
  {
    if target == "" {
      return [], false;
    }
    t := [SetPhase(K8sUpgrading, target), ListNodes(w.listing.Some?)];
    if w.listing.None? {
      return t + [SetPhase(K8sFailed, target)], false;
    }
    var cpIP, from := FindControlPlane(w.listing.value);
    if cpIP == "" {
      return t + [SetPhase(K8sFailed, target)], false;
    }
    if SameVersion(from, target) {
      return t + [SetPhase(K8sIdle, target)], true;
    }
    t := t + [Snapshot(cpIP, w.snapshotOk)];
    if !w.snapshotOk {
      return t + [SetPhase(K8sFailed, target)], false;
    }
    t := t + [UpgradeK8s(from, target, w.upgradeOk)];
    if !w.upgradeOk {
      return t + [SetPhase(K8sFailed, target)], false;
    }
    t := t + [ListNodes(w.relisting.Some?)];
    if w.relisting.None? {
      return t + [SetPhase(K8sFailed, target)], false;
    }
    var behind := AnyBehind(w.relisting.value, target);
    ok := !behind;
    t := t + [SetPhase(if ok then K8sIdle else K8sFailed, target)];
  }

  /**
   * However the pass is cut, an UpgradeK8s comes straight after a successful snapshot of a listed
   * control-plane node that was not yet at the target; a failed snapshot is followed by nothing but the
   * record of failure; and there is at most one upgrade.
   */
  lemma SnapshotBeforeUpgrade(target: string, w: Answers, cut: nat, j: nat)
    requires cut <= |K8sCalls(target, w)| && j < cut
    ensures var t := K8sCalls(target, w)[..cut];
            && (t[j].UpgradeK8s? ==>
                  && j > 0 && t[j - 1].Snapshot? && t[j - 1].ok && w.listing.Some?
                  && (exists n :: n in w.listing.value && n.role == "controlplane" && n.internalIP == t[j - 1].ip != ""
                        && n.kubeletVersion == t[j].from && !SameVersion(t[j].from, target))
                  && t[j].to == target
                  && forall i :: 0 <= i < cut && i != j ==> !t[i].UpgradeK8s?)
            && (t[j].Snapshot? && !t[j].ok ==> forall i :: j < i < cut ==> t[i] == SetPhase(K8sFailed, target))
  {
    UpgradeIsFourth(target, w, j);
    if K8sCalls(target, w)[j].UpgradeK8s? { ControlPlaneListed(w.listing.value); }
  }

  /** A snapshot can only be the third call of a pass and an upgrade the fourth. */
  lemma UpgradeIsFourth(target: string, w: Answers, j: nat)
    requires j < |K8sCalls(target, w)|
    ensures var t, cp := K8sCalls(target, w), if w.listing.Some? then ControlPlaneOf(w.listing.value) else ("", "");
            && (t[j].UpgradeK8s? ==>
                  && j == 3 && t[2] == Snapshot(cp.0, true) && w.listing.Some? && cp.0 != "" && !SameVersion(cp.1, target)
                  && t[j].from == cp.1 && t[j].to == target && forall i :: 0 <= i < |t| && i != j ==> !t[i].UpgradeK8s?)
            && (t[j].Snapshot? && !t[j].ok ==> j == 2 && |t| == 4 && t[3] == SetPhase(K8sFailed, target))
  {
    var t := K8sCalls(target, w);
    if w.listing.Some? && ControlPlaneOf(w.listing.value).0 != "" && !SameVersion(ControlPlaneOf(w.listing.value).1, target) {
      assert forall i :: 2 <= i < |t| ==> t[i] == BehindCalls(target, ControlPlaneOf(w.listing.value), w)[i - 2];
    }
  }

  /** The record says Upgrading from the first call on, and at the end exactly what was returned. */
  lemma PhaseTellsOutcome(target: string, w: Answers)
    requires target != ""
    ensures var t := K8sCalls(target, w);
            && |t| >= 3 && t[0] == SetPhase(K8sUpgrading, target)
            && t[|t| - 1] == SetPhase(if ReturnsNil(target, w) then K8sIdle else K8sFailed, target)
            && (forall i :: 0 < i < |t| - 1 ==> !t[i].SetPhase?)
  {
    var t := K8sCalls(target, w);
    if w.listing.Some? && ControlPlaneOf(w.listing.value).0 != "" {
      var cp := ControlPlaneOf(w.listing.value);
      if !SameVersion(cp.1, target) {
        assert forall i :: 2 <= i < |t| ==> t[i] == BehindCalls(target, cp, w)[i - 2];
      }
    }
  }

  /** What the pass saw last: the listing after its upgrade if it made one, else its only listing. */
  ghost function LastListing(target: string, w: Answers): Option<seq<NodeInfo>>
  {
    if exists i :: 0 <= i < |K8sCalls(target, w)| && K8sCalls(target, w)[i].UpgradeK8s? then w.relisting else w.listing
  }

  /**
   * A nil pass that found its control-plane node behind last saw every node at the target. One that found it
   * there looked no further: then, and only then, can the last listing show a node behind, and it is the first
   * listing that shows it.
   */
  lemma NilConvergedIff(target: string, w: Answers)
    requires ReturnsNil(target, w)
    ensures LastListing(target, w).Some?
    ensures !SameVersion(ControlPlaneOf(w.listing.value).1, target) ==> AllAt(LastListing(target, w).value, target)
    ensures !AllAt(LastListing(target, w).value, target) <==>
              && SameVersion(ControlPlaneOf(w.listing.value).1, target)
              && exists n :: n in w.listing.value && !SameVersion(n.kubeletVersion, target)
  {
    var t := K8sCalls(target, w);
    if SameVersion(ControlPlaneOf(w.listing.value).1, target) {
      assert forall i :: 0 <= i < |t| ==> !t[i].UpgradeK8s?;
    } else {
      assert t[3] == UpgradeK8s(ControlPlaneOf(w.listing.value).1, target, true);
    }
  }

  /** Nil does not mean every node is at the target: the skip looks at one control-plane node only. */
  lemma NilWithWorkerBehind() returns (w: Answers)
    ensures ReturnsNil("2", w) && w.listing.Some? && !AllAt(w.listing.value, "2")
  {
    var cp := NodeInfo("cp", "10.0.0.2", "controlplane", "2", true);
    var worker := NodeInfo("w", "10.0.0.3", "worker", "1", true);
    var nodes := [cp, worker];
    assert nodes[..1] == [cp];
    assert ControlPlaneOf(nodes) == ControlPlaneOf([cp]) == ("10.0.0.2", "2");
    assert Trimmed("1") == "1" && Trimmed("2") == "2" && "1"[0] != "2"[0];
    assert !SameVersion(nodes[1].kubeletVersion, "2");
    w := Answers(Some(nodes), true, true, None);
  }

  /** The loop that keeps overwriting with each control-plane node it meets. */
  method FindControlPlane(nodes: seq<NodeInfo>) returns (cpIP: string, from: string)
    ensures (cpIP, from) == ControlPlaneOf(nodes)
  {
    cpIP, from := "", "";
    for i := 0 to |nodes|
      invariant (cpIP, from) == ControlPlaneOf(nodes[..i])
    {
      assert nodes[..i + 1][..i] == nodes[..i];
      if nodes[i].role == "controlplane" {
        cpIP, from := nodes[i].internalIP, nodes[i].kubeletVersion;
      }
    }
    assert nodes[..|nodes|] == nodes;
  }

  method AnyBehind(nodes: seq<NodeInfo>, target: string) returns (behind: bool)
    ensures behind <==> !AllAt(nodes, target)
  {
    for i := 0 to |nodes|
      invariant forall j :: 0 <= j < i ==> SameVersion(nodes[j].kubeletVersion, target)
    {
      if !SameVersion(nodes[i].kubeletVersion, target) {
        return true;
      }
    }
    return false;
  }

  /** The listing's last control-plane node has an address and a kubelet at another version than the target. */
  ghost predicate Behind(nodes: seq<NodeInfo>, target: string, i: nat)
  {
    && LastControlPlane(nodes, i) && nodes[i].internalIP != ""
    && var v := nodes[i].kubeletVersion;
    v != target && !(v == "v" + target && !LeadingV(target)) && !(target == "v" + v && !LeadingV(v))
  }

  /** An upgrade is triggered exactly when that is so and its snapshot succeeded; it goes from that kubelet's version to the target. */
  lemma UpgradesIff(target: string, w: Answers)
    ensures (exists j :: 0 <= j < |K8sCalls(target, w)| && K8sCalls(target, w)[j].UpgradeK8s?) <==>
              target != "" && w.listing.Some? && w.snapshotOk && exists i: nat :: Behind(w.listing.value, target, i)
    ensures forall j :: 0 <= j < |K8sCalls(target, w)| && K8sCalls(target, w)[j].UpgradeK8s? ==>
              && K8sCalls(target, w)[j].to == target
              && exists i: nat :: Behind(w.listing.value, target, i) && K8sCalls(target, w)[j].from == w.listing.value[i].kubeletVersion
  {
    var t := K8sCalls(target, w);
    if target != "" && w.listing.Some? {
      var nodes := w.listing.value;
      var cp := ControlPlaneOf(nodes);
      ControlPlaneIff(nodes);
      SameVersionIff(cp.1, target);
      if cp.0 != "" {
        var i: nat :| LastControlPlane(nodes, i);
        assert Behind(nodes, target, i) <==> !SameVersion(cp.1, target);
        if !SameVersion(cp.1, target) && w.snapshotOk { assert t[3] == UpgradeK8s(cp.1, target, w.upgradeOk); }
      }
      forall j | 0 <= j < |t| && t[j].UpgradeK8s? ensures t[j].to == target && t[j].from == cp.1 && cp.0 != "" && !SameVersion(cp.1, target) && w.snapshotOk {
        UpgradeIsFourth(target, w, j);
      }
    }
  }
}
