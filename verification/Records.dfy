/** The messages the store persists, and how each one is keyed, stamped and announced. */
module Records {
  import opened Basics
  import opened Keys

  datatype Role = RoleUnspecified | ControlPlane | Worker
  datatype ClusterMode = ModeUnspecified | Manual | Auto

  datatype ClusterDesired = ClusterDesired(talosVersion: string, kubernetesVersion: string)
  datatype ClusterObserved = ClusterObserved(kubernetesVersion: string, controlPlaneReady: bool)
  datatype Endpoints = Endpoints(talos: seq<string>, kube: string)

  datatype Cluster = Cluster(
    name: string,
    desired: Option<ClusterDesired>,
    observed: Option<ClusterObserved>,
    endpoints: Option<Endpoints>,
    revision: nat,
    mode: ClusterMode,
    rolloutsEnabled: bool,
    provisioningEnabled: bool)

  datatype Strategy = Strategy(
    maxUnavailable: nat, drainTimeout: int, haltOnFailure: bool, snapshotBeforeControlPlane: bool)

  datatype NodePool = NodePool(
    cluster: string,
    name: string,
    role: Role,
    members: seq<string>,
    desired: Option<string>,  // desired.talos_version
    strategy: Option<Strategy>,
    paused: bool,
    revision: nat,
    replicas: nat,
    selector: map<string, string>,
    extensions: seq<string>)

  datatype MachineObserved = MachineObserved(talosVersion: string, kubernetesVersion: string, healthy: bool)

  datatype Machine = Machine(
    cluster: string, pool: string, talosEndpoint: string, role: Role,
    observed: Option<MachineObserved>, revision: nat)

  datatype HostState =
    HostUnspecified | Registered | Allocated | Provisioning | HostReady | HostFailed | Deprovisioning

  datatype Host = Host(
    cluster: string,
    mac: string,
    pool: string,
    labels: map<string, string>,
    addr: string,
    role: Role,
    state: HostState,
    message: string,
    revision: nat,
    provisioningStartedAt: Option<int>)  // None: absent or unparsable

  datatype NodeState = StateUnspecified | Idle | Draining | Upgrading | WaitingHealthy | Done | Failed

  datatype MachineRollout = MachineRollout(
    cluster: string, addr: string, state: NodeState, target: string, message: string, revision: nat)

  datatype K8sPhase = PhaseUnspecified | K8sIdle | K8sUpgrading | K8sFailed

  datatype ClusterRollout = ClusterRollout(
    cluster: string, phase: K8sPhase, target: string, message: string, revision: nat)

  datatype JobKind = KindUnspecified | TalosJob | KubernetesJob
  datatype JobState =
    JobUnspecified | JobPending | JobRunning | JobPaused | JobFailed | JobDone | JobCancelled

  datatype Job = Job(
    cluster: string, pool: string, kind: JobKind, target: string, state: JobState,
    plannedTargets: seq<string>, message: string, revision: nat)

  datatype BootPhase =
    | BootUnspecified | NotBootstrapped | GeneratingSecrets | Staging | AwaitingInstall
    | Bootstrapping | AwaitingHealthy | FetchingKubeconfig | BootReady | BootFailed

  datatype ClusterBootstrap = ClusterBootstrap(
    cluster: string, phase: BootPhase, cpMac: string, cpEndpoint: string, cpIp: string,
    talosVersion: string, kubernetesVersion: string, message: string,
    startedAt: Option<int>, revision: nat)

  /** One constructor per bucket of the database. */
  datatype Record =
    | ClusterRec(cluster: Cluster)
    | PoolRec(pool: NodePool)
    | MachineRec(machine: Machine)
    | HostRec(host: Host)
    | MachineRolloutRec(machineRollout: MachineRollout)
    | ClusterRolloutRec(clusterRollout: ClusterRollout)
    | JobRec(job: Job)
    | BootstrapRec(bootstrap: ClusterBootstrap)

  /** An event kind; every kind has a bucket of its own. */
  datatype Kind =
    | KindCluster | KindNodePool | KindMachine | KindHost
    | KindMachineRollout | KindClusterRollout | KindRolloutJob | KindClusterBootstrap

  /** A place in the database: a bucket and a key inside it. */
  datatype Slot = Slot(kind: Kind, key: string)

  datatype Event = Event(kind: Kind, key: string, revision: nat)

  function KindOf(r: Record): Kind
  {
    match r
    case ClusterRec(_) => KindCluster
    case PoolRec(_) => KindNodePool
    case MachineRec(_) => KindMachine
    case HostRec(_) => KindHost
    case MachineRolloutRec(_) => KindMachineRollout
    case ClusterRolloutRec(_) => KindClusterRollout
    case JobRec(_) => KindRolloutJob
    case BootstrapRec(_) => KindClusterBootstrap
  }

  /** Desired records are written by compare-and-swap, the others last-writer-wins. */
  predicate IsDesired(k: Kind)
  {
    k in {KindCluster, KindNodePool, KindMachine, KindHost}
  }

  /** Buckets whose key is the bare cluster name; the others use a compound key. */
  predicate BareKeyed(k: Kind)
  {
    k in {KindCluster, KindClusterRollout, KindClusterBootstrap}
  }

  function ClusterOf(r: Record): string
  {
    match r
    case ClusterRec(c) => c.name
    case PoolRec(np) => np.cluster
    case MachineRec(m) => m.cluster
    case HostRec(h) => h.cluster
    case MachineRolloutRec(x) => x.cluster
    case ClusterRolloutRec(x) => x.cluster
    case JobRec(j) => j.cluster
    case BootstrapRec(b) => b.cluster
  }

  /** The name inside the cluster, for the kinds with a compound key. */
  function NameOf(r: Record): string
  {
    match r
    case ClusterRec(_) => ""
    case PoolRec(np) => np.name
    case MachineRec(m) => m.talosEndpoint
    case HostRec(h) => h.mac
    case MachineRolloutRec(x) => x.addr
    case ClusterRolloutRec(_) => ""
    case JobRec(j) => j.pool
    case BootstrapRec(_) => ""
  }

  function SlotFor(k: Kind, cluster: string, name: string): Slot
  {
    Slot(k, if BareKeyed(k) then cluster else CKey(cluster, name))
  }

  function SlotOf(r: Record): Slot
  {
    SlotFor(KindOf(r), ClusterOf(r), NameOf(r))
  }

  /** The identity fields every put demands; a job may leave its pool empty. */
  predicate Named(r: Record)
  {
    ClusterOf(r) != "" && (BareKeyed(KindOf(r)) || r.JobRec? || NameOf(r) != "")
  }

  function RevOf(r: Record): nat
  {
    match r
    case ClusterRec(c) => c.revision
    case PoolRec(np) => np.revision
    case MachineRec(m) => m.revision
    case HostRec(h) => h.revision
    case MachineRolloutRec(x) => x.revision
    case ClusterRolloutRec(x) => x.revision
    case JobRec(j) => j.revision
    case BootstrapRec(b) => b.revision
  }

  /** What gets written: the record with its revision set and its observed cache cleared. */
  function Stamp(r: Record, rev: nat): (s: Record)
    ensures KindOf(s) == KindOf(r) && SlotOf(s) == SlotOf(r)
    ensures RevOf(s) == rev && !HasObserved(s)
  {
    match r
    case ClusterRec(c) => ClusterRec(c.(revision := rev, observed := None))
    case PoolRec(np) => PoolRec(np.(revision := rev))
    case MachineRec(m) => MachineRec(m.(revision := rev, observed := None))
    case HostRec(h) => HostRec(h.(revision := rev))
    case MachineRolloutRec(x) => MachineRolloutRec(x.(revision := rev))
    case ClusterRolloutRec(x) => ClusterRolloutRec(x.(revision := rev))
    case JobRec(j) => JobRec(j.(revision := rev))
    case BootstrapRec(b) => BootstrapRec(b.(revision := rev))
  }

  predicate HasObserved(r: Record)
  {
    (r.ClusterRec? && r.cluster.observed.Some?) || (r.MachineRec? && r.machine.observed.Some?)
  }

  /** Stamping twice keeps only the last stamp; restamping a stored record with its own revision is the identity. */
  lemma StampTwice(r: Record, a: nat, b: nat)
    ensures Stamp(Stamp(r, a), b) == Stamp(r, b)
    ensures !HasObserved(r) ==> Stamp(r, RevOf(r)) == r
  {
  }

  /** The key watchers see: the cluster, or cluster/name. */
  function EventKey(r: Record): string
  {
    if BareKeyed(KindOf(r)) then ClusterOf(r) else ClusterOf(r) + "/" + NameOf(r)
  }

  function EventOf(r: Record): Event
  {
    Event(KindOf(r), EventKey(r), RevOf(r))
  }

  /** The event is about the record: its kind, and its cluster and name spelled out from its own fields. */
  predicate Names(e: Event, r: Record)
  {
    match r
    case ClusterRec(c) => e.kind == KindCluster && e.key == c.name
    case PoolRec(np) => e.kind == KindNodePool && e.key == np.cluster + "/" + np.name
    case MachineRec(m) => e.kind == KindMachine && e.key == m.cluster + "/" + m.talosEndpoint
    case HostRec(h) => e.kind == KindHost && e.key == h.cluster + "/" + h.mac
    case MachineRolloutRec(x) => e.kind == KindMachineRollout && e.key == x.cluster + "/" + x.addr
    case ClusterRolloutRec(x) => e.kind == KindClusterRollout && e.key == x.cluster
    case JobRec(j) => e.kind == KindRolloutJob && e.key == j.cluster + "/" + j.pool
    case BootstrapRec(b) => e.kind == KindClusterBootstrap && e.key == b.cluster
  }

  lemma EventNames(r: Record, rev: nat)
    ensures Names(Event(KindOf(r), EventKey(r), rev), r) && Names(EventOf(r), r)
  {
  }

  /** Records of one kind have distinct event keys exactly when they have distinct places, with plain cluster names. */
  lemma SameKeyIffSameSlot(r: Record, r': Record)
    requires KindOf(r) == KindOf(r')
    requires NulFree(ClusterOf(r)) && NulFree(ClusterOf(r')) && SlashFree(ClusterOf(r)) && SlashFree(ClusterOf(r'))
    ensures EventKey(r) == EventKey(r') <==> SlotOf(r) == SlotOf(r')
  {
    if !BareKeyed(KindOf(r)) {
      var a, b, a', b' := ClusterOf(r), NameOf(r), ClusterOf(r'), NameOf(r');
      if CKey(a, b) == CKey(a', b') { CKeyInjective(a, b, a', b'); }
      if EventKey(r) == EventKey(r') { SlashKeysMeetIff(a, b, a', b'); }
    }
  }
}

/** Compound keys and the prefix scan built on them. */
module Keys {
  const NUL: char := '\0'

  /** `<a> NUL <b>` */
  function CKey(a: string, b: string): string
  {
    a + [NUL] + b
  }

  /** The keys a scan for one cluster visits. */
  predicate Scanned(key: string, cluster: string)
  {
    cluster + [NUL] <= key
  }

  predicate NulFree(s: string)
  {
    NUL !in s
  }

  /** The byte-by-byte prefix test agrees with the prefix order on sequences. */
  method HasPrefix(b: string, prefix: string) returns (r: bool)
    ensures r <==> prefix <= b
  {
    if |b| < |prefix| {
      return false;
    }
    for i := 0 to |prefix|
      invariant prefix[..i] == b[..i]
    {
      if b[i] != prefix[i] {
        return false;
      }
      assert prefix[..i + 1] == prefix[..i] + [prefix[i]] && b[..i + 1] == b[..i] + [b[i]];
    }
    assert prefix[..|prefix|] == prefix;
    return true;
  }

  /** Exactly which records a scan for cluster `c` reaches, over all names whatsoever. */
  lemma ScanReach(c: string, a: string, b: string)
    ensures Scanned(CKey(a, b), c) <==>
              || a == c
              || c + [NUL] <= a
              || (a + [NUL] <= c && c[|a| + 1..] + [NUL] <= b)
  {
    var key := CKey(a, b);
    if |a| == |c| {
      assert key[..|c|] == a && key[|c|] == NUL;
    } else if |a| > |c| {
      assert key[..|c| + 1] == a[..|c| + 1];
    } else {
      assert key[|a| + 1..] == b;
      var p := c + [NUL];
      assert p == p[..|a| + 1] + p[|a| + 1..];
      assert p[..|a| + 1] == c[..|a| + 1];
      assert p[|a| + 1..] == c[|a| + 1..] + [NUL];
      assert key[..|a| + 1] == a + [NUL];
      if p <= key {
        assert forall i :: 0 <= i < |p| ==> p[i] == key[i];
        forall i | 0 <= i < |a| + 1 ensures c[i] == (a + [NUL])[i] { assert p[i] == key[i]; }
        forall i | 0 <= i < |c| - |a| ensures (c[|a| + 1..] + [NUL])[i] == b[i] {
          assert p[|a| + 1 + i] == key[|a| + 1 + i];
        }
      }
      if a + [NUL] <= c && c[|a| + 1..] + [NUL] <= b {
        assert p == (a + [NUL]) + (c[|a| + 1..] + [NUL]);
      }
    }
  }

  lemma NulInside(p: string, s: string)
    ensures p + [NUL] <= s ==> !NulFree(s)
  {
    if p + [NUL] <= s { assert s[|p|] == NUL; }
  }

  /** With NUL-free cluster names, a scan for `c` reaches the records of `c` and no other. */
  lemma ScanExact(c: string, a: string, b: string)
    requires NulFree(c) && NulFree(a)
    ensures Scanned(CKey(a, b), c) <==> a == c
  {
    ScanReach(c, a, b);
    NulInside(c, a);
    NulInside(a, c);
  }

  /** With NUL-free first components, compound keys are injective. */
  lemma CKeyInjective(a: string, b: string, a': string, b': string)
    requires NulFree(a) && NulFree(a')
    requires CKey(a, b) == CKey(a', b')
    ensures a == a' && b == b'
  {
    assert a + [NUL] <= CKey(a, b);
    ScanExact(a, a', b');
    assert CKey(a, b)[|a| + 1..] == b && CKey(a', b')[|a'| + 1..] == b';
  }

  /** Within one cluster, compound keys are injective whatever the names hold. */
  lemma CKeySameCluster(a: string, b: string, b': string)
    requires CKey(a, b) == CKey(a, b')
    ensures b == b'
  {
    assert CKey(a, b)[|a| + 1..] == b && CKey(a, b')[|a| + 1..] == b';
  }

  predicate SlashFree(s: string)
  {
    '/' !in s
  }

  /** Exactly when two identities are announced under one `cluster/name` key, over all names whatsoever. */
  lemma SlashKeysMeetIff(a: string, b: string, a': string, b': string)
    ensures a + "/" + b == a' + "/" + b' <==>
              || (a == a' && b == b')
              || (a + "/" <= a' && b == a'[|a| + 1..] + "/" + b')
              || (a' + "/" <= a && b' == a[|a'| + 1..] + "/" + b)
    ensures a + "/" <= a' ==> !SlashFree(a')
    ensures a' + "/" <= a ==> !SlashFree(a)
  {
    if |a| <= |a'| { SlashMeet(a, b, a', b'); } else { SlashMeet(a', b', a, b); }
    if a + "/" <= a' { assert a'[|a|] == '/'; }
    if a' + "/" <= a { assert a[|a'|] == '/'; }
  }

  lemma SlashMeet(a: string, b: string, a': string, b': string)
    requires |a| <= |a'|
    ensures a + "/" + b == a' + "/" + b' <==>
              (a == a' && b == b') || (a + "/" <= a' && b == a'[|a| + 1..] + "/" + b')
  {
    var x, y := a + "/" + b, a' + "/" + b';
    if x == y {
      assert x[..|a|] == a && x[|a| + 1..] == b && y[..|a|] == a'[..|a|];
      if |a| == |a'| {
        assert y[|a| + 1..] == b';
      } else {
        assert x[..|a| + 1] == a + "/" && y[..|a| + 1] == a'[..|a| + 1];
        assert y[|a| + 1..] == a'[|a| + 1..] + "/" + b';
      }
    }
    if a + "/" <= a' && b == a'[|a| + 1..] + "/" + b' {
      assert a' == (a + "/") + a'[|a| + 1..];
    }
  }

  /** A slash in a cluster name makes two identities share an event key. */
  lemma SlashCollision()
    ensures "a" + "/" + "b/m" == "a/b" + "/" + "m" && CKey("a", "b/m") != CKey("a/b", "m")
  {
    assert CKey("a", "b/m")[1] != CKey("a/b", "m")[1];
  }

  /** A NUL in a name breaks both: two different identities share a key. */
  lemma NulCollision()
    ensures CKey("a", "b\0c") == CKey("a\0b", "c")
    ensures Scanned(CKey("a\0b", "c"), "a")
  {
    assert "a" + [NUL] <= CKey("a\0b", "c");
  }
}
