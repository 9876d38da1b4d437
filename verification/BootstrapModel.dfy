/**
 * Bring-up of a new single-control-plane cluster through its persisted phases. Side effects and the
 * phase write are separate effects; a crash or an error cuts a pass after any of them.
 */
module BootstrapModel {
  import opened Basics
  import opened Records

  /** A secrets bundle; what is rendered from it remembers it. */
  datatype Bundle = Bundle(id: nat)
  datatype TalosConfig = TalosConfig(bundle: Bundle, cluster: string, endpoint: string, kubernetesVersion: string)
  datatype MachineConfig = MachineConfig(
    bundle: Bundle, cluster: string, endpoint: string, kubernetesVersion: string, talosVersion: string, schematic: string)

  datatype World = World(
    record: Option<ClusterBootstrap>,
    secrets: Option<Bundle>,
    talos: Option<TalosConfig>,
    kube: Option<string>,
    staged: map<string, MachineConfig>,
    cluster: Option<Cluster>,
    pool: Option<NodePool>,
    machine: Option<Machine>,
    initialised: bool,   // etcd on the node
    inits: nat)          // history: how often an init took effect

  datatype Effect =
    | PutRecord(cb: ClusterBootstrap)
    | PutSecrets(bundle: Bundle)
    | PutTalos(config: TalosConfig)
    | PutKube(kubeconfig: Option<string>)
    | StageConfig(mac: string, machineConfig: MachineConfig)
    | InitEtcd(applied: bool)
    | PutCluster(cluster: Cluster)
    | PutPool(pool: NodePool)
    | PutMachine(machine: Machine)

  function Applied(w: World, e: Effect): World
  {
    match e
    case PutRecord(cb) => w.(record := Some(cb))
    case PutSecrets(b) => w.(secrets := Some(b))
    case PutTalos(c) => w.(talos := Some(c))
    case PutKube(k) => w.(kube := k)
    case StageConfig(mac, c) => w.(staged := w.staged[mac := c])
    case InitEtcd(applied) => if applied then w.(initialised := true, inits := w.inits + 1) else w
    case PutCluster(c) => w.(cluster := Some(c))
    case PutPool(np) => w.(pool := Some(np))
    case PutMachine(m) => w.(machine := Some(m))
  }

  function AppliedAll(w: World, es: seq<Effect>): World
    decreases |es|
  {
    if es == [] then w else AppliedAll(Applied(w, es[0]), es[1..])
  }

  // ----- the node's answers -----

  datatype InitReply = InitOk | InitErr(message: string, took: bool)

  function Lower(c: char): char
  {
    if 'A' <= c <= 'Z' then (c as int + 32) as char else c
  }

  predicate Contains(s: string, sub: string)
  {
    sub <= s || (s != [] && Contains(s[1..], sub))
  }

  function Lowered(s: string): string
  {
    seq(|s|, i requires 0 <= i < |s| => Lower(s[i]))
  }

  /** The error texts read as "this node is bootstrapped already". */
  predicate AlreadyBootstrapped(message: string)
  {
    Contains(Lowered(message), "already") || Contains(Lowered(message), "not empty")
  }

  /** The same letter, whatever its case. */
  predicate SameLetter(c: char, l: char)
  {
    c == l || ('a' <= l <= 'z' && c as int + 32 == l as int)
  }

  /** From position `i` on the text spells the word, whatever the case. */
  predicate SpellsAt(s: string, word: string, i: nat)
  {
    i + |word| <= |s| && forall j :: 0 <= j < |word| ==> SameLetter(s[i + j], word[j])
  }

  predicate IsLower(word: string)
  {
    forall j :: 0 <= j < |word| ==> !('A' <= word[j] <= 'Z')
  }

  lemma {:induction false} ContainsIff(s: string, word: string)
    requires IsLower(word)
    ensures Contains(Lowered(s), word) <==> exists i: nat :: SpellsAt(s, word, i)
    decreases |s|
  {
    var t := Lowered(s);
    assert word <= t <==> SpellsAt(s, word, 0) by {
      assert forall j :: 0 <= j < |word| && j < |s| ==> (t[j] == word[j] <==> SameLetter(s[j], word[j]));
    }
    if s == [] {
      assert t == [];
      assert forall i: nat :: SpellsAt(s, word, i) ==> i == 0;
    } else {
      assert t[1..] == Lowered(s[1..]);
      ContainsIff(s[1..], word);
      forall i: nat ensures SpellsAt(s[1..], word, i) <==> SpellsAt(s, word, i + 1) {
        if SpellsAt(s[1..], word, i) {
          forall j | 0 <= j < |word| ensures SameLetter(s[i + 1 + j], word[j]) { assert s[1..][i + j] == s[i + 1 + j]; }
        }
        if SpellsAt(s, word, i + 1) {
          forall j | 0 <= j < |word| ensures SameLetter(s[1..][i + j], word[j]) { assert s[1..][i + j] == s[i + 1 + j]; }
        }
      }
      if i: nat :| SpellsAt(s, word, i) {
        if i > 0 { assert SpellsAt(s[1..], word, i - 1); }
      }
      if i: nat :| SpellsAt(s[1..], word, i) { assert SpellsAt(s, word, i + 1); }
    }
  }

  /** The error says "already" or "not empty" somewhere, in any case. */
  ghost predicate SaysAlready(message: string)
  {
    exists i: nat :: SpellsAt(message, "already", i) || SpellsAt(message, "not empty", i)
  }

  lemma AlreadyIff(message: string)
    ensures AlreadyBootstrapped(message) <==> SaysAlready(message)
  {
    ContainsIff(message, "already");
    ContainsIff(message, "not empty");
  }

  /** What one pass hears: the bundle it would mint, the schematic, the node's answers, the clock. */
  datatype Replies = Replies(
    minted: Bundle, schematic: Option<string>, reachable: bool, init: InitReply, kubeconfig: Option<string>,
    now: int, timeout: int)

  /** Talos initialises a fresh node once, refuses an initialised one, and says "already" only to such a one. */
  predicate Truthful(w: World, r: InitReply)
  {
    match r
    case InitOk => !w.initialised
    case InitErr(m, took) => (took ==> !w.initialised) && (AlreadyBootstrapped(m) ==> w.initialised)
  }

  // ----- the pass -----

  function TalosFor(cb: ClusterBootstrap, b: Bundle): TalosConfig
  {
    TalosConfig(b, cb.cluster, cb.cpEndpoint, cb.kubernetesVersion)
  }

  function ConfigFor(cb: ClusterBootstrap, b: Bundle, schematic: string): MachineConfig
  {
    MachineConfig(b, cb.cluster, cb.cpEndpoint, cb.kubernetesVersion, cb.talosVersion, schematic)
  }

  function To(cb: ClusterBootstrap, phase: BootPhase, message: string): Effect
  {
    PutRecord(cb.(phase := phase, message := message))
  }

  function WithoutScheme(endpoint: string): string
  {
    if "https://" <= endpoint then endpoint[8..] else endpoint
  }

  function SeedCluster(cb: ClusterBootstrap): Cluster
  {
    Cluster(cb.cluster, Some(ClusterDesired(cb.talosVersion, cb.kubernetesVersion)), None,
            Some(Endpoints([cb.cpIp], WithoutScheme(cb.cpEndpoint))), 0, ModeUnspecified, false, false)
  }

  function SeedPool(cb: ClusterBootstrap): NodePool
  {
    NodePool(cb.cluster, "controlplane", ControlPlane, [cb.cpIp], None, None, false, 0, 0, map[], [])
  }

  function SeedMachine(cb: ClusterBootstrap): Machine
  {
    Machine(cb.cluster, "controlplane", cb.cpIp, ControlPlane, None, 0)
  }

  /** The inventory records that are still missing. */
  function SeedEffects(w: World, cb: ClusterBootstrap): seq<Effect>
  {
    (if w.cluster.None? then [PutCluster(SeedCluster(cb))] else []) +
    (if w.pool.None? then [PutPool(SeedPool(cb))] else []) +
    (if w.machine.None? then [PutMachine(SeedMachine(cb))] else [])
  }

  predicate TimedOut(cb: ClusterBootstrap, now: int, timeout: int)
  {
    cb.startedAt.Some? && now - cb.startedAt.value > timeout
  }

  function SecretsEffects(w: World, cb: ClusterBootstrap, r: Replies): seq<Effect>
  {
    if w.secrets.Some? then [To(cb, Staging, "secrets already present")]
    else [PutSecrets(r.minted), To(cb, Staging, "generated cluster secrets")]
  }

  function StageEffects(w: World, cb: ClusterBootstrap, r: Replies): seq<Effect>
  {
    if w.secrets.None? || r.schematic.None? then []
    else
      [PutTalos(TalosFor(cb, w.secrets.value)), PutKube(None),
       StageConfig(cb.cpMac, ConfigFor(cb, w.secrets.value, r.schematic.value)),
       To(cb, AwaitingInstall, "staged; awaiting install + boot")]
  }

  function AwaitEffects(w: World, cb: ClusterBootstrap, r: Replies): seq<Effect>
  {
    if w.talos.Some? && r.reachable then [To(cb, Bootstrapping, "node reachable; bootstrapping etcd")] else []
  }

  function InitEffects(w: World, cb: ClusterBootstrap, r: Replies): seq<Effect>
  {
    if w.talos.None? then []
    else match r.init
      case InitOk => [InitEtcd(true), To(cb, AwaitingHealthy, "etcd bootstrapped")]
      case InitErr(m, took) =>
        [InitEtcd(took)] + (if AlreadyBootstrapped(m) then [To(cb, AwaitingHealthy, "etcd already bootstrapped")] else [])
  }

  function FetchEffects(w: World, cb: ClusterBootstrap, r: Replies): seq<Effect>
  {
    if w.talos.None? || r.kubeconfig.None? then []
    else
      [PutTalos(w.talos.value), PutKube(r.kubeconfig)] + SeedEffects(w, cb) + [To(cb, BootReady, "cluster bootstrapped")]
  }

  /** At most one phase forward. */
  function PhaseEffects(w: World, cb: ClusterBootstrap, r: Replies): seq<Effect>
  {
    if TimedOut(cb, r.now, r.timeout) then [To(cb, BootFailed, "bootstrap timed out")]
    else match cb.phase
      case NotBootstrapped => [To(cb.(startedAt := Some(r.now)), GeneratingSecrets, "starting bootstrap")]
      case GeneratingSecrets => SecretsEffects(w, cb, r)
      case Staging => StageEffects(w, cb, r)
      case AwaitingInstall => AwaitEffects(w, cb, r)
      case Bootstrapping => InitEffects(w, cb, r)
      case AwaitingHealthy => FetchEffects(w, cb, r)
      case FetchingKubeconfig => FetchEffects(w, cb, r)
      case _ => []
  }

  predicate Terminal(p: BootPhase)
  {
    p == BootReady || p == BootFailed
  }

  function Effects(w: World, r: Replies): seq<Effect>
  {
    if w.record.None? || Terminal(w.record.value.phase) then [] else PhaseEffects(w, w.record.value, r)
  }

  function CutPass(w: World, r: Replies, cut: nat): World
  {
    var es := Effects(w, r);
    AppliedAll(w, if cut < |es| then es[..cut] else es)
  }

  datatype Step = Step(replies: Replies, cut: nat)

  /** Passes cut anywhere, with a truthful node. */
  function Run(w: World, steps: seq<Step>): World
    decreases |steps|
  {
    if steps == [] then w
    else Run(if Truthful(w, steps[0].replies.init) then CutPass(w, steps[0].replies, steps[0].cut) else w, steps[1..])
  }
}
