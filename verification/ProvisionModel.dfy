/**
 * Scale-out and scale-in of one cluster's pools. A pass is a list of single effects: record writes
 * and calls to the boot server and kube. A failing step or a crash cuts it after any of them.
 */
module ProvisionModel {
  import opened Basics
  import opened Kube
  import opened Records
  import opened Text

  /** One cluster's hosts by MAC, machines by address and pools by name. */
  datatype Inventory = Inventory(hosts: map<string, Host>, machines: map<string, Machine>, pools: map<string, NodePool>)

  /** Records sit under their own names. */
  ghost predicate Keyed(v: Inventory)
  {
    && (forall k :: k in v.hosts ==> v.hosts[k].mac == k)
    && (forall p :: p in v.pools ==> v.pools[p].name == p)
    && (forall a :: a in v.machines ==> v.machines[a].talosEndpoint == a)
  }

  datatype Effect =
    | PutHost(host: Host)
    | PutMachine(machine: Machine)
    | DropMachine(addr: string)
    | PutPool(pool: NodePool)
    | StageBoot(mac: string, version: string)
    | UnstageBoot(mac: string)
    | DrainNode(name: string)

  function Applied(v: Inventory, e: Effect): Inventory
  {
    match e
    case PutHost(h) => v.(hosts := v.hosts[h.mac := h])
    case PutMachine(m) => v.(machines := v.machines[m.talosEndpoint := m])
    case DropMachine(a) => v.(machines := v.machines - {a})
    case PutPool(np) => v.(pools := v.pools[np.name := np])
    case _ => v
  }

  function AppliedAll(v: Inventory, es: seq<Effect>): (r: Inventory)
    ensures v.hosts.Keys <= r.hosts.Keys && v.pools.Keys <= r.pools.Keys
    decreases |es|
  {
    if es == [] then v else AppliedAll(Applied(v, es[0]), es[1..])
  }

  // ----- searching -----

  predicate RoleMatches(nodeRole: string, role: Role)
  {
    (role == ControlPlane && nodeRole == "controlplane") || (role == Worker && nodeRole == "worker")
  }

  predicate Joins(n: NodeInfo, claimed: set<string>, role: Role)
  {
    n.ready && n.internalIP != "" && n.internalIP !in claimed && RoleMatches(n.role, role)
  }

  /** The first ready node of the role whose address nobody has claimed. */
  function NewJoined(nodes: seq<NodeInfo>, claimed: set<string>, role: Role): (r: Option<NodeInfo>)
    ensures r.Some? ==> r.value in nodes && Joins(r.value, claimed, role)
    ensures r.None? ==> forall n :: n in nodes ==> !Joins(n, claimed, role)
  {
    if nodes == [] then None
    else if Joins(nodes[0], claimed, role) then Some(nodes[0])
    else NewJoined(nodes[1..], claimed, role)
  }

  function FirstName(nodes: seq<NodeInfo>, addr: string): string
  {
    if nodes == [] then "" else if nodes[0].internalIP == addr then nodes[0].name else FirstName(nodes[1..], addr)
  }

  predicate MatchesSelector(labels: map<string, string>, selector: map<string, string>)
  {
    forall k :: k in selector ==> (if k in labels then labels[k] else "") == selector[k]
  }

  predicate Available(h: Host, selector: map<string, string>)
  {
    h.state == Registered && MatchesSelector(h.labels, selector)
  }

  /** The first listed host that is Registered and matches the selector. */
  function PickAvailable(listed: map<string, Host>, keys: seq<string>, selector: map<string, string>): (r: Option<string>)
    requires forall k :: k in keys ==> k in listed
    ensures r.Some? ==> r.value in keys && Available(listed[r.value], selector)
    ensures r.None? ==> forall k :: k in keys ==> !Available(listed[k], selector)
  {
    if keys == [] then None
    else if Available(listed[keys[0]], selector) then Some(keys[0])
    else PickAvailable(listed, keys[1..], selector)
  }

  /** The listed Ready host with the lowest MAC. */
  function Victim(listed: map<string, Host>, keys: seq<string>): (r: Option<string>)
    requires forall k :: k in keys ==> k in listed
    ensures r.Some? ==> r.value in keys && listed[r.value].state == HostReady
    ensures r.None? ==> forall k :: k in keys ==> listed[k].state != HostReady
  {
    if keys == [] then None
    else if listed[keys[0]].state == HostReady then Some(keys[0])
    else Victim(listed, keys[1..])
  }

  predicate TimedOut(h: Host, now: int, timeout: int)
  {
    h.provisioningStartedAt.Some? && now - h.provisioningStartedAt.value > timeout
  }

  // ----- effects -----

  function BoundPool(np: NodePool, ip: string): NodePool
  {
    np.(members := Sort(np.members + [ip]))
  }

  /** Host to Ready, its Machine, its membership: three separate writes. */
  function BindEffects(v: Inventory, pool: string, mac: string, n: NodeInfo, role: Role): seq<Effect>
    requires mac in v.hosts && pool in v.pools
  {
    var h, ip := v.hosts[mac], n.internalIP;
    [PutHost(h.(addr := ip, state := HostReady, message := "")),
     PutMachine(if ip in v.machines then v.machines[ip] else Machine(h.cluster, pool, ip, role, None, 0))] +
    (if ip in v.pools[pool].members then [] else [PutPool(BoundPool(v.pools[pool], ip))])
  }

  function FailedHost(h: Host): Host
  {
    h.(state := HostFailed, message := "provision timed out: node did not join")
  }

  datatype Env = Env(pool: string, role: Role, nodes: seq<NodeInfo>, now: int, timeout: int)

  datatype Progress = Progress(effects: seq<Effect>, inflight: nat, ready: nat, failed: nat)

  /** The in-flight hosts: joined ones are bound, overdue ones failed, the others waited for. */
  function Advance(v: Inventory, env: Env, listed: map<string, Host>, keys: seq<string>, claimed: set<string>): Progress
    requires env.pool in v.pools && forall k :: k in keys ==> k in listed && k in v.hosts
    decreases |keys|
  {
    if keys == [] then Progress([], 0, 0, 0)
    else
      var k := keys[0];
      match listed[k].state
      case HostReady =>
        var p := Advance(v, env, listed, keys[1..], claimed);
        p.(ready := p.ready + 1)
      case HostFailed =>
        var p := Advance(v, env, listed, keys[1..], claimed);
        p.(failed := p.failed + 1)
      case Provisioning =>
        var n := NewJoined(env.nodes, claimed, env.role);
        if n.Some? then
          var es := BindEffects(v, env.pool, k, n.value, env.role);
          var p := Advance(AppliedAll(v, es), env, listed, keys[1..], claimed + {n.value.internalIP});
          p.(effects := es + p.effects, ready := p.ready + 1)
        else if TimedOut(listed[k], env.now, env.timeout) then
          var es := [PutHost(FailedHost(v.hosts[k]))];
          var p := Advance(AppliedAll(v, es), env, listed, keys[1..], claimed);
          p.(effects := es + p.effects, failed := p.failed + 1)
        else
          var p := Advance(v, env, listed, keys[1..], claimed);
          p.(inflight := p.inflight + 1)
      case _ => Advance(v, env, listed, keys[1..], claimed)
  }

  function Released(h: Host): Host
  {
    h.(state := Registered, addr := "", message := "released (scale-in)")
  }

  function Without(members: seq<string>, addr: string): seq<string>
  {
    if members == [] then []
    else if members[0] == addr then Without(members[1..], addr)
    else [members[0]] + Without(members[1..], addr)
  }

  /** Drain, unstage, drop the Machine and the membership, and last of all release the host. */
  function ScaleInEffects(v: Inventory, env: Env, listed: map<string, Host>, keys: seq<string>): seq<Effect>
    requires env.pool in v.pools && forall k :: k in keys ==> k in listed && k in v.hosts
  {
    var victim := Victim(listed, keys);
    if victim.None? then []
    else
      var mac := victim.value;
      var addr := listed[mac].addr;
      var name := FirstName(env.nodes, addr);
      (if name != "" then [DrainNode(name)] else []) + ([UnstageBoot(mac)] +
      ((if addr == "" then []
        else [DropMachine(addr), PutPool(v.pools[env.pool].(members := Without(v.pools[env.pool].members, addr)))]) +
       [PutHost(Released(v.hosts[mac]))]))
  }

  function Started(h: Host, now: int): Host
  {
    h.(state := Provisioning, message := "staged; awaiting boot + join", provisioningStartedAt := Some(now))
  }

  function StageEffects(v: Inventory, mac: string, version: string, now: int): seq<Effect>
    requires mac in v.hosts
  {
    if version == "" then [] else [StageBoot(mac, version), PutHost(Started(v.hosts[mac], now))]
  }

  // ----- the pass -----

  /** The pool's hosts, by MAC, in listing order. */
  ghost function PoolKeys(v: Inventory, pool: string): (keys: seq<string>)
    ensures Ascending(keys)
    ensures forall k :: k in keys <==> k in v.hosts && v.hosts[k].pool == pool
  {
    Listed(set k | k in v.hosts && v.hosts[k].pool == pool)
  }

  /** Addresses spoken for: every machine of the cluster and every bound host of the pool. */
  function ClaimedAddrs(v: Inventory, keys: seq<string>): set<string>
    requires forall k :: k in keys ==> k in v.hosts
  {
    v.machines.Keys + (set k | k in keys && v.hosts[k].addr != "" :: v.hosts[k].addr)
  }

  /** The Talos version a new host is staged with: the pool's, else the cluster's. */
  function StageVersion(np: NodePool, cl: Cluster): string
  {
    if np.desired.Some? && np.desired.value != "" then np.desired.value
    else if cl.desired.Some? then cl.desired.value.talosVersion else ""
  }

  datatype PassInput = PassInput(pool: string, cl: Option<Cluster>, nodes: Option<seq<NodeInfo>>, now: int, timeout: int)

  /** The guards in front of the pass. */
  predicate Engaged(v: Inventory, n: PassInput)
  {
    n.cl.Some? && n.cl.value.provisioningEnabled && n.pool in v.pools && v.pools[n.pool].replicas != 0 && n.nodes.Some?
  }

  function EnvOf(v: Inventory, n: PassInput): Env
    requires Engaged(v, n)
  {
    Env(n.pool, v.pools[n.pool].role, n.nodes.value, n.now, n.timeout)
  }

  /** What follows once nothing is in flight: scale in by one, or out by one, or neither. */
  function Settle(v: Inventory, env: Env, np: NodePool, version: string, listed: map<string, Host>, keys: seq<string>, p: Progress): seq<Effect>
    requires env.pool in v.pools && forall k :: k in keys ==> k in listed && k in v.hosts
  {
    if p.inflight > 0 || p.failed > 0 then []
    else if p.ready > np.replicas then ScaleInEffects(v, env, listed, keys)
    else if p.ready < np.replicas then
      var h := PickAvailable(listed, keys, np.selector);
      if h.None? then [] else StageEffects(v, h.value, version, env.now)
    else []
  }

  ghost function PassEffects(v: Inventory, n: PassInput): seq<Effect>
  {
    if !Engaged(v, n) then []
    else
      var env, np, keys := EnvOf(v, n), v.pools[n.pool], PoolKeys(v, n.pool);
      var p := Advance(v, env, v.hosts, keys, ClaimedAddrs(v, keys));
      p.effects +
      Settle(AppliedAll(v, p.effects), env, np, StageVersion(np, n.cl.value), v.hosts, keys, p)
  }

  /** A pass cut after `cut` effects by an error or a crash. */
  ghost function PassCut(v: Inventory, n: PassInput, cut: nat): Inventory
  {
    var es := PassEffects(v, n);
    AppliedAll(v, if cut < |es| then es[..cut] else es)
  }

  // ----- folding -----

  lemma {:induction false} AppliedConcat(v: Inventory, s: seq<Effect>, t: seq<Effect>)
    ensures AppliedAll(v, s + t) == AppliedAll(AppliedAll(v, s), t)
    decreases |s|
  {
    if s == [] {
      assert s + t == t;
    } else {
      assert (s + t)[1..] == s[1..] + t;
      AppliedConcat(Applied(v, s[0]), s[1..], t);
    }
  }

  lemma AppliedCons(v: Inventory, e: Effect, t: seq<Effect>)
    ensures AppliedAll(v, [e] + t) == AppliedAll(Applied(v, e), t)
  {
    assert ([e] + t)[1..] == t;
  }

  /** No list of effects files a record under another's name. */
  lemma {:induction false} AppliedKeyed(v: Inventory, es: seq<Effect>)
    requires Keyed(v)
    ensures Keyed(AppliedAll(v, es))
    decreases |es|
  {
    if es != [] { AppliedKeyed(Applied(v, es[0]), es[1..]); }
  }
}
