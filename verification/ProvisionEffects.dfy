/**
 * What each effect of a provisioning pass is about, in the terms of the stored hosts, the pool, the node listing and
 * the clock. A cut pass does the first few of these effects, so all of it holds of cut passes too.
 */
module ProvisionEffects {
  import opened Basics
  import opened Kube
  import opened ProvisionConsistency
  import opened ProvisionLifecycle
  import opened ProvisionModel
  import opened ProvisionTheorems
  import opened Records
  import opened Text

  // ----- the listing -----

  /** Entry `j` is the first one the listing has for the address. */
  predicate FirstEntry(nodes: seq<NodeInfo>, addr: string, j: nat)
  {
    j < |nodes| && nodes[j].internalIP == addr && forall i :: 0 <= i < j ==> nodes[i].internalIP != addr
  }

  lemma {:induction false} FirstNameIff(nodes: seq<NodeInfo>, addr: string)
    ensures forall j: nat :: FirstEntry(nodes, addr, j) ==> FirstName(nodes, addr) == nodes[j].name
    ensures FirstName(nodes, addr) != "" ==> exists j: nat :: FirstEntry(nodes, addr, j) && nodes[j].name == FirstName(nodes, addr)
  {
    if nodes != [] {
      var rest := nodes[1..];
      if nodes[0].internalIP == addr {
        assert FirstEntry(nodes, addr, 0);
        assert forall j: nat :: FirstEntry(nodes, addr, j) ==> j == 0;
      } else {
        FirstNameIff(rest, addr);
        forall j: nat ensures FirstEntry(rest, addr, j) <==> FirstEntry(nodes, addr, j + 1) {
          if FirstEntry(rest, addr, j) {
            forall i | 0 <= i < j + 1 ensures nodes[i].internalIP != addr { if i > 0 { assert nodes[i] == rest[i - 1]; } }
          }
          if FirstEntry(nodes, addr, j + 1) {
            forall i | 0 <= i < j ensures rest[i].internalIP != addr { assert rest[i] == nodes[i + 1]; }
          }
        }
        forall j: nat | FirstEntry(nodes, addr, j) ensures j > 0 && FirstEntry(rest, addr, j - 1) { assert j == (j - 1) + 1; }
        if FirstName(rest, addr) != "" {
          var j: nat :| FirstEntry(rest, addr, j) && rest[j].name == FirstName(rest, addr);
          assert FirstEntry(nodes, addr, j + 1) && nodes[j + 1].name == FirstName(nodes, addr);
        }
      }
    }
  }

  /** A ready node of the pool's role is listed at the address, and nobody had the address when the pass began. */
  ghost predicate NodeFor(nodes: seq<NodeInfo>, role: Role, taken: set<string>, ip: string)
  {
    && ip != "" && ip !in taken
    && exists k: nat :: k < |nodes| && nodes[k].internalIP == ip && nodes[k].ready && Fits(nodes[k].role, role)
  }

  predicate Fits(listed: string, role: Role)
  {
    match role
    case ControlPlane => listed == "controlplane"
    case Worker => listed == "worker"
    case RoleUnspecified => false
  }

  // ----- hosts in flight -----

  /** A host becomes Ready at the address of a node that joined, and gets its Machine next. */
  ghost predicate BindAt(env: Env, listed: map<string, Host>, taken: set<string>, es: seq<Effect>, i: nat)
    requires i < |es| && es[i].PutHost?
  {
    var h := es[i].host;
    && h.mac in listed && listed[h.mac].pool == env.pool && listed[h.mac].state == Provisioning && NodeFor(env.nodes, env.role, taken, h.addr)
    && h == listed[h.mac].(addr := h.addr, state := HostReady, message := "")
    && i + 1 < |es| && es[i + 1] == PutMachine(Machine(h.cluster, env.pool, h.addr, env.role, None, 0))
  }

  predicate Overdue(h: Host, now: int, timeout: int)
  {
    h.state == Provisioning && h.provisioningStartedAt.Some? && h.provisioningStartedAt.value + timeout < now
  }

  /** A host is failed for being late, and for nothing else. */
  ghost predicate FailAt(env: Env, listed: map<string, Host>, h: Host)
  {
    && h.mac in listed && listed[h.mac].pool == env.pool && Overdue(listed[h.mac], env.now, env.timeout)
    && h == listed[h.mac].(state := HostFailed, message := "provision timed out: node did not join")
  }

  ghost predicate Advances(env: Env, listed: map<string, Host>, taken: set<string>, es: seq<Effect>)
  {
    forall i :: 0 <= i < |es| ==>
      && (es[i].PutHost? || es[i].PutMachine? || es[i].PutPool?)
      && (es[i].PutHost? ==> BindAt(env, listed, taken, es, i) || FailAt(env, listed, es[i].host))
  }

  lemma AdvancesConcat(env: Env, listed: map<string, Host>, taken: set<string>, s: seq<Effect>, t: seq<Effect>)
    requires Advances(env, listed, taken, s) && Advances(env, listed, taken, t)
    ensures Advances(env, listed, taken, s + t)
  {
    var es := s + t;
    forall i | 0 <= i < |es|
      ensures es[i].PutHost? || es[i].PutMachine? || es[i].PutPool?
      ensures es[i].PutHost? ==> BindAt(env, listed, taken, es, i) || FailAt(env, listed, es[i].host)
    {
      if i < |s| {
        assert es[i] == s[i] && (i + 1 < |s| ==> es[i + 1] == s[i + 1]);
      } else {
        assert es[i] == t[i - |s|] && (i + 1 < |es| ==> es[i + 1] == t[i + 1 - |s|]);
      }
    }
  }

  lemma BindAdvances(v: Inventory, env: Env, listed: map<string, Host>, taken: set<string>, claimed: set<string>, mac: string, node: NodeInfo)
    requires mac in v.hosts && mac in listed && v.hosts[mac] == listed[mac]
    requires listed[mac].mac == mac && listed[mac].state == Provisioning && listed[mac].pool == env.pool
    requires env.pool in v.pools && v.machines.Keys <= claimed && taken <= claimed && node in env.nodes && Joins(node, claimed, env.role)
    ensures Advances(env, listed, taken, BindEffects(v, env.pool, mac, node, env.role))
  {
    var k :| 0 <= k < |env.nodes| && env.nodes[k] == node;
    assert NodeFor(env.nodes, env.role, taken, node.internalIP);
  }

  lemma BindLeaves(v: Inventory, pool: string, mac: string, node: NodeInfo, role: Role, claimed: set<string>)
    requires Keyed(v) && mac in v.hosts && pool in v.pools && v.machines.Keys <= claimed && node.internalIP !in v.machines
    ensures var u := AppliedAll(v, BindEffects(v, pool, mac, node, role));
            && Keyed(u) && pool in u.pools && u.machines.Keys <= claimed + {node.internalIP}
            && forall k :: k in v.hosts && k != mac ==> u.hosts[k] == v.hosts[k]
  {
    BindResult(v, pool, mac, node, role);
    AppliedKeyed(v, BindEffects(v, pool, mac, node, role));
  }

  /** The hosts still to look at are as they were listed. */
  ghost predicate Untouched(v: Inventory, pool: string, listed: map<string, Host>, keys: seq<string>)
  {
    && Ascending(keys)
    && forall k :: k in keys ==> k in listed && k in v.hosts && v.hosts[k] == listed[k] && listed[k].mac == k && listed[k].pool == pool
  }

  lemma UntouchedNext(v: Inventory, u: Inventory, pool: string, listed: map<string, Host>, keys: seq<string>)
    requires keys != [] && Untouched(v, pool, listed, keys) && forall k :: k in v.hosts && k != keys[0] ==> k in u.hosts && u.hosts[k] == v.hosts[k]
    ensures Untouched(u, pool, listed, keys[1..])
  {
    forall k | k in keys[1..] ensures k in keys && k != keys[0] { AscendingTail(keys, k); }
  }

  lemma {:induction false} AdvanceMeans(v: Inventory, env: Env, listed: map<string, Host>, keys: seq<string>, claimed: set<string>, taken: set<string>)
    requires Keyed(v) && env.pool in v.pools && Untouched(v, env.pool, listed, keys) && v.machines.Keys <= claimed && taken <= claimed
    ensures Advances(env, listed, taken, Advance(v, env, listed, keys, claimed).effects)
    decreases |keys|
  {
    if keys != [] {
      var k, joined := keys[0], NewJoined(env.nodes, claimed, env.role);
      UntouchedNext(v, v, env.pool, listed, keys);
      if listed[k].state != Provisioning {
        AdvanceMeans(v, env, listed, keys[1..], claimed, taken);
      } else {
        AdvanceFirst(v, env, listed, keys, claimed);
        if joined.Some? {
          var es, claimed' := BindEffects(v, env.pool, k, joined.value, env.role), claimed + {joined.value.internalIP};
          var u := AppliedAll(v, es);
          BindAdvances(v, env, listed, taken, claimed, k, joined.value);
          BindLeaves(v, env.pool, k, joined.value, env.role, claimed);
          UntouchedNext(v, u, env.pool, listed, keys);
          AdvanceMeans(u, env, listed, keys[1..], claimed', taken);
          AdvancesConcat(env, listed, taken, es, Advance(u, env, listed, keys[1..], claimed').effects);
        } else if TimedOut(listed[k], env.now, env.timeout) {
          OverdueMeans(v, env, listed, keys, claimed, taken);
        } else {
          AdvanceMeans(v, env, listed, keys[1..], claimed, taken);
        }
      }
    }
  }

  lemma OverdueMeans(v: Inventory, env: Env, listed: map<string, Host>, keys: seq<string>, claimed: set<string>, taken: set<string>)
    requires Keyed(v) && env.pool in v.pools && Untouched(v, env.pool, listed, keys) && v.machines.Keys <= claimed && taken <= claimed
    requires keys != [] && listed[keys[0]].state == Provisioning && NewJoined(env.nodes, claimed, env.role).None?
    requires TimedOut(listed[keys[0]], env.now, env.timeout)
    ensures Advances(env, listed, taken, Advance(v, env, listed, keys, claimed).effects)
    decreases |keys|, 0
  {
    var k := keys[0];
    var es := [PutHost(FailedHost(v.hosts[k]))];
    var u := AppliedAll(v, es);
    FailLeaves(v, k);
    AppliedKeyed(v, es);
    UntouchedNext(v, u, env.pool, listed, keys);
    AdvanceFirst(v, env, listed, keys, claimed);
    AdvanceMeans(u, env, listed, keys[1..], claimed, taken);
    assert FailAt(env, listed, es[0].host);
    AdvancesConcat(env, listed, taken, es, Advance(u, env, listed, keys[1..], claimed).effects);
  }

  lemma FailLeaves(v: Inventory, k: string)
    requires k in v.hosts && v.hosts[k].mac == k
    ensures AppliedAll(v, [PutHost(FailedHost(v.hosts[k]))]) == v.(hosts := v.hosts[k := FailedHost(v.hosts[k])])
  {
    var e := PutHost(FailedHost(v.hosts[k]));
    assert [e] == [e] + [];
    AppliedCons(v, e, []);
  }

  // ----- the pass -----

  /** Addresses somebody had when the pass began. */
  ghost function Taken0(v: Inventory, pool: string): set<string>
  {
    v.machines.Keys + (set k | k in v.hosts && v.hosts[k].pool == pool && v.hosts[k].addr != "" :: v.hosts[k].addr)
  }

  /** A pass has no effect unless provisioning is on, the pool exists and wants replicas, and nodes could be listed. */
  lemma PassNeeds(v: Inventory, n: PassInput)
    ensures PassEffects(v, n) != [] ==>
              && n.cl.Some? && n.cl.value.provisioningEnabled && n.nodes.Some?
              && n.pool in v.pools && v.pools[n.pool].replicas > 0
  {
  }

  /** The two parts of a pass that has any effect: what becomes of hosts in flight, and then one change of size. */
  lemma PassParts(v: Inventory, n: PassInput) returns (pre: seq<Effect>, w: Inventory, keys: seq<string>, p: Progress)
    requires Keyed(v) && Engaged(v, n)
    ensures keys == PoolKeys(v, n.pool) && w == AppliedAll(v, pre) && n.pool in w.pools && Keyed(w) && (forall k :: k in keys ==> k in w.hosts)
    ensures PassEffects(v, n) == pre + Settle(w, EnvOf(v, n), v.pools[n.pool], StageVersion(v.pools[n.pool], n.cl.value), v.hosts, keys, p)
    ensures Advances(EnvOf(v, n), v.hosts, Taken0(v, n.pool), pre)
    ensures p == Advance(v, EnvOf(v, n), v.hosts, keys, ClaimedAddrs(v, keys)) && pre == p.effects
    ensures forall k :: k in v.hosts && v.hosts[k].state != Provisioning ==> k in w.hosts && w.hosts[k] == v.hosts[k]
  {
    var env := EnvOf(v, n);
    keys := PoolKeys(v, n.pool);
    var claimed := ClaimedAddrs(v, keys);
    p := Advance(v, env, v.hosts, keys, claimed);
    pre := p.effects;
    w := AppliedAll(v, pre);
    AppliedKeyed(v, pre);
    assert Taken0(v, n.pool) <= claimed;
    AdvanceMeans(v, env, v.hosts, keys, claimed, Taken0(v, n.pool));
    forall k | k in v.hosts && v.hosts[k].state != Provisioning ensures k in w.hosts && w.hosts[k] == v.hosts[k] { HostKept(v, pre, k); }
  }

  lemma {:induction false} HostKept(v: Inventory, es: seq<Effect>, mac: string)
    requires mac in v.hosts && forall i :: 0 <= i < |es| && es[i].PutHost? ==> es[i].host.mac != mac
    ensures AppliedAll(v, es).hosts[mac] == v.hosts[mac]
    decreases |es|
  {
    if es != [] { HostKept(Applied(v, es[0]), es[1..], mac); }
  }

  /** The host goes back to Registered with no address; nothing else about it changes. */
  predicate IsRelease(b: Host, a: Host)
  {
    b.state == HostReady && a == b.(state := Registered, addr := "", message := "released (scale-in)")
  }

  /** The host is in flight from now on; nothing else about it changes. */
  predicate IsStart(b: Host, a: Host, now: int)
  {
    b.state == Registered && a == b.(state := Provisioning, message := "staged; awaiting boot + join", provisioningStartedAt := Some(now))
  }

  /** Every label the selector asks for, as asked; a label asked for as "" may be missing. */
  predicate Selected(labels: map<string, string>, selector: map<string, string>)
  {
    forall k :: k in selector ==> (k in labels && labels[k] == selector[k]) || (k !in labels && selector[k] == "")
  }

  /** The pool as it was, but for one address that is no longer a member. */
  ghost predicate Dropped(b: NodePool, a: NodePool, addr: string)
  {
    a == b.(members := a.members) && forall x :: x in a.members <==> x in b.members && x != addr
  }

  /** A scale-in from effect `j` on, `w` being the records when it begins: drain the listed node at the host's address if it has a name, then take the host away. */
  ghost predicate TakesAway(v: Inventory, w: Inventory, nodes: seq<NodeInfo>, pool: string, es: seq<Effect>, j: nat, mac: string)
  {
    && InPool(v, pool, mac) && v.hosts[mac].state == HostReady
    && (forall k :: InPool(v, pool, k) && v.hosts[k].state == HostReady ==> k == mac || Less(mac, k))
    && var addr := v.hosts[mac].addr;
    && j < |es| && es[j] == UnstageBoot(mac)
    && (forall i: nat :: FirstEntry(nodes, addr, i) && nodes[i].name != "" ==> j > 0 && es[j - 1] == DrainNode(nodes[i].name))
    && (addr != "" ==>
          && |es| == j + 4 && es[j + 1] == DropMachine(addr)
          && es[j + 2].PutPool? && pool in w.pools && Dropped(w.pools[pool], es[j + 2].pool, addr))
    && (addr == "" ==> |es| == j + 2)
    && es[|es| - 1].PutHost? && es[|es| - 1].host.mac == mac && IsRelease(v.hosts[mac], es[|es| - 1].host)
  }

  ghost predicate TakenAwayAt(v: Inventory, nodes: seq<NodeInfo>, pool: string, es: seq<Effect>, j: nat, mac: string)
  {
    j < |es| && TakesAway(v, AppliedAll(v, es[..j]), nodes, pool, es, j, mac)
  }

  /** The Talos version to install: the pool's own, else the cluster's. */
  predicate VersionFor(np: NodePool, cl: Cluster, version: string)
  {
    && version != ""
    && if np.desired.Some? && np.desired.value != "" then np.desired == Some(version)
       else cl.desired.Some? && cl.desired.value.talosVersion == version
  }

  /** A scale-out: the lowest free host the selector picks is staged, with a version, and then recorded in flight. */
  ghost predicate StagesOne(v: Inventory, np: NodePool, cl: Cluster, now: int, es: seq<Effect>, j: nat, mac: string)
  {
    && InPool(v, np.name, mac) && v.hosts[mac].state == Registered && Selected(v.hosts[mac].labels, np.selector)
    && (forall k :: InPool(v, np.name, k) && v.hosts[k].state == Registered && Selected(v.hosts[k].labels, np.selector) ==> k == mac || Less(mac, k))
    && |es| == j + 2 && es[j].StageBoot? && es[j].mac == mac && VersionFor(np, cl, es[j].version)
    && es[j + 1].PutHost? && es[j + 1].host.mac == mac && IsStart(v.hosts[mac], es[j + 1].host, now)
  }

  lemma {:induction false} PickIsLowest(listed: map<string, Host>, keys: seq<string>, selector: map<string, string>)
    requires Ascending(keys) && forall k :: k in keys ==> k in listed
    ensures var r := PickAvailable(listed, keys, selector);
            r.Some? ==>
              && Selected(listed[r.value].labels, selector)
              && forall k :: k in keys && listed[k].state == Registered && Selected(listed[k].labels, selector) ==> k == r.value || Less(r.value, k)
  {
    if keys != [] {
      forall k | k in keys ensures k == keys[0] || (Less(keys[0], k) && k in keys[1..]) {
        AscendingHead(keys, k);
        AscendingTail(keys, k);
      }
      PickIsLowest(listed, keys[1..], selector);
    }
  }

  lemma VictimIsLowest(listed: map<string, Host>, keys: seq<string>, mac: string)
    requires Ascending(keys) && (forall k :: k in keys ==> k in listed) && Victim(listed, keys) == Some(mac)
    ensures forall k :: k in keys && listed[k].state == HostReady ==> k == mac || Less(mac, k)
  {
    VictimIff(listed, keys, mac);
    forall k | k in keys && listed[k].state == HostReady ensures k == mac || Less(mac, k) { LessTotal(mac, k); }
  }

  lemma ScaleInMeans(v: Inventory, w: Inventory, env: Env, keys: seq<string>, pre: seq<Effect>, mac: string) returns (j: nat)
    requires Keyed(v) && env.pool in w.pools && keys == PoolKeys(v, env.pool) && (forall k :: k in keys ==> k in w.hosts)
    requires Victim(v.hosts, keys) == Some(mac) && w.hosts[mac] == v.hosts[mac]
    ensures var es := pre + ScaleInEffects(w, env, v.hosts, keys);
            |pre| <= j <= |pre| + 1 && TakesAway(v, w, env.nodes, env.pool, es, j, mac) && OnlyDrain(v, env.nodes, es, |pre|, j, mac)
  {
    var addr, np := v.hosts[mac].addr, w.pools[env.pool];
    var np' := np.(members := Without(np.members, addr));
    VictimIsLowest(v.hosts, keys, mac);
    forall x ensures x in np'.members <==> x in np.members && x != addr { WithoutMembers(np.members, addr); }
    j := TakesAwayFrom(v, w, env.nodes, env.pool, pre, FirstName(env.nodes, addr), mac, np', Released(w.hosts[mac]),
                       ScaleInEffects(w, env, v.hosts, keys));
  }

  lemma TakesAwayFrom(v: Inventory, w: Inventory, nodes: seq<NodeInfo>, pool: string, pre: seq<Effect>, name: string, mac: string,
                      np': NodePool, h': Host, si: seq<Effect>) returns (j: nat)
    requires InPool(v, pool, mac) && v.hosts[mac].state == HostReady && pool in w.pools && h'.mac == mac && IsRelease(v.hosts[mac], h')
    requires forall k :: InPool(v, pool, k) && v.hosts[k].state == HostReady ==> k == mac || Less(mac, k)
    requires Dropped(w.pools[pool], np', v.hosts[mac].addr) && name == FirstName(nodes, v.hosts[mac].addr)
    requires var drain, forget := if name != "" then [DrainNode(name)] else [],
                                  if v.hosts[mac].addr == "" then [] else [DropMachine(v.hosts[mac].addr), PutPool(np')];
             si == drain + ([UnstageBoot(mac)] + (forget + [PutHost(h')]))
    ensures |pre| <= j <= |pre| + 1 && TakesAway(v, w, nodes, pool, pre + si, j, mac) && OnlyDrain(v, nodes, pre + si, |pre|, j, mac)
  {
    FirstNameIff(nodes, v.hosts[mac].addr);
    j := if name != "" then |pre| + 1 else |pre|;
    var es := pre + si;
    assert forall i :: 0 <= i < |si| ==> es[|pre| + i] == si[i];
  }

  lemma StageMeans(v: Inventory, w: Inventory, np: NodePool, cl: Cluster, keys: seq<string>, pre: seq<Effect>, mac: string, now: int)
    requires Keyed(v) && keys == PoolKeys(v, np.name) && PickAvailable(v.hosts, keys, np.selector) == Some(mac)
    requires mac in w.hosts && w.hosts[mac] == v.hosts[mac] && StageVersion(np, cl) != ""
    ensures StagesOne(v, np, cl, now, pre + StageEffects(w, mac, StageVersion(np, cl), now), |pre|, mac)
  {
    PickIsLowest(v.hosts, keys, np.selector);
  }

  /** The whole pass: hosts in flight first, and then one host taken away, one staged, or nothing. */
  ghost predicate Means(v: Inventory, n: PassInput, es: seq<Effect>, pre: seq<Effect>)
    requires Engaged(v, n)
  {
    && pre <= es && Advances(EnvOf(v, n), v.hosts, Taken0(v, n.pool), pre)
    && (|| es == pre
        || (exists j: nat, mac :: |pre| <= j <= |pre| + 1 && TakenAwayAt(v, n.nodes.value, n.pool, es, j, mac) && OnlyDrain(v, n.nodes.value, es, |pre|, j, mac))
        || (exists mac :: StagesOne(v, v.pools[n.pool], n.cl.value, n.now, es, |pre|, mac)))
  }

  /** Nothing comes between hosts in flight and the unstaging but the drain of the host's own node. */
  ghost predicate OnlyDrain(v: Inventory, nodes: seq<NodeInfo>, es: seq<Effect>, from: nat, j: nat, mac: string)
  {
    from < j ==>
      && j == from + 1 && from < |es| && es[from].DrainNode? && mac in v.hosts
      && exists i: nat :: FirstEntry(nodes, v.hosts[mac].addr, i) && nodes[i].name == es[from].name != ""
  }

  /** Draining changes no record. */
  lemma DrainOnly(v: Inventory, w: Inventory, nodes: seq<NodeInfo>, pool: string, pre: seq<Effect>, si: seq<Effect>, j: nat, mac: string)
    requires w == AppliedAll(v, pre) && |pre| <= j <= |pre| + 1 && TakesAway(v, w, nodes, pool, pre + si, j, mac)
    requires OnlyDrain(v, nodes, pre + si, |pre|, j, mac)
    ensures TakenAwayAt(v, nodes, pool, pre + si, j, mac)
  {
    if j == |pre| {
      assert (pre + si)[..j] == pre;
    } else {
      var e := si[0];
      assert (pre + si)[..j] == pre + [e] && (pre + si)[|pre|] == e;
      AppliedConcat(v, pre, [e]);
      assert [e] == [e] + [];
      AppliedCons(w, e, []);
    }
  }

  lemma PassMeans(v: Inventory, n: PassInput) returns (pre: seq<Effect>)
    requires Keyed(v) && Engaged(v, n)
    ensures Means(v, n, PassEffects(v, n), pre)
  {
    var w, keys, p;
    pre, w, keys, p := PassParts(v, n);
    SettleMeans(v, w, n, keys, pre, p);
  }

  lemma SettleMeans(v: Inventory, w: Inventory, n: PassInput, keys: seq<string>, pre: seq<Effect>, p: Progress)
    requires Keyed(v) && Engaged(v, n) && keys == PoolKeys(v, n.pool) && n.pool in w.pools && (forall k :: k in keys ==> k in w.hosts)
    requires forall k :: k in v.hosts && v.hosts[k].state != Provisioning ==> k in w.hosts && w.hosts[k] == v.hosts[k]
    requires Advances(EnvOf(v, n), v.hosts, Taken0(v, n.pool), pre) && w == AppliedAll(v, pre)
    ensures var np := v.pools[n.pool];
            Means(v, n, pre + Settle(w, EnvOf(v, n), np, StageVersion(np, n.cl.value), v.hosts, keys, p), pre)
  {
    var np, env := v.pools[n.pool], EnvOf(v, n);
    var si := Settle(w, env, np, StageVersion(np, n.cl.value), v.hosts, keys, p);
    if si == [] {
      assert pre + si == pre;
    } else if p.ready > np.replicas {
      var mac := Victim(v.hosts, keys).value;
      var j := ScaleInMeans(v, w, env, keys, pre, mac);
      DrainOnly(v, w, env.nodes, n.pool, pre, si, j, mac);
      assert TakenAwayAt(v, n.nodes.value, n.pool, pre + si, j, mac) && OnlyDrain(v, n.nodes.value, pre + si, |pre|, j, mac);
    } else {
      var mac := PickAvailable(v.hosts, keys, np.selector).value;
      StageMeans(v, w, np, n.cl.value, keys, pre, mac, n.now);
      assert StagesOne(v, np, n.cl.value, n.now, pre + si, |pre|, mac);
    }
  }

  // ----- effect by effect -----

  /** The pass drains, at effect `i`, the listed node of the host it takes away next. */
  ghost predicate DrainsVictim(v: Inventory, nodes: seq<NodeInfo>, pool: string, es: seq<Effect>, i: nat, mac: string, k: nat)
  {
    && TakenAwayAt(v, nodes, pool, es, i + 1, mac) && mac in v.hosts && i < |es| && es[i].DrainNode?
    && FirstEntry(nodes, v.hosts[mac].addr, k) && nodes[k].name == es[i].name != ""
  }

  /** What an effect after the hosts in flight is. */
  ghost predicate Later(v: Inventory, n: PassInput, es: seq<Effect>, i: nat)
    requires n.nodes.Some? && n.cl.Some? && n.pool in v.pools && i < |es|
  {
    match es[i]
    case DrainNode(_) => exists mac, k: nat :: DrainsVictim(v, n.nodes.value, n.pool, es, i, mac, k)
    case UnstageBoot(mac) => TakenAwayAt(v, n.nodes.value, n.pool, es, i, mac)
    case StageBoot(mac, _) => StagesOne(v, v.pools[n.pool], n.cl.value, n.now, es, i, mac)
    case PutHost(h) =>
      && h.mac in v.hosts && v.hosts[h.mac].pool == n.pool
      && (|| (i == |es| - 1 && IsRelease(v.hosts[h.mac], h))
          || (i > 0 && es[i - 1].StageBoot? && es[i - 1].mac == h.mac && IsStart(v.hosts[h.mac], h, n.now)))
    case _ => true
  }

  lemma LaterWhenTaken(v: Inventory, n: PassInput, es: seq<Effect>, from: nat, j: nat, mac: string, i: nat)
    requires n.nodes.Some? && n.cl.Some? && n.pool in v.pools && from <= i < |es| && from <= j <= from + 1
    requires TakenAwayAt(v, n.nodes.value, n.pool, es, j, mac) && OnlyDrain(v, n.nodes.value, es, from, j, mac)
    ensures Later(v, n, es, i)
  {
    if i < j {
      var nodes := n.nodes.value;
      var k: nat :| FirstEntry(nodes, v.hosts[mac].addr, k) && nodes[k].name == es[from].name != "";
      assert DrainsVictim(v, nodes, n.pool, es, i, mac, k);
    }
  }

  lemma LaterWhenStaged(v: Inventory, n: PassInput, es: seq<Effect>, from: nat, mac: string, i: nat)
    requires n.nodes.Some? && n.cl.Some? && n.pool in v.pools && v.pools[n.pool].name == n.pool && from <= i < |es|
    requires StagesOne(v, v.pools[n.pool], n.cl.value, n.now, es, from, mac)
    ensures Later(v, n, es, i)
  {
  }

  lemma LaterEffect(v: Inventory, n: PassInput, es: seq<Effect>, pre: seq<Effect>, i: nat)
    requires Keyed(v) && Engaged(v, n) && Means(v, n, es, pre) && |pre| <= i < |es|
    ensures Later(v, n, es, i)
  {
    if mac :| StagesOne(v, v.pools[n.pool], n.cl.value, n.now, es, |pre|, mac) {
      LaterWhenStaged(v, n, es, |pre|, mac, i);
    } else {
      var j: nat, mac :| |pre| <= j <= |pre| + 1 && TakenAwayAt(v, n.nodes.value, n.pool, es, j, mac) && OnlyDrain(v, n.nodes.value, es, |pre|, j, mac);
      LaterWhenTaken(v, n, es, |pre|, j, mac, i);
    }
  }

  lemma EarlierEffect(v: Inventory, n: PassInput, es: seq<Effect>, pre: seq<Effect>, i: nat)
    requires Engaged(v, n) && Means(v, n, es, pre) && i < |pre|
    ensures es[i].PutHost? || es[i].PutMachine? || es[i].PutPool?
    ensures es[i].PutHost? ==> BindAt(EnvOf(v, n), v.hosts, Taken0(v, n.pool), es, i) || FailAt(EnvOf(v, n), v.hosts, es[i].host)
  {
    assert es[i] == pre[i] && (i + 1 < |pre| ==> es[i + 1] == pre[i + 1]);
  }

  /**
   * A pass drains nothing but the node listed at the address of the host it is about to take away: the Ready host of the
   * pool with the lowest MAC, which the very next effect unstages and the last one releases.
   */
  lemma DrainIsVictims(v: Inventory, n: PassInput, es: seq<Effect>, i: nat)
    requires Keyed(v) && es == PassEffects(v, n) && i < |es| && es[i].DrainNode?
    ensures n.nodes.Some? && exists mac, k: nat :: DrainsVictim(v, n.nodes.value, n.pool, es, i, mac, k)
  {
    var pre := PassMeans(v, n);
    if i < |pre| { EarlierEffect(v, n, es, pre, i); }
    LaterEffect(v, n, es, pre, i);
  }

  /** Whatever is unstaged is taken away whole, and its listed node, if it has a name, was drained just before. */
  lemma UnstagedIsTakenAway(v: Inventory, n: PassInput, es: seq<Effect>, i: nat)
    requires Keyed(v) && es == PassEffects(v, n) && i < |es| && es[i].UnstageBoot?
    ensures n.nodes.Some? && TakenAwayAt(v, n.nodes.value, n.pool, es, i, es[i].mac)
  {
    var pre := PassMeans(v, n);
    if i < |pre| { EarlierEffect(v, n, es, pre, i); }
    LaterEffect(v, n, es, pre, i);
  }

  /** Whatever is staged is the lowest free host the selector picks; its start is recorded next, at the pass's own time. */
  lemma StagedIsPicked(v: Inventory, n: PassInput, es: seq<Effect>, i: nat)
    requires Keyed(v) && es == PassEffects(v, n) && i < |es| && es[i].StageBoot?
    ensures n.pool in v.pools && n.cl.Some? && StagesOne(v, v.pools[n.pool], n.cl.value, n.now, es, i, es[i].mac)
  {
    var pre := PassMeans(v, n);
    if i < |pre| { EarlierEffect(v, n, es, pre, i); }
    LaterEffect(v, n, es, pre, i);
  }

  /**
   * Every host write of a pass, told by the state it writes: Ready at the free address of a listed, ready node of the
   * pool's role, with the Machine next; Failed because it is overdue; released last of all; or started right after
   * its staging.
   */
  lemma HostWrites(v: Inventory, n: PassInput, es: seq<Effect>, i: nat)
    requires Keyed(v) && es == PassEffects(v, n) && i < |es| && es[i].PutHost?
    ensures Engaged(v, n)
    ensures var h := es[i].host;
            && h.mac in v.hosts && v.hosts[h.mac].pool == n.pool
            && match h.state
               case HostReady => BindAt(EnvOf(v, n), v.hosts, Taken0(v, n.pool), es, i)
               case HostFailed => FailAt(EnvOf(v, n), v.hosts, h)
               case Registered => i == |es| - 1 && IsRelease(v.hosts[h.mac], h)
               case Provisioning => i > 0 && es[i - 1].StageBoot? && es[i - 1].mac == h.mac && IsStart(v.hosts[h.mac], h, n.now)
               case _ => false
  {
    var pre := PassMeans(v, n);
    if i < |pre| { EarlierEffect(v, n, es, pre, i); } else { LaterEffect(v, n, es, pre, i); }
  }

  // ----- nobody overdue is left waiting -----

  /** Among these hosts, those still in flight are not overdue. */
  ghost predicate NoneLate(w: Inventory, listed: map<string, Host>, keys: seq<string>, now: int, timeout: int)
  {
    forall k :: k in keys && k in listed && k in w.hosts && w.hosts[k].state == Provisioning ==> !Overdue(listed[k], now, timeout)
  }

  lemma {:induction false} AdvanceLeavesNoneLate(v: Inventory, env: Env, listed: map<string, Host>, keys: seq<string>, claimed: set<string>)
    requires Keyed(v) && env.pool in v.pools && Untouched(v, env.pool, listed, keys) && v.machines.Keys <= claimed
    ensures NoneLate(AppliedAll(v, Advance(v, env, listed, keys, claimed).effects), listed, keys, env.now, env.timeout)
    decreases |keys|
  {
    if keys != [] {
      var k, joined := keys[0], NewJoined(env.nodes, claimed, env.role);
      UntouchedNext(v, v, env.pool, listed, keys);
      if listed[k].state != Provisioning {
        AdvanceLeavesNoneLate(v, env, listed, keys[1..], claimed);
        NoneLateCons(AppliedAll(v, Advance(v, env, listed, keys, claimed).effects), listed, keys, env.now, env.timeout);
      } else if joined.Some? {
        JoinedLeavesNoneLate(v, env, listed, keys, claimed);
      } else if TimedOut(listed[k], env.now, env.timeout) {
        FailedLeavesNoneLate(v, env, listed, keys, claimed);
      } else {
        AdvanceLeavesNoneLate(v, env, listed, keys[1..], claimed);
        NoneLateCons(AppliedAll(v, Advance(v, env, listed, keys, claimed).effects), listed, keys, env.now, env.timeout);
      }
    }
  }

  lemma NoneLateCons(w: Inventory, listed: map<string, Host>, keys: seq<string>, now: int, timeout: int)
    requires keys != [] && keys[0] in listed && NoneLate(w, listed, keys[1..], now, timeout)
    requires (keys[0] in w.hosts && w.hosts[keys[0]].state == Provisioning) ==> !Overdue(listed[keys[0]], now, timeout)
    ensures NoneLate(w, listed, keys, now, timeout)
  {
    assert forall k :: k in keys ==> k == keys[0] || k in keys[1..];
  }

  /** What is done about the later hosts does not touch the first. */
  lemma FirstIsDone(u: Inventory, env: Env, listed: map<string, Host>, keys: seq<string>, claimed: set<string>)
    requires Keyed(u) && env.pool in u.pools && keys != [] && Ascending(keys) && keys[0] in u.hosts
    requires Untouched(u, env.pool, listed, keys[1..]) && u.machines.Keys <= claimed
    ensures AppliedAll(u, Advance(u, env, listed, keys[1..], claimed).effects).hosts[keys[0]] == u.hosts[keys[0]]
  {
    var es := Advance(u, env, listed, keys[1..], claimed).effects;
    AdvanceAbout(u, env, listed, keys[1..], claimed);
    AscendingTail(keys, keys[0]);
    assert forall i :: 0 <= i < |es| && es[i].PutHost? ==> es[i].host.mac != keys[0];
    HostKept(u, es, keys[0]);
  }

  /** Hosts written are among these. */
  ghost predicate Among(es: seq<Effect>, keys: seq<string>)
  {
    forall i :: 0 <= i < |es| && es[i].PutHost? ==> es[i].host.mac in keys
  }

  lemma AmongMore(s: seq<Effect>, t: seq<Effect>, keys: seq<string>)
    requires keys != [] && Among(t, keys[1..]) && forall i :: 0 <= i < |s| && s[i].PutHost? ==> s[i].host.mac == keys[0]
    ensures Among(s + t, keys)
  {
    forall i | 0 <= i < |s + t| && (s + t)[i].PutHost? ensures (s + t)[i].host.mac in keys {
      if i >= |s| { assert (s + t)[i] == t[i - |s|] && t[i - |s|].host.mac in keys[1..]; }
    }
  }

  lemma AdvanceSkips(v: Inventory, env: Env, listed: map<string, Host>, keys: seq<string>, claimed: set<string>)
    requires env.pool in v.pools && (forall k :: k in keys ==> k in listed && k in v.hosts) && keys != []
    requires listed[keys[0]].state != Provisioning ||
             (NewJoined(env.nodes, claimed, env.role).None? && !TimedOut(listed[keys[0]], env.now, env.timeout))
    ensures Advance(v, env, listed, keys, claimed).effects == [] + Advance(v, env, listed, keys[1..], claimed).effects
  {
  }

  /** Only the hosts it goes through are written. */
  lemma {:induction false} AdvanceAbout(v: Inventory, env: Env, listed: map<string, Host>, keys: seq<string>, claimed: set<string>)
    requires Keyed(v) && env.pool in v.pools && Untouched(v, env.pool, listed, keys) && v.machines.Keys <= claimed
    ensures Among(Advance(v, env, listed, keys, claimed).effects, keys)
    decreases |keys|
  {
    if keys != [] {
      var k, joined := keys[0], NewJoined(env.nodes, claimed, env.role);
      UntouchedNext(v, v, env.pool, listed, keys);
      if listed[k].state == Provisioning && joined.Some? {
        JoinedAbout(v, env, listed, keys, claimed);
      } else if listed[k].state == Provisioning && TimedOut(listed[k], env.now, env.timeout) {
        FailedAbout(v, env, listed, keys, claimed);
      } else {
        AdvanceAbout(v, env, listed, keys[1..], claimed);
        AdvanceSkips(v, env, listed, keys, claimed);
        AmongMore([], Advance(v, env, listed, keys[1..], claimed).effects, keys);
      }
    }
  }

  lemma JoinedAbout(v: Inventory, env: Env, listed: map<string, Host>, keys: seq<string>, claimed: set<string>)
    requires Keyed(v) && env.pool in v.pools && Untouched(v, env.pool, listed, keys) && v.machines.Keys <= claimed
    requires keys != [] && listed[keys[0]].state == Provisioning && NewJoined(env.nodes, claimed, env.role).Some?
    ensures Among(Advance(v, env, listed, keys, claimed).effects, keys)
    decreases |keys|, 0
  {
    var k, node := keys[0], NewJoined(env.nodes, claimed, env.role).value;
    var es, claimed' := BindEffects(v, env.pool, k, node, env.role), claimed + {node.internalIP};
    var u := AppliedAll(v, es);
    BindLeaves(v, env.pool, k, node, env.role, claimed);
    UntouchedNext(v, u, env.pool, listed, keys);
    AdvanceAbout(u, env, listed, keys[1..], claimed');
    AdvanceFirst(v, env, listed, keys, claimed);
    BindAbout(v, env.pool, k, node, env.role);
    AmongMore(es, Advance(u, env, listed, keys[1..], claimed').effects, keys);
  }

  lemma BindAbout(v: Inventory, pool: string, k: string, node: NodeInfo, role: Role)
    requires Keyed(v) && k in v.hosts && pool in v.pools
    ensures var es := BindEffects(v, pool, k, node, role); forall i :: 0 <= i < |es| && es[i].PutHost? ==> es[i].host.mac == k
  {
  }

  lemma FailedAbout(v: Inventory, env: Env, listed: map<string, Host>, keys: seq<string>, claimed: set<string>)
    requires Keyed(v) && env.pool in v.pools && Untouched(v, env.pool, listed, keys) && v.machines.Keys <= claimed
    requires keys != [] && listed[keys[0]].state == Provisioning && NewJoined(env.nodes, claimed, env.role).None?
    requires TimedOut(listed[keys[0]], env.now, env.timeout)
    ensures Among(Advance(v, env, listed, keys, claimed).effects, keys)
    decreases |keys|, 0
  {
    var es := [PutHost(FailedHost(v.hosts[keys[0]]))];
    var u := AppliedAll(v, es);
    FailLeaves(v, keys[0]);
    AppliedKeyed(v, es);
    UntouchedNext(v, u, env.pool, listed, keys);
    AdvanceAbout(u, env, listed, keys[1..], claimed);
    AdvanceFirst(v, env, listed, keys, claimed);
    AmongMore(es, Advance(u, env, listed, keys[1..], claimed).effects, keys);
  }

  lemma JoinedLeavesNoneLate(v: Inventory, env: Env, listed: map<string, Host>, keys: seq<string>, claimed: set<string>)
    requires Keyed(v) && env.pool in v.pools && Untouched(v, env.pool, listed, keys) && v.machines.Keys <= claimed
    requires keys != [] && listed[keys[0]].state == Provisioning && NewJoined(env.nodes, claimed, env.role).Some?
    ensures NoneLate(AppliedAll(v, Advance(v, env, listed, keys, claimed).effects), listed, keys, env.now, env.timeout)
    decreases |keys|, 0
  {
    var k, node := keys[0], NewJoined(env.nodes, claimed, env.role).value;
    var es, claimed' := BindEffects(v, env.pool, k, node, env.role), claimed + {node.internalIP};
    var u := AppliedAll(v, es);
    BindLeaves(v, env.pool, k, node, env.role, claimed);
    BindResult(v, env.pool, k, node, env.role);
    UntouchedNext(v, u, env.pool, listed, keys);
    AdvanceLeavesNoneLate(u, env, listed, keys[1..], claimed');
    FirstIsDone(u, env, listed, keys, claimed');
    AdvanceFirst(v, env, listed, keys, claimed);
    AppliedConcat(v, es, Advance(u, env, listed, keys[1..], claimed').effects);
    NoneLateCons(AppliedAll(v, Advance(v, env, listed, keys, claimed).effects), listed, keys, env.now, env.timeout);
  }

  lemma FailedLeavesNoneLate(v: Inventory, env: Env, listed: map<string, Host>, keys: seq<string>, claimed: set<string>)
    requires Keyed(v) && env.pool in v.pools && Untouched(v, env.pool, listed, keys) && v.machines.Keys <= claimed
    requires keys != [] && listed[keys[0]].state == Provisioning && NewJoined(env.nodes, claimed, env.role).None?
    requires TimedOut(listed[keys[0]], env.now, env.timeout)
    ensures NoneLate(AppliedAll(v, Advance(v, env, listed, keys, claimed).effects), listed, keys, env.now, env.timeout)
    decreases |keys|, 0
  {
    var k := keys[0];
    var es := [PutHost(FailedHost(v.hosts[k]))];
    var u := AppliedAll(v, es);
    FailLeaves(v, k);
    AppliedKeyed(v, es);
    UntouchedNext(v, u, env.pool, listed, keys);
    AdvanceLeavesNoneLate(u, env, listed, keys[1..], claimed);
    FirstIsDone(u, env, listed, keys, claimed);
    AdvanceFirst(v, env, listed, keys, claimed);
    AppliedConcat(v, es, Advance(u, env, listed, keys[1..], claimed).effects);
    NoneLateCons(AppliedAll(v, Advance(v, env, listed, keys, claimed).effects), listed, keys, env.now, env.timeout);
  }

  /** After a completed pass no host of the pool that was in flight and is overdue is still in flight. */
  lemma LateIsNotLeftWaiting(v: Inventory, n: PassInput, mac: string)
    requires Keyed(v) && Engaged(v, n) && InPool(v, n.pool, mac) && Overdue(v.hosts[mac], n.now, n.timeout)
    ensures mac in PassAll(v, n).hosts && PassAll(v, n).hosts[mac].state != Provisioning
  {
    var pre, w, keys, p := PassParts(v, n);
    var env, claimed := EnvOf(v, n), ClaimedAddrs(v, keys);
    AdvanceLeavesNoneLate(v, env, v.hosts, keys, claimed);
    assert mac in keys && pre == Advance(v, env, v.hosts, keys, claimed).effects;
    var si := Settle(w, env, v.pools[n.pool], StageVersion(v.pools[n.pool], n.cl.value), v.hosts, keys, p);
    SettleAbout(v, w, env, v.pools[n.pool], StageVersion(v.pools[n.pool], n.cl.value), keys, p, mac);
    AppliedConcat(v, pre, si);
    HostKept(w, si, mac);
  }

  lemma SettleAbout(v: Inventory, w: Inventory, env: Env, np: NodePool, version: string, keys: seq<string>, p: Progress, mac: string)
    requires env.pool in w.pools && (forall k :: k in keys ==> k in v.hosts && k in w.hosts && w.hosts[k].mac == k)
    requires mac in v.hosts && v.hosts[mac].state == Provisioning
    ensures var si := Settle(w, env, np, version, v.hosts, keys, p); forall i :: 0 <= i < |si| && si[i].PutHost? ==> si[i].host.mac != mac
  {
  }
}
