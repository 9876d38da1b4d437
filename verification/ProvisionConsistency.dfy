/** Completed passes keep hosts, machines and memberships in step; a cut scale-in is finished by the next pass. */
module ProvisionConsistency {
  import opened Basics
  import opened Kube
  import opened ProvisionLifecycle
  import opened ProvisionModel
  import opened ProvisionTheorems
  import opened Records
  import opened Text

  /** A Ready host has an address, a Machine at it, and its pool lists it as a member. */
  ghost predicate Bound(v: Inventory, h: Host)
  {
    h.addr != "" && h.addr in v.machines && h.pool in v.pools && h.addr in v.pools[h.pool].members
  }

  ghost predicate Consistent(v: Inventory)
  {
    && Keyed(v)
    && (forall k :: k in v.hosts ==> if v.hosts[k].state == HostReady then Bound(v, v.hosts[k]) else v.hosts[k].addr == "")
    && (forall j, k :: j in v.hosts && k in v.hosts && j != k && v.hosts[j].addr != "" ==> v.hosts[j].addr != v.hosts[k].addr)
    && (forall p :: p in v.pools ==> Ascending(v.pools[p].members))
  }

  // ----- binding -----

  lemma BindResult(v: Inventory, pool: string, mac: string, node: NodeInfo, role: Role)
    requires mac in v.hosts && pool in v.pools && v.hosts[mac].mac == mac && v.pools[pool].name == pool
    requires node.internalIP !in v.machines
    ensures var ip, h, np := node.internalIP, v.hosts[mac], v.pools[pool];
            AppliedAll(v, BindEffects(v, pool, mac, node, role)) ==
              Inventory(
                v.hosts[mac := h.(addr := ip, state := HostReady, message := "")],
                v.machines[ip := Machine(h.cluster, pool, ip, role, None, 0)],
                if ip in np.members then v.pools else v.pools[pool := BoundPool(np, ip)])
  {
    var ip, h, np := node.internalIP, v.hosts[mac], v.pools[pool];
    var e1 := PutHost(h.(addr := ip, state := HostReady, message := ""));
    var e2 := PutMachine(Machine(h.cluster, pool, ip, role, None, 0));
    var rest := if ip in np.members then [] else [PutPool(BoundPool(np, ip))];
    var es := BindEffects(v, pool, mac, node, role);
    assert es == [e1] + ([e2] + rest);
    AppliedCons(v, e1, [e2] + rest);
    AppliedCons(Applied(v, e1), e2, rest);
    if rest != [] {
      assert rest == [rest[0]] + [];
      AppliedCons(Applied(Applied(v, e1), e2), rest[0], []);
    }
  }

  lemma BindConsistent(v: Inventory, pool: string, mac: string, node: NodeInfo, role: Role)
    requires Consistent(v) && InPool(v, pool, mac) && v.hosts[mac].state == Provisioning && pool in v.pools
    requires node.internalIP != "" && node.internalIP !in v.machines
    ensures var u := AppliedAll(v, BindEffects(v, pool, mac, node, role));
            Consistent(u) && u.machines.Keys == v.machines.Keys + {node.internalIP}
  {
    BindResult(v, pool, mac, node, role);
    BoundConsistent(v, AppliedAll(v, BindEffects(v, pool, mac, node, role)), pool, mac, node.internalIP, role);
  }

  lemma BoundConsistent(v: Inventory, u: Inventory, pool: string, mac: string, ip: string, role: Role)
    requires Consistent(v) && InPool(v, pool, mac) && v.hosts[mac].state == Provisioning && pool in v.pools && ip != "" && ip !in v.machines
    requires var h, np := v.hosts[mac], v.pools[pool];
             && u.hosts == v.hosts[mac := h.(addr := ip, state := HostReady, message := "")]
             && u.machines == v.machines[ip := Machine(h.cluster, pool, ip, role, None, 0)]
             && u.pools == if ip in np.members then v.pools else v.pools[pool := BoundPool(np, ip)]
    ensures Consistent(u)
  {
    var np := v.pools[pool];
    if ip !in np.members { SortAppended(np.members, ip); }
    forall k | k in u.hosts && u.hosts[k].state == HostReady ensures Bound(u, u.hosts[k]) {
      if k != mac { assert Bound(v, v.hosts[k]); }
    }
    forall k | k in v.hosts ensures v.hosts[k].addr != ip { if v.hosts[k].addr != "" { assert Bound(v, v.hosts[k]); } }
  }

  lemma HostOnlyConsistent(v: Inventory, h: Host)
    requires Consistent(v) && h.mac in v.hosts && v.hosts[h.mac].state != HostReady
    requires h.state != HostReady && h.addr == v.hosts[h.mac].addr
    ensures Consistent(Applied(v, PutHost(h)))
  {
    var u := Applied(v, PutHost(h));
    forall k | k in u.hosts && u.hosts[k].state == HostReady ensures Bound(u, u.hosts[k]) { assert Bound(v, v.hosts[k]); }
  }

  lemma {:induction false} AdvanceConsistent(v: Inventory, env: Env, listed: map<string, Host>, keys: seq<string>, claimed: set<string>)
    requires Consistent(v) && Primed(v, env, listed, keys, claimed) && v.machines.Keys <= claimed
    ensures Consistent(AppliedAll(v, Advance(v, env, listed, keys, claimed).effects))
    decreases |keys|
  {
    if keys != [] {
      assert keys[0] in keys;
      var h, joined := v.hosts[keys[0]], NewJoined(env.nodes, claimed, env.role);
      if h.state == Provisioning && joined.Some? {
        JoinedConsistent(v, env, listed, keys, claimed);
      } else if h.state == Provisioning && TimedOut(h, env.now, env.timeout) {
        OverdueConsistent(v, env, listed, keys, claimed);
      } else {
        AdvanceSkips(v, env, listed, keys, claimed);
        PrimedNext(v, v, env, listed, keys, claimed, claimed, h.state);
        AdvanceConsistent(v, env, listed, keys[1..], claimed);
      }
    }
  }

  lemma JoinedConsistent(v: Inventory, env: Env, listed: map<string, Host>, keys: seq<string>, claimed: set<string>)
    requires Consistent(v) && Primed(v, env, listed, keys, claimed) && v.machines.Keys <= claimed
    requires keys != [] && keys[0] in v.hosts && v.hosts[keys[0]].state == Provisioning
    requires NewJoined(env.nodes, claimed, env.role).Some?
    ensures Consistent(AppliedAll(v, Advance(v, env, listed, keys, claimed).effects))
    decreases |keys|, 0
  {
    assert keys[0] in keys;
    var node := NewJoined(env.nodes, claimed, env.role).value;
    var ip := node.internalIP;
    var es := BindEffects(v, env.pool, keys[0], node, env.role);
    var u := AppliedAll(v, es);
    BindConsistent(v, env.pool, keys[0], node, env.role);
    BindLegal(v, env, 0, keys[0], node, claimed);
    PrimedNext(v, u, env, listed, keys, claimed, claimed + {ip}, HostReady);
    AdvanceConsistent(u, env, listed, keys[1..], claimed + {ip});
    var q := Advance(u, env, listed, keys[1..], claimed + {ip});
    AdvanceFirst(v, env, listed, keys, claimed);
    AppliedConcat(v, es, q.effects);
  }

  lemma OverdueConsistent(v: Inventory, env: Env, listed: map<string, Host>, keys: seq<string>, claimed: set<string>)
    requires Consistent(v) && Primed(v, env, listed, keys, claimed) && v.machines.Keys <= claimed
    requires keys != [] && keys[0] in v.hosts && v.hosts[keys[0]].state == Provisioning
    requires NewJoined(env.nodes, claimed, env.role).None? && TimedOut(v.hosts[keys[0]], env.now, env.timeout)
    ensures Consistent(AppliedAll(v, Advance(v, env, listed, keys, claimed).effects))
    decreases |keys|, 0
  {
    assert keys[0] in keys;
    var es := [PutHost(FailedHost(v.hosts[keys[0]]))];
    var u := AppliedAll(v, es);
    FailConsistent(v, keys[0]);
    FailLegal(v, env, 0, keys[0]);
    PrimedNext(v, u, env, listed, keys, claimed, claimed, HostFailed);
    AdvanceConsistent(u, env, listed, keys[1..], claimed);
    AdvanceFirst(v, env, listed, keys, claimed);
    AppliedConcat(v, es, Advance(u, env, listed, keys[1..], claimed).effects);
  }

  lemma FailConsistent(v: Inventory, mac: string)
    requires Consistent(v) && mac in v.hosts && v.hosts[mac].state == Provisioning
    ensures var u := AppliedAll(v, [PutHost(FailedHost(v.hosts[mac]))]); Consistent(u) && u.machines == v.machines
  {
    var e := PutHost(FailedHost(v.hosts[mac]));
    HostOnlyConsistent(v, e.host);
    assert [e] == [e] + [];
    AppliedCons(v, e, []);
  }

  // ----- settling -----

  lemma {:induction false} WithoutMembers(s: seq<string>, a: string)
    ensures forall x :: x in Without(s, a) <==> x in s && x != a
    ensures Ascending(s) ==> Ascending(Without(s, a))
    ensures Without(Without(s, a), a) == Without(s, a)
    decreases |s|
  {
    if s != [] {
      WithoutMembers(s[1..], a);
      assert s == [s[0]] + s[1..];
      var t := Without(s[1..], a);
      if s[0] != a {
        assert ([s[0]] + t)[1..] == t;
        if Ascending(s) {
          forall j | 0 < j < |[s[0]] + t| ensures Less(s[0], ([s[0]] + t)[j]) {
            assert t[j - 1] in t;
            AscendingHead(s, t[j - 1]);
            AscendingTail(s, t[j - 1]);
          }
        }
      }
    }
  }

  lemma ScaleInConsistent(w: Inventory, env: Env, listed: map<string, Host>, keys: seq<string>, mac: string)
    requires Consistent(w) && env.pool in w.pools
    requires forall k :: k in keys ==> k in listed && k in w.hosts && InPool(w, env.pool, k)
    requires Victim(listed, keys) == Some(mac) && w.hosts[mac] == listed[mac]
    ensures Consistent(AppliedAll(w, ScaleInEffects(w, env, listed, keys)))
  {
    ScaleInResult(w, env, listed, keys, mac);
    ScaledInConsistent(w, env.pool, mac);
  }

  lemma ScaledInConsistent(w: Inventory, pool: string, mac: string)
    requires Consistent(w) && pool in w.pools && InPool(w, pool, mac) && w.hosts[mac].state == HostReady
    ensures Consistent(ScaledIn(w, pool, mac, w.hosts[mac].addr))
  {
    var addr := w.hosts[mac].addr;
    var u := ScaledIn(w, pool, mac, addr);
    assert Bound(w, w.hosts[mac]);
    WithoutMembers(w.pools[pool].members, addr);
    forall k | k in u.hosts && u.hosts[k].state == HostReady ensures Bound(u, u.hosts[k]) {
      assert Bound(w, w.hosts[k]) && w.hosts[k].addr != addr;
    }
  }

  lemma SettleConsistent(v: Inventory, w: Inventory, env: Env, np: NodePool, version: string, keys: seq<string>, p: Progress)
    requires Consistent(w) && keys == PoolKeys(v, env.pool) && env.pool in v.pools && Framed(v, w, keys)
    ensures Consistent(AppliedAll(w, Settle(w, env, np, version, v.hosts, keys, p)))
  {
    if p.inflight == 0 && p.failed == 0 {
      if p.ready > np.replicas {
        var victim := Victim(v.hosts, keys);
        if victim.Some? { ScaleInConsistent(w, env, v.hosts, keys, victim.value); }
      } else if p.ready < np.replicas {
        var h := PickAvailable(v.hosts, keys, np.selector);
        if h.Some? && version != "" {
          StageResult(w, h.value, version, env.now);
          HostOnlyConsistent(w, Started(w.hosts[h.value], env.now));
        }
      }
    }
  }

  lemma PassConsistent(v: Inventory, n: PassInput)
    requires Consistent(v)
    ensures Consistent(PassAll(v, n))
  {
    if Engaged(v, n) {
      var env, np, keys := EnvOf(v, n), v.pools[n.pool], PoolKeys(v, n.pool);
      var claimed := ClaimedAddrs(v, keys);
      assert Primed(v, env, v.hosts, keys, claimed) by {
        forall k | InPool(v, env.pool, k) && v.hosts[k].addr != "" ensures v.hosts[k].addr in claimed { assert k in keys; }
      }
      AdvanceConsistent(v, env, v.hosts, keys, claimed);
      AdvanceLegal(v, env, np.replicas, v.hosts, keys, claimed);
      var p := Advance(v, env, v.hosts, keys, claimed);
      var w := AppliedAll(v, p.effects);
      var version := StageVersion(np, n.cl.value);
      SettleConsistent(v, w, env, np, version, keys, p);
      AppliedConcat(v, p.effects, Settle(w, env, np, version, v.hosts, keys, p));
    }
  }

  lemma EditConsistent(v: Inventory, s: Step)
    requires Consistent(v) && !s.Pass?
    ensures Consistent(Do(v, s))
  {
    match s
    case SetReplicas(p, r) => if p in v.pools { ResizedConsistent(v, p, r); }
    case Register(h) => if h.mac !in v.hosts && h.state == Registered && h.addr == "" { RegisteredConsistent(v, h); }
    case Deregister(mac) => DeregisteredConsistent(v, mac);
  }

  lemma ResizedConsistent(v: Inventory, p: string, r: nat)
    requires Consistent(v) && p in v.pools
    ensures Consistent(v.(pools := v.pools[p := v.pools[p].(replicas := r)]))
  {
    var w := v.(pools := v.pools[p := v.pools[p].(replicas := r)]);
    forall k | k in w.hosts && w.hosts[k].state == HostReady ensures Bound(w, w.hosts[k]) { assert Bound(v, v.hosts[k]); }
  }

  lemma RegisteredConsistent(v: Inventory, h: Host)
    requires Consistent(v) && h.mac !in v.hosts && h.state == Registered && h.addr == ""
    ensures Consistent(v.(hosts := v.hosts[h.mac := h]))
  {
    var w := v.(hosts := v.hosts[h.mac := h]);
    forall k | k in w.hosts && w.hosts[k].state == HostReady ensures Bound(w, w.hosts[k]) { assert Bound(v, v.hosts[k]); }
  }

  lemma DeregisteredConsistent(v: Inventory, mac: string)
    requires Consistent(v)
    ensures Consistent(v.(hosts := v.hosts - {mac}))
  {
    var w := v.(hosts := v.hosts - {mac});
    forall k | k in w.hosts && w.hosts[k].state == HostReady ensures Bound(w, w.hosts[k]) { assert Bound(v, v.hosts[k]); }
  }

  /** A run whose passes all complete. */
  ghost function FullRun(v: Inventory, steps: seq<Step>): Inventory
    decreases |steps|
  {
    if steps == [] then v
    else FullRun(if steps[0].Pass? then PassAll(v, steps[0].n) else Do(v, steps[0]), steps[1..])
  }

  /**
   * Over completed passes on all pools of a cluster, with edits between them: Ready hosts have pairwise
   * distinct addresses, each with its Machine and its membership, only Ready hosts have an address, and
   * member lists stay sorted without duplicates.
   */
  lemma {:induction false} ReadyHostsConsistent(v: Inventory, steps: seq<Step>)
    requires Consistent(v)
    ensures Consistent(FullRun(v, steps))
    decreases |steps|
  {
    if steps != [] {
      if steps[0].Pass? { PassConsistent(v, steps[0].n); } else { EditConsistent(v, steps[0]); }
      ReadyHostsConsistent(if steps[0].Pass? then PassAll(v, steps[0].n) else Do(v, steps[0]), steps[1..]);
    }
  }

  /** A bind keeps hosts, machines and memberships in step exactly when none or all of its writes happen. */
  lemma CutBindIff(v: Inventory, pool: string, mac: string, node: NodeInfo, role: Role, cut: nat)
    requires Consistent(v) && InPool(v, pool, mac) && v.hosts[mac].state == Provisioning && pool in v.pools
    requires node.internalIP != "" && node.internalIP !in v.machines
    requires cut <= |BindEffects(v, pool, mac, node, role)|
    ensures var es := BindEffects(v, pool, mac, node, role);
            Consistent(AppliedAll(v, es[..cut])) <==> cut == 0 || cut == |es|
  {
    var es := BindEffects(v, pool, mac, node, role);
    BindConsistent(v, pool, mac, node, role);
    assert es[..|es|] == es;
    if 0 < cut < |es| { CutBindUnbound(v, pool, mac, node, role, cut); }
  }

  lemma CutBindUnbound(v: Inventory, pool: string, mac: string, node: NodeInfo, role: Role, cut: nat)
    requires Keyed(v) && InPool(v, pool, mac) && pool in v.pools && node.internalIP != "" && node.internalIP !in v.machines
    requires 0 < cut < |BindEffects(v, pool, mac, node, role)|
    ensures !Consistent(AppliedAll(v, BindEffects(v, pool, mac, node, role)[..cut]))
  {
    var es := BindEffects(v, pool, mac, node, role);
    assert es[..cut] == [es[0], es[1]][..cut];
    Prefix2(v, es[0], es[1], cut);
    var u := AppliedAll(v, es[..cut]);
    assert u.hosts[mac].state == HostReady && u.hosts[mac].addr == node.internalIP && !Bound(u, u.hosts[mac]);
  }

  // ----- a cut scale-in -----

  /** The victim is the Ready host with the lowest MAC. */
  lemma {:induction false} VictimIff(listed: map<string, Host>, keys: seq<string>, mac: string)
    requires Ascending(keys) && forall k :: k in keys ==> k in listed
    ensures Victim(listed, keys) == Some(mac) <==>
              mac in keys && listed[mac].state == HostReady && forall k :: k in keys && Less(k, mac) ==> listed[k].state != HostReady
    decreases |keys|
  {
    if keys != [] {
      forall x ensures x in keys[1..] <==> x in keys && x != keys[0] { AscendingTail(keys, x); }
      VictimIff(listed, keys[1..], mac);
      if mac in keys { AscendingHead(keys, mac); }
      forall k | k in keys ensures k == keys[0] || Less(keys[0], k) { AscendingHead(keys, k); }
      if mac == keys[0] {
        forall k | k in keys ensures !Less(k, mac) { if k != mac { LessAsymmetric(mac, k); } else { LessIrreflexive(mac); } }
      }
    }
  }

  lemma LessIrreflexive(a: string)
    ensures !Less(a, a)
  {
    if Less(a, a) { LessAsymmetric(a, a); }
  }

  /** Between a scale-in's first effect and its release: the host untouched, the rest done or not. */
  ghost predicate Midway(w: Inventory, x: Inventory, pool: string, addr: string)
    requires pool in w.pools
  {
    var np := w.pools[pool];
    && x.hosts == w.hosts
    && (x.machines == w.machines || (addr != "" && x.machines == w.machines - {addr}))
    && (x.pools == w.pools || (addr != "" && x.pools == w.pools[pool := np.(members := Without(np.members, addr))]))
  }

  /** Doing it all again from midway ends in the same place. */
  lemma ScaledInAgain(w: Inventory, x: Inventory, pool: string, mac: string, addr: string)
    requires mac in w.hosts && pool in w.pools && Midway(w, x, pool, addr)
    ensures ScaledIn(x, pool, mac, addr) == ScaledIn(w, pool, mac, addr)
  {
    WithoutMembers(w.pools[pool].members, addr);
  }

  /** The inventory in the middle of a scale-in. */
  lemma CutScaleIn(w: Inventory, env: Env, listed: map<string, Host>, keys: seq<string>, mac: string, cut: nat)
    requires Keyed(w) && env.pool in w.pools && (forall k :: k in keys ==> k in listed && k in w.hosts)
    requires Victim(listed, keys) == Some(mac) && cut < |ScaleInEffects(w, env, listed, keys)|
    ensures Midway(w, AppliedAll(w, ScaleInEffects(w, env, listed, keys)[..cut]), env.pool, listed[mac].addr)
  {
    var addr, np := listed[mac].addr, w.pools[env.pool];
    var es := ScaleInEffects(w, env, listed, keys);
    var name := FirstName(env.nodes, addr);
    var pre := if name != "" then [DrainNode(name), UnstageBoot(mac)] else [UnstageBoot(mac)];
    var forget := if addr == "" then [] else [DropMachine(addr), PutPool(np.(members := Without(np.members, addr)))];
    assert es == pre + forget + [PutHost(Released(w.hosts[mac]))];
    if cut <= |pre| {
      CutInCalls(w, es, pre, cut);
    } else {
      CutInForget(w, es, pre, forget[0], forget[1], cut - |pre|);
    }
  }

  lemma CutInCalls(w: Inventory, es: seq<Effect>, pre: seq<Effect>, cut: nat)
    requires pre <= es && cut <= |pre| && forall e :: e in pre ==> e.DrainNode? || e.UnstageBoot?
    ensures AppliedAll(w, es[..cut]) == w
  {
    assert es[..cut] == pre[..cut];
    Inert(w, pre[..cut]);
  }

  lemma CutInForget(w: Inventory, es: seq<Effect>, pre: seq<Effect>, e: Effect, e': Effect, k: nat)
    requires pre + [e, e'] <= es && 0 < k <= 2 && forall x :: x in pre ==> x.DrainNode? || x.UnstageBoot?
    ensures AppliedAll(w, es[..|pre| + k]) == if k == 1 then Applied(w, e) else Applied(Applied(w, e), e')
  {
    assert es[..|pre| + k] == pre + [e, e'][..k];
    AppliedConcat(w, pre, [e, e'][..k]);
    Inert(w, pre);
    Prefix2(w, e, e', k);
  }

  lemma {:induction false} Inert(w: Inventory, t: seq<Effect>)
    requires forall e :: e in t ==> e.DrainNode? || e.UnstageBoot? || e.StageBoot?
    ensures AppliedAll(w, t) == w
    decreases |t|
  {
    if t != [] { assert t[0] in t; Inert(w, t[1..]); }
  }

  lemma Prefix2(w: Inventory, e: Effect, e': Effect, k: nat)
    requires 0 < k <= 2
    ensures AppliedAll(w, [e, e'][..k]) == if k == 1 then Applied(w, e) else Applied(Applied(w, e), e')
  {
    if k == 1 {
      assert [e, e'][..k] == [e] + [];
      AppliedCons(w, e, []);
    } else {
      assert [e, e'][..k] == [e] + ([e'] + []);
      AppliedCons(w, e, [e'] + []);
      AppliedCons(Applied(w, e), e', []);
    }
  }

  /** A quiet pool with too many ready hosts goes straight to its scale-in. */
  lemma StraightToScaleIn(x: Inventory, n: PassInput)
    requires Engaged(x, n) && Quiet(x, n.pool) && Count(x, n.pool, HostReady) > x.pools[n.pool].replicas
    ensures PassEffects(x, n) == ScaleInEffects(x, EnvOf(x, n), x.hosts, PoolKeys(x, n.pool))
  {
    var env, keys := EnvOf(x, n), PoolKeys(x, n.pool);
    AdvanceStill(x, env, x.hosts, keys, ClaimedAddrs(x, keys));
    var q := Advance(x, env, x.hosts, keys, ClaimedAddrs(x, keys));
    assert AppliedAll(x, q.effects) == x;
    var si := ScaleInEffects(x, env, x.hosts, keys);
    assert [] + si == si;
  }

  /** Midway, the pool still looks as it did. */
  lemma MidwayLooks(w: Inventory, x: Inventory, pool: string, addr: string)
    requires Keyed(w) && pool in w.pools && Midway(w, x, pool, addr)
    ensures Keyed(x) && pool in x.pools && x.pools[pool].replicas == w.pools[pool].replicas
    ensures PoolKeys(x, pool) == PoolKeys(w, pool) && forall s :: Count(x, pool, s) == Count(w, pool, s)
  {
    assert forall k :: InPool(w, pool, k) <==> InPool(x, pool, k);
    PoolKeysSame(w, x, pool);
  }

  /** The next pass from midway: nothing to advance, still too many ready, the same victim. */
  lemma NextPass(w: Inventory, x: Inventory, n: PassInput, keys: seq<string>, mac: string)
    requires Keyed(w) && n.pool in w.pools && keys == PoolKeys(w, n.pool) && mac in w.hosts
    requires Midway(w, x, n.pool, w.hosts[mac].addr) && Engaged(x, n)
    requires Quiet(w, n.pool) && Count(w, n.pool, HostReady) > w.pools[n.pool].replicas
    requires Victim(w.hosts, keys) == Some(mac)
    ensures PassAll(x, n) == ScaledIn(w, n.pool, mac, w.hosts[mac].addr)
  {
    MidwayLooks(w, x, n.pool, w.hosts[mac].addr);
    StraightToScaleIn(x, n);
    ScaleInResult(x, EnvOf(x, n), x.hosts, keys, mac);
    ScaledInAgain(w, x, n.pool, mac, w.hosts[mac].addr);
  }

  /** The pass reaches its scale-in. */
  ghost predicate ScalesIn(v: Inventory, n: PassInput)
  {
    Engaged(v, n) &&
    var keys := PoolKeys(v, n.pool);
    var p := Advance(v, EnvOf(v, n), v.hosts, keys, ClaimedAddrs(v, keys));
    p.inflight == 0 && p.failed == 0 && p.ready > v.pools[n.pool].replicas
  }

  ghost function AdvanceEffects(v: Inventory, n: PassInput): seq<Effect>
    requires Engaged(v, n)
  {
    var keys := PoolKeys(v, n.pool);
    Advance(v, EnvOf(v, n), v.hosts, keys, ClaimedAddrs(v, keys)).effects
  }

  lemma ScalesInFacts(v: Inventory, n: PassInput, w: Inventory)
    requires Keyed(v) && ScalesIn(v, n) && w == AppliedAll(v, AdvanceEffects(v, n))
    ensures var keys := PoolKeys(v, n.pool);
            && Keyed(w) && Framed(v, w, keys) && PoolKeys(w, n.pool) == keys && n.pool in w.pools
            && Quiet(w, n.pool) && Count(w, n.pool, HostReady) > w.pools[n.pool].replicas
            && (forall k :: k in keys ==> k in w.hosts)
            && PassEffects(v, n) == AdvanceEffects(v, n) + ScaleInEffects(w, EnvOf(v, n), v.hosts, keys)
  {
    var env, keys, np := EnvOf(v, n), PoolKeys(v, n.pool), v.pools[n.pool];
    var claimed := ClaimedAddrs(v, keys);
    assert Primed(v, env, v.hosts, keys, claimed) by {
      forall k | InPool(v, env.pool, k) && v.hosts[k].addr != "" ensures v.hosts[k].addr in claimed { assert k in keys; }
    }
    AdvanceLegal(v, env, np.replicas, v.hosts, keys, claimed);
    assert forall k :: InPool(v, n.pool, k) <==> InPool(w, n.pool, k);
    PoolKeysSame(v, w, n.pool);
  }

  lemma CutConcat(v: Inventory, es: seq<Effect>, pre: seq<Effect>, si: seq<Effect>, cut: nat)
    requires es == pre + si && |pre| <= cut < |es|
    ensures cut - |pre| < |si|
    ensures AppliedAll(v, es[..cut]) == AppliedAll(AppliedAll(v, pre), si[..cut - |pre|])
    ensures AppliedAll(v, es) == AppliedAll(AppliedAll(v, pre), si)
  {
    assert es[..cut] == pre + si[..cut - |pre|];
    AppliedConcat(v, pre, si[..cut - |pre|]);
    AppliedConcat(v, pre, si);
  }

  /** No host of the pool with a lower MAC is waiting to join. */
  ghost predicate NoneWaitingBelow(v: Inventory, pool: string, mac: string)
  {
    forall k :: InPool(v, pool, k) && Less(k, mac) ==> v.hosts[k].state != Provisioning
  }

  /**
   * A pass cut anywhere inside its scale-in, before the release: the next pass on the pool, whatever the
   * nodes then look like, takes the same victim and ends in exactly the inventory the uncut pass would
   * have reached, if and only if the cut pass began with no host of a lower MAC in flight.
   */
  lemma CutScaleInFinishedIff(v: Inventory, n: PassInput, mac: string, cut: nat, n': PassInput)
    requires Keyed(v) && ScalesIn(v, n) && n'.pool == n.pool && n'.cl == n.cl && n'.nodes.Some?
    requires |AdvanceEffects(v, n)| <= cut < |PassEffects(v, n)|
    requires Victim(v.hosts, PoolKeys(v, n.pool)) == Some(mac)
    ensures PassAll(PassCut(v, n, cut), n') == PassAll(v, n) <==> NoneWaitingBelow(v, n.pool, mac)
  {
    var pre, w, keys, env, si := ScaleInParts(v, n);
    var k, x, y := CutInside(v, n, w, cut, pre, si);
    FinishedBelow(v, w, n.pool, env, keys, mac, k, n', si, x, y);
  }

  lemma CutInside(v: Inventory, n: PassInput, w: Inventory, cut: nat, pre: seq<Effect>, si: seq<Effect>)
    returns (k: nat, x: Inventory, y: Inventory)
    requires PassEffects(v, n) == pre + si && w == AppliedAll(v, pre) && |pre| <= cut < |pre| + |si|
    ensures k < |si| && x == PassCut(v, n, cut) && y == PassAll(v, n) && x == AppliedAll(w, si[..k]) && y == AppliedAll(w, si)
  {
    k, x, y := cut - |pre|, PassCut(v, n, cut), PassAll(v, n);
    InsideScaleIn(v, n, w, cut, pre + si, pre, si);
  }

  lemma FinishedBelow(v: Inventory, w: Inventory, pool: string, env: Env, keys: seq<string>, mac: string, k: nat, n: PassInput,
                      si: seq<Effect>, x: Inventory, y: Inventory)
    requires env.pool == pool == n.pool && pool in w.pools && Keyed(w) && keys == PoolKeys(v, pool) == PoolKeys(w, pool)
    requires Framed(v, w, keys) && (forall k :: k in keys ==> k in v.hosts && k in w.hosts)
    requires n.cl.Some? && n.cl.value.provisioningEnabled && n.nodes.Some? && w.pools[pool].replicas != 0
    requires Quiet(w, pool) && Count(w, pool, HostReady) > w.pools[pool].replicas && Victim(v.hosts, keys) == Some(mac)
    requires si == ScaleInEffects(w, env, v.hosts, keys) && k < |si| && x == AppliedAll(w, si[..k]) && y == AppliedAll(w, si)
    ensures PassAll(x, n) == y <==> NoneWaitingBelow(v, pool, mac)
  {
    FinishedFrom(v, w, pool, env, keys, mac, k, n, x, y);
    BelowIff(v, w, pool, keys, mac);
  }

  /** The two parts of a pass that scales in, and the inventory between them. */
  lemma ScaleInParts(v: Inventory, n: PassInput) returns (pre: seq<Effect>, w: Inventory, keys: seq<string>, env: Env, si: seq<Effect>)
    requires Keyed(v) && ScalesIn(v, n)
    ensures pre == AdvanceEffects(v, n) && w == AppliedAll(v, pre) && keys == PoolKeys(v, n.pool) == PoolKeys(w, n.pool)
    ensures Keyed(w) && Framed(v, w, keys) && n.pool in w.pools && Quiet(w, n.pool) && Count(w, n.pool, HostReady) > w.pools[n.pool].replicas
    ensures env.pool == n.pool && n.nodes == Some(env.nodes) && (forall k :: k in keys ==> k in v.hosts && k in w.hosts)
    ensures si == ScaleInEffects(w, env, v.hosts, keys) && PassEffects(v, n) == pre + si
    ensures n.cl.Some? && n.cl.value.provisioningEnabled && w.pools[n.pool].replicas != 0
  {
    pre, keys, env := AdvanceEffects(v, n), PoolKeys(v, n.pool), EnvOf(v, n);
    w := AppliedAll(v, pre);
    ScalesInFacts(v, n, w);
    si := ScaleInEffects(w, env, v.hosts, keys);
  }

  /** Whoever was in flight is Ready once nothing is in flight or failed. */
  lemma BelowIff(v: Inventory, w: Inventory, pool: string, keys: seq<string>, mac: string)
    requires keys == PoolKeys(v, pool) && keys == PoolKeys(w, pool) && Framed(v, w, keys) && Quiet(w, pool)
    requires Victim(v.hosts, keys) == Some(mac)
    ensures NoneReadyBelow(w, pool, mac) <==> NoneWaitingBelow(v, pool, mac)
  {
    VictimIff(v.hosts, keys, mac);
    forall k | InPool(v, pool, k) && v.hosts[k].state == Provisioning ensures InPool(w, pool, k) && w.hosts[k].state == HostReady {
      assert k in keys;
      TallyZero(w.hosts, keys, Provisioning, k);
      TallyZero(w.hosts, keys, HostFailed, k);
    }
    forall k | InPool(w, pool, k) && Less(k, mac) && w.hosts[k].state == HostReady ensures InPool(v, pool, k) && v.hosts[k].state == Provisioning {
      assert k in keys;
    }
  }

  /** A pass cut inside its scale-in is the scale-in, cut. */
  lemma InsideScaleIn(v: Inventory, n: PassInput, w: Inventory, cut: nat, es: seq<Effect>, pre: seq<Effect>, si: seq<Effect>)
    requires es == PassEffects(v, n) && es == pre + si && w == AppliedAll(v, pre) && |pre| <= cut < |es|
    ensures PassCut(v, n, cut) == AppliedAll(w, si[..cut - |pre|]) && PassAll(v, n) == AppliedAll(w, si)
  {
    CutConcat(v, es, pre, si, cut);
  }

  ghost predicate NoneReadyBelow(w: Inventory, pool: string, mac: string)
  {
    forall k :: InPool(w, pool, k) && Less(k, mac) ==> w.hosts[k].state != HostReady
  }

  /** The scale-in itself, from `w`: cut at `cut` and passed over again, or run to its end. */
  lemma FinishedFrom(v: Inventory, w: Inventory, pool: string, env: Env, keys: seq<string>, mac: string, cut: nat, n: PassInput,
                     x: Inventory, y: Inventory)
    requires env.pool == pool == n.pool && pool in w.pools && Keyed(w) && keys == PoolKeys(w, pool)
    requires Framed(v, w, keys) && (forall k :: k in keys ==> k in v.hosts && k in w.hosts)
    requires n.cl.Some? && n.cl.value.provisioningEnabled && n.nodes.Some? && w.pools[pool].replicas != 0
    requires Quiet(w, pool) && Count(w, pool, HostReady) > w.pools[pool].replicas
    requires Victim(v.hosts, keys) == Some(mac) && cut < |ScaleInEffects(w, env, v.hosts, keys)|
    requires var si := ScaleInEffects(w, env, v.hosts, keys); x == AppliedAll(w, si[..cut]) && y == AppliedAll(w, si)
    ensures PassAll(x, n) == y <==> NoneReadyBelow(w, pool, mac)
  {
    CutScaleIn(w, env, v.hosts, keys, mac, cut);
    ScaleInResult(w, env, v.hosts, keys, mac);
    SameVictimIff(v, w, pool, keys, mac);
    MidwayLooks(w, x, pool, w.hosts[mac].addr);
    if NoneReadyBelow(w, pool, mac) {
      NextPass(w, x, n, keys, mac);
    } else {
      OtherVictim(w, x, n, keys, mac);
    }
  }

  lemma SameVictimIff(v: Inventory, w: Inventory, pool: string, keys: seq<string>, mac: string)
    requires keys == PoolKeys(w, pool) && Framed(v, w, keys) && (forall k :: k in keys ==> k in v.hosts && k in w.hosts)
    requires Victim(v.hosts, keys) == Some(mac)
    ensures w.hosts[mac] == v.hosts[mac] && (Victim(w.hosts, keys) == Some(mac) <==> NoneReadyBelow(w, pool, mac))
  {
    forall k ensures k in keys <==> InPool(w, pool, k) {}
    VictimIff(w.hosts, keys, mac);
  }

  /** The next pass from midway with another victim: `mac` stays Ready. */
  lemma OtherVictim(w: Inventory, x: Inventory, n: PassInput, keys: seq<string>, mac: string)
    requires Keyed(w) && n.pool in w.pools && keys == PoolKeys(w, n.pool) && mac in keys && w.hosts[mac].state == HostReady
    requires Midway(w, x, n.pool, w.hosts[mac].addr) && Engaged(x, n)
    requires Quiet(w, n.pool) && Count(w, n.pool, HostReady) > w.pools[n.pool].replicas
    requires Victim(w.hosts, keys) != Some(mac)
    ensures mac in PassAll(x, n).hosts && PassAll(x, n).hosts[mac].state == HostReady
  {
    MidwayLooks(w, x, n.pool, w.hosts[mac].addr);
    StraightToScaleIn(x, n);
    ScaleInResult(x, EnvOf(x, n), x.hosts, keys, Victim(w.hosts, keys).value);
  }
}
