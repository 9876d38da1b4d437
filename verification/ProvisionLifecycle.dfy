/** The host lifecycle as rules on single effects, and the proof that every effect of every pass obeys them. */
module ProvisionLifecycle {
  import opened Basics
  import opened Kube
  import opened ProvisionModel
  import opened Records
  import opened Text

  /** How many of the listed hosts are in a state. */
  function Tally(hosts: map<string, Host>, keys: seq<string>, s: HostState): nat
    requires forall k :: k in keys ==> k in hosts
  {
    if keys == [] then 0 else (if hosts[keys[0]].state == s then 1 else 0) + Tally(hosts, keys[1..], s)
  }

  ghost function Count(v: Inventory, pool: string, s: HostState): nat
  {
    Tally(v.hosts, PoolKeys(v, pool), s)
  }

  ghost predicate InPool(v: Inventory, pool: string, k: string)
  {
    k in v.hosts && v.hosts[k].pool == pool
  }

  /** Nothing in flight and nothing failed. */
  ghost predicate Quiet(v: Inventory, pool: string)
  {
    Count(v, pool, Provisioning) == 0 && Count(v, pool, HostFailed) == 0
  }

  ghost predicate FreshAddr(v: Inventory, pool: string, addr: string)
  {
    addr != "" && forall k :: InPool(v, pool, k) ==> v.hosts[k].addr != addr
  }

  /** The only changes a pool's pass may make to one of its hosts, `n` being the wanted replicas. */
  ghost predicate Transition(v: Inventory, pool: string, n: nat, a: Host, b: Host)
  {
    || (a.state == Provisioning && b.state == HostReady && FreshAddr(v, pool, b.addr))
    || (a.state == Provisioning && b.state == HostFailed && b.addr == a.addr)
    || (a.state == Registered && b.state == Provisioning && b.addr == a.addr && Quiet(v, pool) && Count(v, pool, HostReady) < n)
    || (a.state == HostReady && b.state == Registered && b.addr == "" && Count(v, pool, HostReady) > n)
  }

  /** The pool as it was, but for the membership of the one address a Ready host of it has. */
  ghost predicate Rosters(v: Inventory, pool: string, np: NodePool, k: string)
  {
    && InPool(v, pool, k) && v.hosts[k].state == HostReady && pool in v.pools
    && np == v.pools[pool].(members := np.members)
    && SameBut(v.pools[pool].members, np.members, v.hosts[k].addr)
  }

  ghost predicate SameBut(b: seq<string>, a: seq<string>, x: string)
  {
    forall y :: y != x ==> (y in a <==> y in b)
  }

  /** The rules, effect by effect. */
  ghost predicate Legal(v: Inventory, pool: string, n: nat, e: Effect)
  {
    match e
    case PutHost(h) => InPool(v, pool, h.mac) && h.pool == pool && Transition(v, pool, n, v.hosts[h.mac], h)
    case StageBoot(mac, _) =>
      InPool(v, pool, mac) && v.hosts[mac].state == Registered && Quiet(v, pool) && Count(v, pool, HostReady) < n
    case UnstageBoot(mac) => InPool(v, pool, mac) && v.hosts[mac].state == HostReady && Count(v, pool, HostReady) > n
    case DropMachine(a) =>
      Count(v, pool, HostReady) > n && exists k :: InPool(v, pool, k) && v.hosts[k].state == HostReady && v.hosts[k].addr == a
    case DrainNode(_) => Count(v, pool, HostReady) > n
    case PutPool(np) => np.name == pool && pool in v.pools && exists k :: Rosters(v, pool, np, k)
    case PutMachine(m) => m.talosEndpoint != ""
  }

  ghost predicate AllLegal(v: Inventory, pool: string, n: nat, es: seq<Effect>)
    decreases |es|
  {
    es != [] ==> Legal(v, pool, n, es[0]) && AllLegal(Applied(v, es[0]), pool, n, es[1..])
  }

  lemma {:induction false} LegalConcat(v: Inventory, pool: string, n: nat, s: seq<Effect>, t: seq<Effect>)
    ensures AllLegal(v, pool, n, s + t) <==> AllLegal(v, pool, n, s) && AllLegal(AppliedAll(v, s), pool, n, t)
    decreases |s|
  {
    if s == [] {
      assert s + t == t;
    } else {
      assert (s + t)[1..] == s[1..] + t;
      LegalConcat(Applied(v, s[0]), pool, n, s[1..], t);
    }
  }

  lemma LegalCons(v: Inventory, pool: string, n: nat, e: Effect, t: seq<Effect>)
    ensures AllLegal(v, pool, n, [e] + t) <==> Legal(v, pool, n, e) && AllLegal(Applied(v, e), pool, n, t)
  {
    assert ([e] + t)[1..] == t;
  }

  /** Every effect of a legal list is legal where it happens. */
  lemma LegalAt(v: Inventory, pool: string, n: nat, es: seq<Effect>, i: nat)
    requires AllLegal(v, pool, n, es) && i < |es|
    ensures AllLegal(v, pool, n, es[..i]) && Legal(AppliedAll(v, es[..i]), pool, n, es[i])
  {
    assert es == es[..i] + es[i..];
    LegalConcat(v, pool, n, es[..i], es[i..]);
  }

  // ----- counting -----

  lemma {:induction false} TallySame(a: map<string, Host>, b: map<string, Host>, keys: seq<string>, s: HostState)
    requires forall k :: k in keys ==> k in a && k in b && a[k].state == b[k].state
    ensures Tally(a, keys, s) == Tally(b, keys, s)
    decreases |keys|
  {
    if keys != [] { TallySame(a, b, keys[1..], s); }
  }

  lemma {:induction false} TallyUpdate(hosts: map<string, Host>, keys: seq<string>, h: Host, s: HostState)
    requires Ascending(keys) && h.mac in keys && forall k :: k in keys ==> k in hosts
    ensures Tally(hosts[h.mac := h], keys, s) ==
              Tally(hosts, keys, s) - (if hosts[h.mac].state == s then 1 else 0) + (if h.state == s then 1 else 0)
    ensures hosts[h.mac].state == s ==> Tally(hosts, keys, s) > 0
    decreases |keys|
  {
    AscendingTail(keys, h.mac);
    if h.mac == keys[0] {
      TallySame(hosts[h.mac := h], hosts, keys[1..], s);
    } else {
      TallyUpdate(hosts, keys[1..], h, s);
    }
  }

  lemma {:induction false} TallyZero(hosts: map<string, Host>, keys: seq<string>, s: HostState, k: string)
    requires (forall x :: x in keys ==> x in hosts) && k in keys && Tally(hosts, keys, s) == 0
    ensures hosts[k].state != s
    decreases |keys|
  {
    if k != keys[0] { TallyZero(hosts, keys[1..], s, k); }
  }

  lemma {:induction false} TallyTwo(hosts: map<string, Host>, keys: seq<string>, s: HostState, j: string, k: string)
    requires Ascending(keys) && (forall x :: x in keys ==> x in hosts) && Tally(hosts, keys, s) <= 1
    requires j in keys && k in keys && hosts[j].state == s && hosts[k].state == s
    ensures j == k
    decreases |keys|
  {
    AscendingTail(keys, j);
    AscendingTail(keys, k);
    if j == keys[0] && k != keys[0] {
      TallyPositive(hosts, keys[1..], s, k);
    } else if k == keys[0] && j != keys[0] {
      TallyPositive(hosts, keys[1..], s, j);
    } else if j != keys[0] {
      TallyTwo(hosts, keys[1..], s, j, k);
    }
  }

  lemma TallyPositive(hosts: map<string, Host>, keys: seq<string>, s: HostState, k: string)
    requires (forall x :: x in keys ==> x in hosts) && k in keys && hosts[k].state == s
    ensures Tally(hosts, keys, s) > 0
  {
    if Tally(hosts, keys, s) == 0 { TallyZero(hosts, keys, s, k); }
  }

  /** Two inventories with the same hosts in a pool list the same keys. */
  lemma PoolKeysSame(v: Inventory, w: Inventory, pool: string)
    requires forall k :: InPool(v, pool, k) <==> InPool(w, pool, k)
    ensures PoolKeys(v, pool) == PoolKeys(w, pool)
  {
    forall k ensures k in PoolKeys(v, pool) <==> k in PoolKeys(w, pool) {
      assert InPool(v, pool, k) <==> InPool(w, pool, k);
    }
    AscendingUnique(PoolKeys(v, pool), PoolKeys(w, pool));
  }

  /** How one legal host write moves the counts. */
  lemma CountAfter(v: Inventory, pool: string, h: Host, s: HostState)
    requires InPool(v, pool, h.mac) && h.pool == pool
    ensures Count(Applied(v, PutHost(h)), pool, s) ==
              Count(v, pool, s) - (if v.hosts[h.mac].state == s then 1 else 0) + (if h.state == s then 1 else 0)
    ensures v.hosts[h.mac].state == s ==> Count(v, pool, s) > 0
  {
    var w := Applied(v, PutHost(h));
    PoolKeysSame(v, w, pool);
    TallyUpdate(v.hosts, PoolKeys(v, pool), h, s);
  }

  /** Effects other than host writes leave all counts alone. */
  lemma CountKept(v: Inventory, e: Effect, pool: string, s: HostState)
    requires !e.PutHost?
    ensures Count(Applied(v, e), pool, s) == Count(v, pool, s)
  {
    PoolKeysSame(v, Applied(v, e), pool);
  }

  // ----- what legal effects keep -----

  /** At most one host in flight, and no address twice. */
  ghost predicate OneInFlight(v: Inventory, pool: string)
  {
    Count(v, pool, Provisioning) <= 1 && AddressesDistinct(v, pool)
  }

  ghost predicate AddressesDistinct(v: Inventory, pool: string)
  {
    forall j, k :: InPool(v, pool, j) && InPool(v, pool, k) && j != k && v.hosts[j].addr != "" ==> v.hosts[j].addr != v.hosts[k].addr
  }

  function Max(a: nat, b: nat): nat
  {
    if a < b then b else a
  }

  function Min(a: nat, b: nat): nat
  {
    if a < b then a else b
  }

  /** One legal effect, seen from its own pool. */
  lemma LegalStep(v: Inventory, pool: string, n: nat, e: Effect)
    requires Keyed(v) && Legal(v, pool, n, e)
    ensures var w := Applied(v, e);
            && Keyed(w)
            && (OneInFlight(v, pool) ==> OneInFlight(w, pool))
            && Count(w, pool, HostReady) + Count(w, pool, Provisioning)
                 <= Max(n, Count(v, pool, HostReady) + Count(v, pool, Provisioning))
            && Count(w, pool, HostReady) >= Min(n, Count(v, pool, HostReady))
  {
    LegalCounts(v, pool, n, e);
    if AddressesDistinct(v, pool) { LegalAddresses(v, pool, n, e); }
  }

  lemma LegalCounts(v: Inventory, pool: string, n: nat, e: Effect)
    requires Keyed(v) && Legal(v, pool, n, e)
    ensures var w := Applied(v, e);
            && (Count(v, pool, Provisioning) <= 1 ==> Count(w, pool, Provisioning) <= 1)
            && Count(w, pool, HostReady) + Count(w, pool, Provisioning)
                 <= Max(n, Count(v, pool, HostReady) + Count(v, pool, Provisioning))
            && Count(w, pool, HostReady) >= Min(n, Count(v, pool, HostReady))
  {
    if e.PutHost? {
      CountAfter(v, pool, e.host, HostReady);
      CountAfter(v, pool, e.host, Provisioning);
    } else {
      CountKept(v, e, pool, HostReady);
      CountKept(v, e, pool, Provisioning);
    }
  }

  lemma LegalAddresses(v: Inventory, pool: string, n: nat, e: Effect)
    requires Legal(v, pool, n, e) && AddressesDistinct(v, pool)
    ensures AddressesDistinct(Applied(v, e), pool)
  {
  }

  /** One legal effect, seen from another pool: nothing. */
  lemma LegalElsewhere(v: Inventory, pool: string, n: nat, e: Effect, other: string)
    requires Legal(v, pool, n, e) && other != pool && OneInFlight(v, other)
    ensures OneInFlight(Applied(v, e), other)
  {
    var w := Applied(v, e);
    assert forall k :: InPool(v, other, k) <==> InPool(w, other, k);
    PoolKeysSame(v, w, other);
    TallySame(v.hosts, w.hosts, PoolKeys(v, other), Provisioning);
  }

  lemma {:induction false} LegalRun(v: Inventory, pool: string, n: nat, es: seq<Effect>)
    requires Keyed(v) && AllLegal(v, pool, n, es)
    ensures var w := AppliedAll(v, es);
            && Keyed(w)
            && (OneInFlight(v, pool) ==> OneInFlight(w, pool))
            && Count(w, pool, HostReady) + Count(w, pool, Provisioning)
                 <= Max(n, Count(v, pool, HostReady) + Count(v, pool, Provisioning))
            && Count(w, pool, HostReady) >= Min(n, Count(v, pool, HostReady))
    decreases |es|
  {
    if es != [] {
      LegalStep(v, pool, n, es[0]);
      LegalRun(Applied(v, es[0]), pool, n, es[1..]);
    }
  }

  lemma {:induction false} LegalRunElsewhere(v: Inventory, pool: string, n: nat, es: seq<Effect>, other: string)
    requires AllLegal(v, pool, n, es) && other != pool && OneInFlight(v, other)
    ensures OneInFlight(AppliedAll(v, es), other)
    decreases |es|
  {
    if es != [] {
      LegalElsewhere(v, pool, n, es[0], other);
      LegalRunElsewhere(Applied(v, es[0]), pool, n, es[1..], other);
    }
  }

  // ----- every effect of a pass is legal -----

  /** What advancing relies on: the remaining hosts are as listed, and every bound address is claimed. */
  ghost predicate Primed(v: Inventory, env: Env, listed: map<string, Host>, keys: seq<string>, claimed: set<string>)
  {
    && Keyed(v) && env.pool in v.pools && Ascending(keys)
    && (forall k :: k in keys ==> InPool(v, env.pool, k) && k in listed && listed[k] == v.hosts[k])
    && (forall k :: InPool(v, env.pool, k) && v.hosts[k].addr != "" ==> v.hosts[k].addr in claimed)
  }

  /** Everything advancing leaves alone. */
  ghost predicate Framed(v: Inventory, w: Inventory, keys: seq<string>)
  {
    && w.hosts.Keys == v.hosts.Keys && w.pools.Keys == v.pools.Keys
    && (forall k :: k in v.hosts ==> w.hosts[k].pool == v.hosts[k].pool && w.hosts[k].labels == v.hosts[k].labels)
    && (forall k :: k in v.hosts && (k !in keys || v.hosts[k].state != Provisioning) ==> w.hosts[k] == v.hosts[k])
    && (forall k :: k in v.hosts && v.hosts[k].state == Provisioning ==> Awaited(w.hosts[k].state))
    && (forall q :: q in v.pools ==> w.pools[q].replicas == v.pools[q].replicas && w.pools[q].selector == v.pools[q].selector)
  }

  /** What becomes of a host in flight. */
  predicate Awaited(s: HostState)
  {
    s == Provisioning || s == HostReady || s == HostFailed
  }

  /** The pass's counters are the tallies of what it leaves. */
  ghost predicate Counted(w: Inventory, keys: seq<string>, p: Progress)
  {
    && (forall k :: k in keys ==> k in w.hosts)
    && Tally(w.hosts, keys, HostReady) == p.ready
    && Tally(w.hosts, keys, Provisioning) == p.inflight
    && Tally(w.hosts, keys, HostFailed) == p.failed
  }

  /** One host moved to state `s` and nothing else of note changed. */
  ghost predicate OneMoved(v: Inventory, u: Inventory, mac: string, s: HostState)
  {
    && mac in v.hosts && Keyed(u)
    && u.hosts.Keys == v.hosts.Keys && u.pools.Keys == v.pools.Keys
    && (forall k :: k in v.hosts && k != mac ==> u.hosts[k] == v.hosts[k])
    && u.hosts[mac].pool == v.hosts[mac].pool && u.hosts[mac].labels == v.hosts[mac].labels
    && (v.hosts[mac].state != Provisioning ==> u.hosts[mac] == v.hosts[mac])
    && u.hosts[mac].state == s
    && (forall x :: x in v.pools ==> u.pools[x].replicas == v.pools[x].replicas && u.pools[x].selector == v.pools[x].selector)
  }

  lemma FrameCompose(v: Inventory, u: Inventory, w: Inventory, keys: seq<string>, s: HostState)
    requires keys != [] && Ascending(keys) && OneMoved(v, u, keys[0], s) && Framed(u, w, keys[1..])
    requires v.hosts[keys[0]].state == Provisioning ==> Awaited(s)
    ensures Framed(v, w, keys)
  {
    forall k | k in v.hosts
      ensures w.hosts[k].pool == v.hosts[k].pool && w.hosts[k].labels == v.hosts[k].labels
      ensures k !in keys || v.hosts[k].state != Provisioning ==> w.hosts[k] == v.hosts[k]
      ensures v.hosts[k].state == Provisioning ==> Awaited(w.hosts[k].state)
    {
      FrameHost(v, u, w, keys, s, k);
    }
  }

  lemma FrameHost(v: Inventory, u: Inventory, w: Inventory, keys: seq<string>, s: HostState, k: string)
    requires keys != [] && Ascending(keys) && OneMoved(v, u, keys[0], s) && Framed(u, w, keys[1..]) && k in v.hosts
    requires v.hosts[keys[0]].state == Provisioning ==> Awaited(s)
    ensures k in w.hosts && w.hosts[k].pool == v.hosts[k].pool && w.hosts[k].labels == v.hosts[k].labels
    ensures k !in keys || v.hosts[k].state != Provisioning ==> w.hosts[k] == v.hosts[k]
    ensures v.hosts[k].state == Provisioning ==> Awaited(w.hosts[k].state)
  {
    AscendingTail(keys, k);
    if k == keys[0] { assert w.hosts[k] == u.hosts[k]; } else { assert u.hosts[k] == v.hosts[k]; }
  }

  lemma CountCompose(u: Inventory, w: Inventory, keys: seq<string>, p: Progress, q: Progress, s: HostState)
    requires keys != [] && Ascending(keys) && keys[0] in u.hosts && u.hosts[keys[0]].state == s
    requires Framed(u, w, keys[1..]) && Counted(w, keys[1..], q)
    requires p.ready == q.ready + (if s == HostReady then 1 else 0)
    requires p.inflight == q.inflight + (if s == Provisioning then 1 else 0)
    requires p.failed == q.failed + (if s == HostFailed then 1 else 0)
    ensures Counted(w, keys, p)
  {
    AscendingTail(keys, keys[0]);
    assert w.hosts[keys[0]] == u.hosts[keys[0]];
    forall k | k in keys ensures k in w.hosts { AscendingTail(keys, k); }
  }

  lemma BindHostLegal(v: Inventory, env: Env, n: nat, mac: string, ip: string, claimed: set<string>)
    requires InPool(v, env.pool, mac) && v.hosts[mac].state == Provisioning && v.hosts[mac].mac == mac
    requires forall k :: InPool(v, env.pool, k) && v.hosts[k].addr != "" ==> v.hosts[k].addr in claimed
    requires ip != "" && ip !in claimed
    ensures Legal(v, env.pool, n, PutHost(v.hosts[mac].(addr := ip, state := HostReady, message := "")))
  {
    assert FreshAddr(v, env.pool, ip);
  }

  /** The Machine and membership writes after a bound host. */
  lemma BindRestLegal(v: Inventory, pool: string, n: nat, m: Machine, ip: string, mac: string)
    requires Keyed(v) && pool in v.pools && m.talosEndpoint == ip != ""
    requires InPool(v, pool, mac) && v.hosts[mac].state == HostReady && v.hosts[mac].addr == ip
    ensures var es := [PutMachine(m)] + (if ip in v.pools[pool].members then [] else [PutPool(BoundPool(v.pools[pool], ip))]);
            var u := AppliedAll(v, es);
            && AllLegal(v, pool, n, es) && Keyed(u) && u.hosts == v.hosts && u.pools.Keys == v.pools.Keys
            && (forall x :: x in v.pools ==> u.pools[x].replicas == v.pools[x].replicas && u.pools[x].selector == v.pools[x].selector)
  {
    var e := PutMachine(m);
    var v1 := Applied(v, e);
    if ip in v.pools[pool].members {
      LegalCons(v, pool, n, e, []);
      AppliedCons(v, e, []);
    } else {
      var e' := PutPool(BoundPool(v.pools[pool], ip));
      assert [e'] == [e'] + [];
      OneMore(v.pools[pool].members, ip);
      assert Rosters(v1, pool, e'.pool, mac);
      LegalCons(v1, pool, n, e', []);
      AppliedCons(v1, e', []);
      LegalCons(v, pool, n, e, [e']);
      AppliedCons(v, e, [e']);
    }
  }

  lemma BindLegal(v: Inventory, env: Env, n: nat, mac: string, node: NodeInfo, claimed: set<string>)
    requires Keyed(v) && env.pool in v.pools && InPool(v, env.pool, mac) && v.hosts[mac].state == Provisioning
    requires forall k :: InPool(v, env.pool, k) && v.hosts[k].addr != "" ==> v.hosts[k].addr in claimed
    requires node.internalIP != "" && node.internalIP !in claimed
    ensures var es := BindEffects(v, env.pool, mac, node, env.role);
            var u := AppliedAll(v, es);
            && AllLegal(v, env.pool, n, es)
            && OneMoved(v, u, mac, HostReady) && u.hosts[mac].addr == node.internalIP
  {
    var ip, h := node.internalIP, v.hosts[mac];
    var e := PutHost(h.(addr := ip, state := HostReady, message := ""));
    var m := if ip in v.machines then v.machines[ip] else Machine(h.cluster, env.pool, ip, env.role, None, 0);
    var rest := [PutMachine(m)] + (if ip in v.pools[env.pool].members then [] else [PutPool(BoundPool(v.pools[env.pool], ip))]);
    assert BindEffects(v, env.pool, mac, node, env.role) == [e] + rest;
    BindHostLegal(v, env, n, mac, ip, claimed);
    BindRestLegal(Applied(v, e), env.pool, n, m, ip, mac);
    LegalCons(v, env.pool, n, e, rest);
    AppliedCons(v, e, rest);
    HostMoved(v, AppliedAll(Applied(v, e), rest), e.host);
  }

  lemma HostMoved(v: Inventory, u: Inventory, h: Host)
    requires h.mac in v.hosts && v.hosts[h.mac].state == Provisioning && Keyed(u) && u.hosts == v.hosts[h.mac := h]
    requires h.pool == v.hosts[h.mac].pool && h.labels == v.hosts[h.mac].labels && u.pools.Keys == v.pools.Keys
    requires forall x :: x in v.pools ==> u.pools[x].replicas == v.pools[x].replicas && u.pools[x].selector == v.pools[x].selector
    ensures OneMoved(v, u, h.mac, h.state)
  {
  }

  lemma FailLegal(v: Inventory, env: Env, n: nat, mac: string)
    requires Keyed(v) && InPool(v, env.pool, mac) && v.hosts[mac].state == Provisioning
    ensures var es := [PutHost(FailedHost(v.hosts[mac]))];
            var u := AppliedAll(v, es);
            && AllLegal(v, env.pool, n, es)
            && OneMoved(v, u, mac, HostFailed) && u.hosts[mac].addr == v.hosts[mac].addr && u.pools == v.pools
  {
    var e := PutHost(FailedHost(v.hosts[mac]));
    assert [e] == [e] + [];
    LegalCons(v, env.pool, n, e, []);
    AppliedCons(v, e, []);
  }

  /** Moving the first host keeps the rest ready to be advanced. */
  lemma PrimedNext(v: Inventory, u: Inventory, env: Env, listed: map<string, Host>, keys: seq<string>, claimed: set<string>,
                   claimed': set<string>, s: HostState)
    requires Primed(v, env, listed, keys, claimed) && keys != [] && OneMoved(v, u, keys[0], s)
    requires claimed <= claimed' && (u.hosts[keys[0]].addr != "" ==> u.hosts[keys[0]].addr in claimed')
    ensures Primed(u, env, listed, keys[1..], claimed')
  {
    forall k | k in keys[1..] ensures InPool(u, env.pool, k) && k in listed && listed[k] == u.hosts[k] { AscendingTail(keys, k); }
    forall k | InPool(u, env.pool, k) && u.hosts[k].addr != "" ensures u.hosts[k].addr in claimed' {
      if k != keys[0] { assert InPool(v, env.pool, k); }
    }
  }

  /** What advancing gives: legal effects, the frame, and true counters. */
  ghost predicate Advanced(v: Inventory, env: Env, n: nat, keys: seq<string>, p: Progress)
  {
    var w := AppliedAll(v, p.effects);
    AllLegal(v, env.pool, n, p.effects) && Keyed(w) && Framed(v, w, keys) && Counted(w, keys, p)
  }

  /** Effects on the first host, then the rest. */
  lemma AdvanceCompose(v: Inventory, env: Env, n: nat, keys: seq<string>, es: seq<Effect>, p: Progress, q: Progress, s: HostState)
    requires keys != [] && Ascending(keys) && AllLegal(v, env.pool, n, es) && OneMoved(v, AppliedAll(v, es), keys[0], s) && Awaited(s)
    requires Advanced(AppliedAll(v, es), env, n, keys[1..], q) && p.effects == es + q.effects
    requires p.ready == q.ready + (if s == HostReady then 1 else 0)
    requires p.inflight == q.inflight + (if s == Provisioning then 1 else 0)
    requires p.failed == q.failed + (if s == HostFailed then 1 else 0)
    ensures Advanced(v, env, n, keys, p)
  {
    var u := AppliedAll(v, es);
    var w := AppliedAll(u, q.effects);
    LegalConcat(v, env.pool, n, es, q.effects);
    AppliedConcat(v, es, q.effects);
    FrameCompose(v, u, w, keys, s);
    CountCompose(u, w, keys, p, q, s);
  }

  /** The first host joined: bind it, then advance the rest. */
  lemma AdvanceJoined(v: Inventory, env: Env, n: nat, listed: map<string, Host>, keys: seq<string>, claimed: set<string>)
    requires Primed(v, env, listed, keys, claimed) && keys != [] && keys[0] in v.hosts && v.hosts[keys[0]].state == Provisioning
    requires NewJoined(env.nodes, claimed, env.role).Some?
    ensures Advanced(v, env, n, keys, Advance(v, env, listed, keys, claimed))
    decreases |keys|, 0
  {
    var node := NewJoined(env.nodes, claimed, env.role).value;
    var es := BindEffects(v, env.pool, keys[0], node, env.role);
    var u := AppliedAll(v, es);
    assert keys[0] in keys;
    BindLegal(v, env, n, keys[0], node, claimed);
    PrimedNext(v, u, env, listed, keys, claimed, claimed + {node.internalIP}, HostReady);
    AdvanceLegal(u, env, n, listed, keys[1..], claimed + {node.internalIP});
    var q, p := Advance(u, env, listed, keys[1..], claimed + {node.internalIP}), Advance(v, env, listed, keys, claimed);
    AdvanceFirst(v, env, listed, keys, claimed);
    AdvanceCompose(v, env, n, keys, es, p, q, HostReady);
  }

  /** What the walk does about its first host. */
  lemma AdvanceFirst(v: Inventory, env: Env, listed: map<string, Host>, keys: seq<string>, claimed: set<string>)
    requires env.pool in v.pools && (forall k :: k in keys ==> k in listed && k in v.hosts) && keys != []
    requires listed[keys[0]].state == Provisioning
    ensures var p, joined := Advance(v, env, listed, keys, claimed), NewJoined(env.nodes, claimed, env.role);
            && (joined.Some? ==>
                  var es := BindEffects(v, env.pool, keys[0], joined.value, env.role);
                  var q := Advance(AppliedAll(v, es), env, listed, keys[1..], claimed + {joined.value.internalIP});
                  p == q.(effects := es + q.effects, ready := q.ready + 1))
            && (joined.None? && TimedOut(listed[keys[0]], env.now, env.timeout) ==>
                  var es := [PutHost(FailedHost(v.hosts[keys[0]]))];
                  var q := Advance(AppliedAll(v, es), env, listed, keys[1..], claimed);
                  p == q.(effects := es + q.effects, failed := q.failed + 1))
  {
  }

  /** The first host is overdue: fail it, then advance the rest. */
  lemma AdvanceOverdue(v: Inventory, env: Env, n: nat, listed: map<string, Host>, keys: seq<string>, claimed: set<string>)
    requires Primed(v, env, listed, keys, claimed) && keys != [] && keys[0] in v.hosts && v.hosts[keys[0]].state == Provisioning
    requires NewJoined(env.nodes, claimed, env.role).None? && TimedOut(v.hosts[keys[0]], env.now, env.timeout)
    ensures Advanced(v, env, n, keys, Advance(v, env, listed, keys, claimed))
    decreases |keys|, 0
  {
    var es := [PutHost(FailedHost(v.hosts[keys[0]]))];
    var u := AppliedAll(v, es);
    assert keys[0] in keys;
    FailLegal(v, env, n, keys[0]);
    PrimedNext(v, u, env, listed, keys, claimed, claimed, HostFailed);
    AdvanceLegal(u, env, n, listed, keys[1..], claimed);
    var q, p := Advance(u, env, listed, keys[1..], claimed), Advance(v, env, listed, keys, claimed);
    AdvanceFirst(v, env, listed, keys, claimed);
    AdvanceCompose(v, env, n, keys, es, p, q, HostFailed);
  }

  lemma {:induction false} AdvanceLegal(v: Inventory, env: Env, n: nat, listed: map<string, Host>, keys: seq<string>, claimed: set<string>)
    requires Primed(v, env, listed, keys, claimed)
    ensures Advanced(v, env, n, keys, Advance(v, env, listed, keys, claimed))
    decreases |keys|, 1
  {
    if keys != [] {
      assert keys[0] in keys;
      var h := v.hosts[keys[0]];
      if h.state == Provisioning && NewJoined(env.nodes, claimed, env.role).Some? {
        AdvanceJoined(v, env, n, listed, keys, claimed);
      } else if h.state == Provisioning && TimedOut(h, env.now, env.timeout) {
        AdvanceOverdue(v, env, n, listed, keys, claimed);
      } else {
        AdvanceIdle(v, env, n, listed, keys, claimed);
      }
    }
  }

  /** A host that is left as it is only counts. */
  lemma AdvanceSkips(v: Inventory, env: Env, listed: map<string, Host>, keys: seq<string>, claimed: set<string>)
    requires env.pool in v.pools && forall k :: k in keys ==> k in listed && k in v.hosts
    requires keys != []
    requires listed[keys[0]].state == Provisioning ==>
               NewJoined(env.nodes, claimed, env.role).None? && !TimedOut(listed[keys[0]], env.now, env.timeout)
    ensures var p, q, s := Advance(v, env, listed, keys, claimed), Advance(v, env, listed, keys[1..], claimed), listed[keys[0]].state;
            && p.effects == q.effects
            && p.ready == q.ready + (if s == HostReady then 1 else 0)
            && p.inflight == q.inflight + (if s == Provisioning then 1 else 0)
            && p.failed == q.failed + (if s == HostFailed then 1 else 0)
  {
  }

  /** The first host is left as it is. */
  lemma AdvanceIdle(v: Inventory, env: Env, n: nat, listed: map<string, Host>, keys: seq<string>, claimed: set<string>)
    requires Primed(v, env, listed, keys, claimed) && keys != [] && keys[0] in v.hosts
    requires v.hosts[keys[0]].state == Provisioning ==>
               NewJoined(env.nodes, claimed, env.role).None? && !TimedOut(v.hosts[keys[0]], env.now, env.timeout)
    ensures Advanced(v, env, n, keys, Advance(v, env, listed, keys, claimed))
    decreases |keys|, 0
  {
    assert keys[0] in keys;
    var s := v.hosts[keys[0]].state;
    AdvanceSkips(v, env, listed, keys, claimed);
    PrimedNext(v, v, env, listed, keys, claimed, claimed, s);
    AdvanceLegal(v, env, n, listed, keys[1..], claimed);
    var q := Advance(v, env, listed, keys[1..], claimed);
    var p := Advance(v, env, listed, keys, claimed);
    SkipCompose(v, env, n, keys, p, q, s);
  }

  lemma SkipCompose(v: Inventory, env: Env, n: nat, keys: seq<string>, p: Progress, q: Progress, s: HostState)
    requires keys != [] && Ascending(keys) && Keyed(v) && keys[0] in v.hosts && v.hosts[keys[0]].state == s
    requires Advanced(v, env, n, keys[1..], q) && p.effects == q.effects
    requires p.ready == q.ready + (if s == HostReady then 1 else 0)
    requires p.inflight == q.inflight + (if s == Provisioning then 1 else 0)
    requires p.failed == q.failed + (if s == HostFailed then 1 else 0)
    ensures Advanced(v, env, n, keys, p)
  {
    var w := AppliedAll(v, q.effects);
    FrameCompose(v, v, w, keys, s);
    CountCompose(v, w, keys, p, q, s);
  }

  // ----- settling -----

  lemma ScaleInLegal(w: Inventory, env: Env, n: nat, listed: map<string, Host>, keys: seq<string>)
    requires Keyed(w) && env.pool in w.pools && Count(w, env.pool, HostReady) > n
    requires forall k :: k in keys ==> k in listed && k in w.hosts && InPool(w, env.pool, k)
    requires forall k :: k in keys && listed[k].state == HostReady ==> w.hosts[k] == listed[k]
    ensures AllLegal(w, env.pool, n, ScaleInEffects(w, env, listed, keys))
  {
    var victim := Victim(listed, keys);
    if victim.Some? {
      var mac := victim.value;
      var addr := listed[mac].addr;
      var name := FirstName(env.nodes, addr);
      var forget := if addr == "" then []
        else [DropMachine(addr), PutPool(w.pools[env.pool].(members := Without(w.pools[env.pool].members, addr)))];
      var last := PutHost(Released(w.hosts[mac]));
      ForgetLegal(w, env.pool, n, mac, addr);
      ReleaseLegal(AppliedAll(w, forget), env.pool, n, mac, w.hosts[mac]);
      LegalConcat(w, env.pool, n, forget, [last]);
      NodeCallsLegal(w, env.pool, n, name, mac, forget + [last]);
    }
  }

  /** Draining and unstaging in front of legal effects. */
  lemma NodeCallsLegal(w: Inventory, pool: string, n: nat, name: string, mac: string, rest: seq<Effect>)
    requires InPool(w, pool, mac) && w.hosts[mac].state == HostReady && Count(w, pool, HostReady) > n
    requires AllLegal(w, pool, n, rest)
    ensures AllLegal(w, pool, n, (if name != "" then [DrainNode(name)] else []) + ([UnstageBoot(mac)] + rest))
  {
    LegalCons(w, pool, n, UnstageBoot(mac), rest);
    if name != "" {
      LegalCons(w, pool, n, DrainNode(name), [UnstageBoot(mac)] + rest);
    } else {
      assert [] + ([UnstageBoot(mac)] + rest) == [UnstageBoot(mac)] + rest;
    }
  }

  lemma ForgetLegal(w: Inventory, pool: string, n: nat, mac: string, addr: string)
    requires Keyed(w) && pool in w.pools && Count(w, pool, HostReady) > n
    requires InPool(w, pool, mac) && w.hosts[mac].state == HostReady && w.hosts[mac].addr == addr
    ensures var forget := if addr == "" then []
              else [DropMachine(addr), PutPool(w.pools[pool].(members := Without(w.pools[pool].members, addr)))];
            AllLegal(w, pool, n, forget) && AppliedAll(w, forget).hosts == w.hosts
  {
    if addr != "" {
      var e, e' := DropMachine(addr), PutPool(w.pools[pool].(members := Without(w.pools[pool].members, addr)));
      assert Legal(w, pool, n, e);
      var u := Applied(w, e);
      assert [e'] == [e'] + [] && [e, e'] == [e] + [e'];
      OthersStay(w.pools[pool].members, addr);
      assert Rosters(u, pool, e'.pool, mac);
      LegalCons(u, pool, n, e', []);
      AppliedCons(u, e', []);
      LegalCons(w, pool, n, e, [e']);
      AppliedCons(w, e, [e']);
    }
  }

  lemma {:induction false} OthersStay(members: seq<string>, addr: string)
    ensures SameBut(members, Without(members, addr), addr)
  {
    if members != [] { OthersStay(members[1..], addr); }
  }

  lemma OneMore(members: seq<string>, ip: string)
    ensures SameBut(members, Sort(members + [ip]), ip)
  {
    forall y | y != ip ensures y in Sort(members + [ip]) <==> y in members { SortMembers(members + [ip], y); }
  }

  lemma ReleaseLegal(u: Inventory, pool: string, n: nat, mac: string, h: Host)
    requires InPool(u, pool, mac) && u.hosts[mac] == h && h.state == HostReady && h.mac == mac
    requires Count(u, pool, HostReady) > n
    ensures AllLegal(u, pool, n, [PutHost(Released(h))])
  {
    assert [PutHost(Released(h))] == [PutHost(Released(h))] + [];
    LegalCons(u, pool, n, PutHost(Released(h)), []);
  }

  lemma StageLegal(w: Inventory, pool: string, n: nat, mac: string, version: string, now: int)
    requires InPool(w, pool, mac) && w.hosts[mac].state == Registered && w.hosts[mac].mac == mac
    requires Quiet(w, pool) && Count(w, pool, HostReady) < n
    ensures AllLegal(w, pool, n, StageEffects(w, mac, version, now))
  {
    if version != "" {
      var e, e' := StageBoot(mac, version), PutHost(Started(w.hosts[mac], now));
      assert [e'] == [e'] + [] && [e, e'] == [e] + [e'];
      assert Applied(w, e) == w;
      LegalCons(w, pool, n, e', []);
      LegalCons(w, pool, n, e, [e']);
    }
  }

  lemma SettleLegal(v: Inventory, w: Inventory, env: Env, np: NodePool, version: string, keys: seq<string>, p: Progress)
    requires Keyed(w) && keys == PoolKeys(v, env.pool) && env.pool in v.pools && np == v.pools[env.pool]
    requires Framed(v, w, keys) && Counted(w, keys, p)
    ensures AllLegal(w, env.pool, np.replicas, Settle(w, env, np, version, v.hosts, keys, p))
  {
    assert forall k :: InPool(v, env.pool, k) <==> InPool(w, env.pool, k);
    PoolKeysSame(v, w, env.pool);
    if p.inflight == 0 && p.failed == 0 {
      if p.ready > np.replicas {
        ScaleInLegal(w, env, np.replicas, v.hosts, keys);
      } else if p.ready < np.replicas {
        var h := PickAvailable(v.hosts, keys, np.selector);
        if h.Some? { StageLegal(w, env.pool, np.replicas, h.value, version, env.now); }
      }
    }
  }

  /** Every effect of every pass obeys the lifecycle rules, from any inventory at all. */
  lemma PassLegal(v: Inventory, n: PassInput)
    requires Keyed(v) && Engaged(v, n)
    ensures AllLegal(v, n.pool, v.pools[n.pool].replicas, PassEffects(v, n))
  {
    var env, np, keys := EnvOf(v, n), v.pools[n.pool], PoolKeys(v, n.pool);
    var claimed := ClaimedAddrs(v, keys);
    assert Primed(v, env, v.hosts, keys, claimed) by {
      forall k | InPool(v, env.pool, k) && v.hosts[k].addr != "" ensures v.hosts[k].addr in claimed { assert k in keys; }
    }
    AdvanceLegal(v, env, np.replicas, v.hosts, keys, claimed);
    var p := Advance(v, env, v.hosts, keys, claimed);
    var w := AppliedAll(v, p.effects);
    var version := StageVersion(np, n.cl.value);
    SettleLegal(v, w, env, np, version, keys, p);
    LegalConcat(v, n.pool, np.replicas, p.effects, Settle(w, env, np, version, v.hosts, keys, p));
  }
}
