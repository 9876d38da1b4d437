/** What the lifecycle rules give over whole runs: one operation in flight, bounds, and convergence. */
module ProvisionTheorems {
  import opened Basics
  import opened Kube
  import opened ProvisionLifecycle
  import opened ProvisionModel
  import opened Records
  import opened Text

  // ----- runs: cut passes over any pools, and operator edits between them -----

  datatype Step =
    | Pass(n: PassInput, cut: nat)
    | SetReplicas(pool: string, replicas: nat)
    | Register(host: Host)
    | Deregister(mac: string)

  ghost function Do(v: Inventory, s: Step): Inventory
  {
    match s
    case Pass(n, cut) => PassCut(v, n, cut)
    case SetReplicas(p, r) => if p in v.pools then v.(pools := v.pools[p := v.pools[p].(replicas := r)]) else v
    case Register(h) =>
      if h.mac !in v.hosts && h.state == Registered && h.addr == "" then v.(hosts := v.hosts[h.mac := h]) else v
    case Deregister(mac) => v.(hosts := v.hosts - {mac})
  }

  ghost function Run(v: Inventory, steps: seq<Step>): Inventory
    decreases |steps|
  {
    if steps == [] then v else Run(Do(v, steps[0]), steps[1..])
  }

  /** The effects a cut pass got to. */
  ghost function CutEffects(v: Inventory, n: PassInput, cut: nat): seq<Effect>
  {
    var es := PassEffects(v, n);
    if cut < |es| then es[..cut] else es
  }

  lemma CutLegal(v: Inventory, n: PassInput, cut: nat)
    requires Keyed(v) && Engaged(v, n)
    ensures AllLegal(v, n.pool, v.pools[n.pool].replicas, CutEffects(v, n, cut))
  {
    PassLegal(v, n);
    var es := PassEffects(v, n);
    if cut < |es| { LegalAt(v, n.pool, v.pools[n.pool].replicas, es, cut); }
  }

  // ----- one operation in flight -----

  lemma {:induction false} UniqueTally(hosts: map<string, Host>, keys: seq<string>, s: HostState)
    requires Ascending(keys) && forall k :: k in keys ==> k in hosts
    requires forall j, k :: j in keys && k in keys && hosts[j].state == s && hosts[k].state == s ==> j == k
    ensures Tally(hosts, keys, s) <= 1
    decreases |keys|
  {
    if keys != [] {
      assert keys[0] in keys;
      forall x | x in keys[1..] ensures x in keys && x != keys[0] { AscendingTail(keys, x); }
      UniqueTally(hosts, keys[1..], s);
      if hosts[keys[0]].state == s && Tally(hosts, keys[1..], s) > 0 {
        var k := Witness(hosts, keys[1..], s);
      }
    }
  }

  lemma {:induction false} Witness(hosts: map<string, Host>, keys: seq<string>, s: HostState) returns (k: string)
    requires (forall x :: x in keys ==> x in hosts) && Tally(hosts, keys, s) > 0
    ensures k in keys && hosts[k].state == s
    decreases |keys|
  {
    if hosts[keys[0]].state == s { k := keys[0]; } else { k := Witness(hosts, keys[1..], s); }
  }

  /** OneInFlight said without counting. */
  ghost predicate Sole(v: Inventory, pool: string)
  {
    && (forall j, k :: InPool(v, pool, j) && InPool(v, pool, k) && v.hosts[j].state == Provisioning && v.hosts[k].state == Provisioning ==> j == k)
    && (forall j, k :: InPool(v, pool, j) && InPool(v, pool, k) && j != k && v.hosts[j].addr != "" ==> v.hosts[j].addr != v.hosts[k].addr)
  }

  lemma SoleIff(v: Inventory, pool: string)
    ensures OneInFlight(v, pool) <==> Sole(v, pool)
  {
    var keys := PoolKeys(v, pool);
    if OneInFlight(v, pool) {
      forall j, k | InPool(v, pool, j) && InPool(v, pool, k) && v.hosts[j].state == Provisioning && v.hosts[k].state == Provisioning
        ensures j == k
      {
        TallyTwo(v.hosts, keys, Provisioning, j, k);
      }
    }
    if Sole(v, pool) {
      forall j, k | j in keys && k in keys && v.hosts[j].state == Provisioning && v.hosts[k].state == Provisioning ensures j == k {
        assert InPool(v, pool, j) && InPool(v, pool, k);
      }
      UniqueTally(v.hosts, keys, Provisioning);
    }
  }

  lemma SoleSub(v: Inventory, w: Inventory, pool: string)
    requires Sole(v, pool)
    requires forall k :: InPool(w, pool, k) ==>
               (InPool(v, pool, k) && v.hosts[k] == w.hosts[k]) || (w.hosts[k].state == Registered && w.hosts[k].addr == "")
    ensures Sole(w, pool)
  {
    forall j, k | InPool(w, pool, j) && InPool(w, pool, k) && j != k && w.hosts[j].addr != "" ensures w.hosts[j].addr != w.hosts[k].addr {
      assert InPool(v, pool, j);
      if w.hosts[k].addr != "" { assert InPool(v, pool, k); }
    }
  }

  lemma EditKeeps(v: Inventory, s: Step, pool: string)
    requires !s.Pass? && OneInFlight(v, pool)
    ensures OneInFlight(Do(v, s), pool)
  {
    SoleIff(v, pool);
    SoleSub(v, Do(v, s), pool);
    SoleIff(Do(v, s), pool);
  }

  lemma PassKeeps(v: Inventory, n: PassInput, cut: nat, pool: string)
    requires Keyed(v) && OneInFlight(v, pool)
    ensures Keyed(PassCut(v, n, cut)) && OneInFlight(PassCut(v, n, cut), pool)
  {
    if Engaged(v, n) {
      var es, r := CutEffects(v, n, cut), v.pools[n.pool].replicas;
      CutLegal(v, n, cut);
      LegalRun(v, n.pool, r, es);
      if pool != n.pool { LegalRunElsewhere(v, n.pool, r, es, pool); }
    }
  }

  /**
   * Over every run of passes on any pools, with any node lists and clocks, cut anywhere, with replica
   * edits, registrations and deregistrations between them: at most one host of a pool is in flight, and
   * no two hosts of a pool share an address.
   */
  lemma {:induction false} OneOperationInFlight(v: Inventory, steps: seq<Step>, pool: string)
    requires Keyed(v) && OneInFlight(v, pool)
    ensures OneInFlight(Run(v, steps), pool)
    decreases |steps|
  {
    if steps != [] {
      StepKeeps(v, steps[0], pool);
      OneOperationInFlight(Do(v, steps[0]), steps[1..], pool);
    }
  }

  lemma StepKeeps(v: Inventory, s: Step, pool: string)
    requires Keyed(v) && OneInFlight(v, pool)
    ensures Keyed(Do(v, s)) && OneInFlight(Do(v, s), pool)
  {
    if s.Pass? {
      PassKeeps(v, s.n, s.cut, pool);
    } else {
      EditKeeps(v, s, pool);
    }
  }

  /** Whenever a pass stages a host, nothing of the pool is in flight or failed, and the pool is short of replicas. */
  lemma StagesOnlyWhenQuiet(v: Inventory, n: PassInput, i: nat)
    requires Keyed(v) && Engaged(v, n) && i < |PassEffects(v, n)| && PassEffects(v, n)[i].StageBoot?
    ensures var w := AppliedAll(v, PassEffects(v, n)[..i]);
            Quiet(w, n.pool) && Count(w, n.pool, HostReady) < v.pools[n.pool].replicas
  {
    PassLegal(v, n);
    LegalAt(v, n.pool, v.pools[n.pool].replicas, PassEffects(v, n), i);
  }

  /** However a pass is cut: it never overshoots the replicas, and never scales in below them. */
  lemma PassBounds(v: Inventory, n: PassInput, cut: nat)
    requires Keyed(v) && Engaged(v, n)
    ensures var w, r := PassCut(v, n, cut), v.pools[n.pool].replicas;
            && Count(w, n.pool, HostReady) + Count(w, n.pool, Provisioning)
                 <= Max(r, Count(v, n.pool, HostReady) + Count(v, n.pool, Provisioning))
            && Count(w, n.pool, HostReady) >= Min(r, Count(v, n.pool, HostReady))
  {
    CutLegal(v, n, cut);
    LegalRun(v, n.pool, v.pools[n.pool].replicas, CutEffects(v, n, cut));
  }

  // ----- convergence -----

  /** Twice the distance to the wanted replicas, with a host in flight counting half a step. */
  function Measure(r: nat, p: nat, n: nat): int
  {
    if r < n then 2 * (n - r) - p else 2 * (r - n) + p
  }

  ghost function Distance(v: Inventory, pool: string): int
    requires pool in v.pools
  {
    Measure(Count(v, pool, HostReady), Count(v, pool, Provisioning), v.pools[pool].replicas)
  }

  ghost function PassAll(v: Inventory, n: PassInput): Inventory
  {
    AppliedAll(v, PassEffects(v, n))
  }

  /** The staged host has joined, there is capacity if one more is needed, and nothing has failed. */
  ghost predicate Helpful(v: Inventory, n: PassInput)
  {
    && Engaged(v, n) && StageVersion(v.pools[n.pool], n.cl.value) != ""
    && Count(v, n.pool, HostFailed) == 0
    && (Count(v, n.pool, Provisioning) > 0 ==>
          NewJoined(n.nodes.value, ClaimedAddrs(v, PoolKeys(v, n.pool)), v.pools[n.pool].role).Some?)
    && (Count(v, n.pool, HostReady) + Count(v, n.pool, Provisioning) < v.pools[n.pool].replicas ==>
          exists k :: InPool(v, n.pool, k) && Available(v.hosts[k], v.pools[n.pool].selector))
  }

  /** With nothing in flight, advancing does nothing but count. */
  lemma {:induction false} AdvanceStill(v: Inventory, env: Env, listed: map<string, Host>, keys: seq<string>, claimed: set<string>)
    requires env.pool in v.pools && forall k :: k in keys ==> k in listed && k in v.hosts
    requires Tally(listed, keys, Provisioning) == 0
    ensures var p := Advance(v, env, listed, keys, claimed);
            && p.effects == [] && p.inflight == 0
            && p.ready == Tally(listed, keys, HostReady) && p.failed == Tally(listed, keys, HostFailed)
    decreases |keys|
  {
    if keys != [] { AdvanceStill(v, env, listed, keys[1..], claimed); }
  }

  /** With one host in flight and its node joined, advancing binds it. */
  lemma {:induction false} AdvanceBinds(v: Inventory, env: Env, listed: map<string, Host>, keys: seq<string>, claimed: set<string>)
    requires env.pool in v.pools && forall k :: k in keys ==> k in listed && k in v.hosts
    requires Tally(listed, keys, Provisioning) <= 1
    requires Tally(listed, keys, Provisioning) > 0 ==> NewJoined(env.nodes, claimed, env.role).Some?
    ensures var p := Advance(v, env, listed, keys, claimed);
            && p.inflight == 0
            && p.ready == Tally(listed, keys, HostReady) + Tally(listed, keys, Provisioning)
            && p.failed == Tally(listed, keys, HostFailed)
    decreases |keys|
  {
    if keys != [] {
      if listed[keys[0]].state == Provisioning {
        var n := NewJoined(env.nodes, claimed, env.role).value;
        var es := BindEffects(v, env.pool, keys[0], n, env.role);
        AdvanceStill(AppliedAll(v, es), env, listed, keys[1..], claimed + {n.internalIP});
      } else {
        AdvanceBinds(v, env, listed, keys[1..], claimed);
      }
    }
  }

  lemma StageCounts(w: Inventory, pool: string, mac: string, version: string, now: int)
    requires Keyed(w) && InPool(w, pool, mac) && w.hosts[mac].state == Registered && version != ""
    ensures var u := AppliedAll(w, StageEffects(w, mac, version, now));
            && u.pools == w.pools
            && Count(u, pool, HostReady) == Count(w, pool, HostReady)
            && Count(u, pool, Provisioning) == Count(w, pool, Provisioning) + 1
            && Count(u, pool, HostFailed) == Count(w, pool, HostFailed)
  {
    var h := Started(w.hosts[mac], now);
    StageResult(w, mac, version, now);
    CountAfter(w, pool, h, HostReady);
    CountAfter(w, pool, h, Provisioning);
    CountAfter(w, pool, h, HostFailed);
  }

  lemma StageResult(w: Inventory, mac: string, version: string, now: int)
    requires mac in w.hosts && version != ""
    ensures AppliedAll(w, StageEffects(w, mac, version, now)) == Applied(w, PutHost(Started(w.hosts[mac], now)))
  {
    var e, e' := StageBoot(mac, version), PutHost(Started(w.hosts[mac], now));
    assert [e, e'] == [e] + ([e'] + []);
    AppliedCons(w, e, [e'] + []);
    AppliedCons(w, e', []);
  }

  /** The inventory without the victim's machine and membership, and with the victim released. */
  function ScaledIn(w: Inventory, pool: string, mac: string, addr: string): Inventory
    requires mac in w.hosts && pool in w.pools
  {
    var np := w.pools[pool];
    Inventory(
      w.hosts[mac := Released(w.hosts[mac])],
      if addr == "" then w.machines else w.machines - {addr},
      if addr == "" then w.pools else w.pools[pool := np.(members := Without(np.members, addr))])
  }

  /** What a completed scale-in comes to. */
  lemma ScaleInResult(w: Inventory, env: Env, listed: map<string, Host>, keys: seq<string>, mac: string)
    requires Keyed(w) && env.pool in w.pools && (forall k :: k in keys ==> k in listed && k in w.hosts)
    requires Victim(listed, keys) == Some(mac)
    ensures AppliedAll(w, ScaleInEffects(w, env, listed, keys)) == ScaledIn(w, env.pool, mac, listed[mac].addr)
  {
    var addr, np := listed[mac].addr, w.pools[env.pool];
    var name := FirstName(env.nodes, addr);
    var drain := if name != "" then [DrainNode(name)] else [];
    var forget := if addr == "" then [] else [DropMachine(addr), PutPool(np.(members := Without(np.members, addr)))];
    var last := PutHost(Released(w.hosts[mac]));
    var tail := forget + [last];
    AppliedConcat(w, drain, [UnstageBoot(mac)] + tail);
    assert AppliedAll(w, drain) == w by { if name != "" { assert drain == [DrainNode(name)] + []; AppliedCons(w, DrainNode(name), []); } }
    AppliedCons(w, UnstageBoot(mac), tail);
    AppliedConcat(w, forget, [last]);
    ForgetResult(w, env.pool, addr, forget);
    var u := AppliedAll(w, forget);
    assert [last] == [last] + [];
    AppliedCons(u, last, []);
  }

  lemma ForgetResult(w: Inventory, pool: string, addr: string, forget: seq<Effect>)
    requires pool in w.pools && w.pools[pool].name == pool
    requires var np := w.pools[pool];
             forget == if addr == "" then [] else [DropMachine(addr), PutPool(np.(members := Without(np.members, addr)))]
    ensures var np := w.pools[pool];
            AppliedAll(w, forget) ==
              if addr == "" then w
              else w.(machines := w.machines - {addr}, pools := w.pools[pool := np.(members := Without(np.members, addr))])
  {
    if addr != "" {
      assert forget == [forget[0]] + ([forget[1]] + []);
      AppliedCons(w, forget[0], [forget[1]] + []);
      AppliedCons(Applied(w, forget[0]), forget[1], []);
    }
  }

  lemma ScaleInCounts(w: Inventory, env: Env, listed: map<string, Host>, keys: seq<string>)
    requires Keyed(w) && env.pool in w.pools
    requires forall k :: k in keys ==> k in listed && k in w.hosts && InPool(w, env.pool, k)
    requires forall k :: k in keys && listed[k].state == HostReady ==> w.hosts[k] == listed[k]
    requires Victim(listed, keys).Some?
    ensures var u := AppliedAll(w, ScaleInEffects(w, env, listed, keys));
            && env.pool in u.pools && u.pools[env.pool].replicas == w.pools[env.pool].replicas
            && Count(w, env.pool, HostReady) > 0
            && Count(u, env.pool, HostReady) == Count(w, env.pool, HostReady) - 1
            && Count(u, env.pool, Provisioning) == Count(w, env.pool, Provisioning)
            && Count(u, env.pool, HostFailed) == Count(w, env.pool, HostFailed)
  {
    var mac := Victim(listed, keys).value;
    ScaleInResult(w, env, listed, keys, mac);
    var u := AppliedAll(w, ScaleInEffects(w, env, listed, keys));
    var u' := Applied(w, PutHost(Released(w.hosts[mac])));
    assert u.hosts == u'.hosts;
    PoolKeysSame(u, u', env.pool);
    CountAfter(w, env.pool, Released(w.hosts[mac]), HostReady);
    CountAfter(w, env.pool, Released(w.hosts[mac]), Provisioning);
    CountAfter(w, env.pool, Released(w.hosts[mac]), HostFailed);
  }

  /** The counts after binding: everything in flight has become ready. */
  lemma AfterBinding(v: Inventory, n: PassInput)
    requires Keyed(v) && OneInFlight(v, n.pool) && Helpful(v, n)
    ensures var env, keys := EnvOf(v, n), PoolKeys(v, n.pool);
            var p := Advance(v, env, v.hosts, keys, ClaimedAddrs(v, keys));
            var w := AppliedAll(v, p.effects);
            && p.inflight == 0 && p.failed == 0
            && p.ready == Count(v, n.pool, HostReady) + Count(v, n.pool, Provisioning)
            && Keyed(w) && Framed(v, w, keys) && PoolKeys(w, n.pool) == keys
            && Count(w, n.pool, HostReady) == p.ready && Count(w, n.pool, Provisioning) == 0 && Count(w, n.pool, HostFailed) == 0
  {
    var env, keys := EnvOf(v, n), PoolKeys(v, n.pool);
    var claimed := ClaimedAddrs(v, keys);
    AdvanceBinds(v, env, v.hosts, keys, claimed);
    assert Primed(v, env, v.hosts, keys, claimed) by {
      forall k | InPool(v, env.pool, k) && v.hosts[k].addr != "" ensures v.hosts[k].addr in claimed { assert k in keys; }
    }
    AdvanceLegal(v, env, v.pools[n.pool].replicas, v.hosts, keys, claimed);
    var w := AppliedAll(v, Advance(v, env, v.hosts, keys, claimed).effects);
    assert forall k :: InPool(v, n.pool, k) <==> InPool(w, n.pool, k);
    PoolKeysSame(v, w, n.pool);
  }

  /** After binding, one settling step. `r` is the count of ready hosts then. */
  ghost predicate SettledTo(u: Inventory, pool: string, n: nat, r: nat)
  {
    && pool in u.pools && u.pools[pool].replicas == n && Count(u, pool, HostFailed) == 0
    && Count(u, pool, HostReady) == (if r > n then r - 1 else r)
    && Count(u, pool, Provisioning) == (if r < n then 1 else 0)
  }

  lemma SettleResult(v: Inventory, w: Inventory, env: Env, version: string, keys: seq<string>, p: Progress)
    requires env.pool in v.pools && keys == PoolKeys(v, env.pool) && keys == PoolKeys(w, env.pool)
    requires Keyed(w) && Framed(v, w, keys) && version != "" && v.pools[env.pool].replicas > 0
    requires p.inflight == 0 && p.failed == 0 && Count(w, env.pool, HostReady) == p.ready
    requires Count(w, env.pool, Provisioning) == 0 && Count(w, env.pool, HostFailed) == 0
    requires p.ready > v.pools[env.pool].replicas ==> Count(v, env.pool, HostReady) > 0
    requires p.ready < v.pools[env.pool].replicas ==>
               exists k :: InPool(v, env.pool, k) && Available(v.hosts[k], v.pools[env.pool].selector)
    ensures SettledTo(AppliedAll(w, Settle(w, env, v.pools[env.pool], version, v.hosts, keys, p)), env.pool, v.pools[env.pool].replicas, p.ready)
  {
    var np := v.pools[env.pool];
    if p.ready > np.replicas {
      var k := Witness(v.hosts, keys, HostReady);
      ScaleInCounts(w, env, v.hosts, keys);
    } else if p.ready < np.replicas {
      StagedTo(v, w, env, version, keys, p);
    }
  }

  lemma StagedTo(v: Inventory, w: Inventory, env: Env, version: string, keys: seq<string>, p: Progress)
    requires env.pool in v.pools && keys == PoolKeys(v, env.pool) && keys == PoolKeys(w, env.pool)
    requires Keyed(w) && Framed(v, w, keys) && version != "" && p.inflight == 0 && p.failed == 0
    requires Count(w, env.pool, HostReady) == p.ready < v.pools[env.pool].replicas
    requires Count(w, env.pool, Provisioning) == 0 && Count(w, env.pool, HostFailed) == 0
    requires exists k :: InPool(v, env.pool, k) && Available(v.hosts[k], v.pools[env.pool].selector)
    ensures SettledTo(AppliedAll(w, Settle(w, env, v.pools[env.pool], version, v.hosts, keys, p)), env.pool, v.pools[env.pool].replicas, p.ready)
  {
    var k :| InPool(v, env.pool, k) && Available(v.hosts[k], v.pools[env.pool].selector);
    assert k in keys;
    var h := PickAvailable(v.hosts, keys, v.pools[env.pool].selector);
    assert Settle(w, env, v.pools[env.pool], version, v.hosts, keys, p) == StageEffects(w, h.value, version, env.now);
    StagedCounts(w, env.pool, h.value, version, env.now, v.pools[env.pool].replicas, p.ready);
  }

  lemma StagedCounts(w: Inventory, pool: string, mac: string, version: string, now: int, replicas: nat, ready: nat)
    requires Keyed(w) && InPool(w, pool, mac) && w.hosts[mac].state == Registered && version != "" && pool in w.pools
    requires w.pools[pool].replicas == replicas && Count(w, pool, HostReady) == ready < replicas
    requires Count(w, pool, Provisioning) == 0 && Count(w, pool, HostFailed) == 0
    ensures SettledTo(AppliedAll(w, StageEffects(w, mac, version, now)), pool, replicas, ready)
  {
    StageCounts(w, pool, mac, version, now);
  }

  /** A helpful pass with replicas fixed brings the pool strictly closer, until it is there. */
  lemma PassConverges(v: Inventory, n: PassInput)
    requires Keyed(v) && OneInFlight(v, n.pool) && Helpful(v, n) && Distance(v, n.pool) > 0
    ensures var u := PassAll(v, n);
            && n.pool in u.pools && u.pools[n.pool].replicas == v.pools[n.pool].replicas
            && 0 <= Distance(u, n.pool) < Distance(v, n.pool)
  {
    var env, keys, np := EnvOf(v, n), PoolKeys(v, n.pool), v.pools[n.pool];
    var p := Advance(v, env, v.hosts, keys, ClaimedAddrs(v, keys));
    var w := AppliedAll(v, p.effects);
    AfterBinding(v, n);
    var version := StageVersion(np, n.cl.value);
    SettleResult(v, w, env, version, keys, p);
    AppliedConcat(v, p.effects, Settle(w, env, np, version, v.hosts, keys, p));
    assert SettledTo(PassAll(v, n), n.pool, np.replicas, p.ready);
  }

  /** The distance is zero exactly when the pool has its replicas and nothing in flight. */
  lemma DistanceZeroIff(v: Inventory, pool: string)
    requires pool in v.pools && OneInFlight(v, pool)
    ensures Distance(v, pool) >= 0
    ensures Distance(v, pool) == 0 <==> Count(v, pool, HostReady) == v.pools[pool].replicas && Count(v, pool, Provisioning) == 0
  {
  }

  /** A converged pool is left alone, whatever the nodes and the clock say. */
  lemma ConvergedIsStable(v: Inventory, n: PassInput)
    requires Keyed(v) && OneInFlight(v, n.pool) && Engaged(v, n) && Distance(v, n.pool) == 0
    ensures PassEffects(v, n) == []
  {
    var env, keys := EnvOf(v, n), PoolKeys(v, n.pool);
    AdvanceStill(v, env, v.hosts, keys, ClaimedAddrs(v, keys));
  }

  ghost function PassesAll(v: Inventory, ns: seq<PassInput>): Inventory
    decreases |ns|
  {
    if ns == [] then v else PassesAll(PassAll(v, ns[0]), ns[1..])
  }

  /** Every pass made while the pool is not yet converged is helpful, and is for this pool. */
  ghost predicate HelpfulRun(v: Inventory, pool: string, ns: seq<PassInput>)
    decreases |ns|
  {
    ns != [] ==>
      && ns[0].pool == pool && pool in v.pools && Engaged(v, ns[0])
      && (Distance(v, pool) > 0 ==> Helpful(v, ns[0]))
      && HelpfulRun(PassAll(v, ns[0]), pool, ns[1..])
  }

  /** As many helpful passes as the distance always suffice: the pool has its replicas and nothing in flight. */
  lemma {:induction false} Converges(v: Inventory, pool: string, ns: seq<PassInput>)
    requires Keyed(v) && OneInFlight(v, pool) && pool in v.pools
    requires HelpfulRun(v, pool, ns) && |ns| >= Distance(v, pool)
    ensures var w := PassesAll(v, ns);
            && pool in w.pools && w.pools[pool].replicas == v.pools[pool].replicas
            && Count(w, pool, HostReady) == w.pools[pool].replicas && Count(w, pool, Provisioning) == 0
    decreases |ns|
  {
    DistanceZeroIff(v, pool);
    if ns != [] {
      var u := PassAll(v, ns[0]);
      PassKeeps(v, ns[0], |PassEffects(v, ns[0])|, pool);
      if Distance(v, pool) > 0 {
        PassConverges(v, ns[0]);
      } else {
        ConvergedIsStable(v, ns[0]);
      }
      Converges(u, pool, ns[1..]);
    }
  }
}
