/** Registering a host again: it keeps its lifecycle state and address, takes the new pool, and forgets its start time. */
module ProvisionMoves {
  import opened Basics
  import opened Handlers
  import opened Kube
  import opened ProvisionConsistency
  import opened ProvisionLifecycle
  import opened ProvisionModel
  import opened ProvisionTheorems
  import opened Records
  import opened Text

  datatype Move =
    | Usual(step: Step)
    | Reregister(mac: string, pool: string, labels: map<string, string>, role: Role)

  /** The server refuses an unknown pool; otherwise the host becomes what the handler writes. */
  predicate Allowed(v: Inventory, m: Move)
  {
    m.Reregister? && m.mac in v.hosts && (m.pool == "" || m.pool in v.pools)
  }

  function Again(h: Host, m: Move): Host
    requires m.Reregister?
  {
    HostAfter(UpsertHost(h.cluster, h.mac, m.pool, m.role, m.labels), Some(HostRec(h)))
  }

  ghost function Moved(v: Inventory, m: Move): Inventory
  {
    match m
    case Usual(s) => Do(v, s)
    case Reregister(mac, _, _, _) => if Allowed(v, m) then v.(hosts := v.hosts[mac := Again(v.hosts[mac], m)]) else v
  }

  ghost function Moves(v: Inventory, ms: seq<Move>): Inventory
    decreases |ms|
  {
    if ms == [] then v else Moves(Moved(v, ms[0]), ms[1..])
  }

  /** The pool the host arrives in has nothing in flight if the host is, and nobody at its address. */
  ghost predicate Welcome(v: Inventory, m: Move, pool: string)
    requires m.Reregister? && m.mac in v.hosts
  {
    var h := v.hosts[m.mac];
    && (h.state == Provisioning ==> forall k :: InPool(v, pool, k) ==> v.hosts[k].state != Provisioning)
    && (h.state != HostUnspecified && h.addr != "" ==> forall k :: InPool(v, pool, k) ==> v.hosts[k].addr != h.addr)
  }

  /** A host that leaves, stays away or stays put disturbs nothing. */
  lemma StaySole(v: Inventory, u: Inventory, mac: string, h: Host, pool: string)
    requires Sole(v, pool) && u.hosts == v.hosts[mac := h]
    requires h.pool == pool ==>
               InPool(v, pool, mac) && (h.state == Provisioning ==> v.hosts[mac].state == Provisioning) && (h.addr == "" || h.addr == v.hosts[mac].addr)
    ensures Sole(u, pool)
  {
    assert forall k :: InPool(u, pool, k) ==> InPool(v, pool, k);
  }

  /** One that arrives must be alone in flight and alone at its address. */
  lemma ArriveSole(v: Inventory, u: Inventory, mac: string, h: Host, pool: string)
    requires Sole(v, pool) && u.hosts == v.hosts[mac := h] && h.pool == pool && !InPool(v, pool, mac)
    ensures Sole(u, pool) <==>
              && (h.state == Provisioning ==> forall k :: InPool(v, pool, k) ==> v.hosts[k].state != Provisioning)
              && (h.addr != "" ==> forall k :: InPool(v, pool, k) ==> v.hosts[k].addr != h.addr)
  {
    assert InPool(u, pool, mac);
    assert forall k :: k != mac ==> (InPool(u, pool, k) <==> InPool(v, pool, k)) && (InPool(v, pool, k) ==> u.hosts[k] == v.hosts[k]);
    if Sole(u, pool) {
      forall k | InPool(v, pool, k) ensures !(h.state == Provisioning && v.hosts[k].state == Provisioning) && (h.addr != "" ==> v.hosts[k].addr != h.addr) {
        assert InPool(u, pool, k) && k != mac;
      }
    }
  }

  lemma MoveSole(v: Inventory, m: Move, pool: string)
    requires Keyed(v) && Allowed(v, m) && Sole(v, pool)
    ensures Sole(Moved(v, m), pool) <==> (m.pool == pool && v.hosts[m.mac].pool != pool ==> Welcome(v, m, pool))
  {
    var u, h := Moved(v, m), Again(v.hosts[m.mac], m);
    if m.pool == pool && v.hosts[m.mac].pool != pool {
      ArriveSole(v, u, m.mac, h, pool);
    } else {
      StaySole(v, u, m.mac, h, pool);
    }
  }

  /**
   * Registering a host again keeps a pool to one operation in flight and to distinct addresses if and only if
   * the host does not arrive there from another pool, or is welcome.
   */
  lemma MoveKeepsOneInFlightIff(v: Inventory, m: Move, pool: string)
    requires Keyed(v) && Allowed(v, m) && OneInFlight(v, pool)
    ensures OneInFlight(Moved(v, m), pool) <==> (m.pool == pool && v.hosts[m.mac].pool != pool ==> Welcome(v, m, pool))
  {
    SoleIff(v, pool);
    SoleIff(Moved(v, m), pool);
    MoveSole(v, m, pool);
  }

  /** It keeps hosts, machines and memberships in step if and only if a Ready host is listed by the pool it arrives in. */
  lemma MoveKeepsConsistentIff(v: Inventory, m: Move)
    requires Consistent(v) && Allowed(v, m)
    ensures Consistent(Moved(v, m)) <==>
              (v.hosts[m.mac].state == HostReady ==> m.pool in v.pools && v.hosts[m.mac].addr in v.pools[m.pool].members)
  {
    var u, h := Moved(v, m), v.hosts[m.mac];
    assert u.hosts[m.mac].mac == m.mac;
    forall k | k in u.hosts && k != m.mac && u.hosts[k].state == HostReady ensures Bound(u, u.hosts[k]) { assert Bound(v, v.hosts[k]); }
    if h.state == HostReady { assert Bound(v, h); }
    assert u.hosts[m.mac].addr == h.addr;
    assert forall j, k :: j in u.hosts && k in u.hosts && j != k && u.hosts[j].addr != "" ==> u.hosts[j].addr != u.hosts[k].addr;
  }

  /** Every re-registration of the run that brings a host into `pool` finds it welcome there. */
  ghost predicate AlwaysWelcome(v: Inventory, ms: seq<Move>, pool: string)
    decreases |ms|
  {
    ms != [] ==>
      && (Allowed(v, ms[0]) && ms[0].pool == pool && v.hosts[ms[0].mac].pool != pool ==> Welcome(v, ms[0], pool))
      && AlwaysWelcome(Moved(v, ms[0]), ms[1..], pool)
  }

  lemma MoveKeeps(v: Inventory, m: Move, pool: string)
    requires Keyed(v) && OneInFlight(v, pool)
    requires Allowed(v, m) && m.pool == pool && v.hosts[m.mac].pool != pool ==> Welcome(v, m, pool)
    ensures Keyed(Moved(v, m)) && OneInFlight(Moved(v, m), pool)
  {
    if m.Usual? {
      StepKeeps(v, m.step, pool);
    } else if Allowed(v, m) {
      MoveKeepsOneInFlightIff(v, m, pool);
    }
  }

  /** One operation in flight over every run with re-registrations, as long as each arrival is welcome. */
  lemma {:induction false} OneInFlightWithMoves(v: Inventory, ms: seq<Move>, pool: string)
    requires Keyed(v) && OneInFlight(v, pool) && AlwaysWelcome(v, ms, pool)
    ensures OneInFlight(Moves(v, ms), pool)
    decreases |ms|
  {
    if ms != [] {
      MoveKeeps(v, ms[0], pool);
      OneInFlightWithMoves(Moved(v, ms[0]), ms[1..], pool);
    }
  }

  // ----- a host registered again while in flight never times out -----

  /** In flight with no start time: what re-registering a host in flight leaves. */
  ghost predicate Untimed(v: Inventory, mac: string)
  {
    mac in v.hosts && v.hosts[mac].state == Provisioning && v.hosts[mac].provisioningStartedAt.None?
  }

  lemma ReregisteredIsUntimed(v: Inventory, m: Move)
    requires Allowed(v, m)
    ensures Untimed(Moved(v, m), m.mac) <==> v.hosts[m.mac].state == Provisioning
  {
  }

  /** Writes of the host make it Ready. */
  ghost predicate OnlyBinds(es: seq<Effect>, mac: string)
  {
    forall i :: 0 <= i < |es| && es[i].PutHost? && es[i].host.mac == mac ==> es[i].host.state == HostReady
  }

  lemma {:induction false} BoundOrSame(v: Inventory, es: seq<Effect>, mac: string)
    requires OnlyBinds(es, mac) && mac in v.hosts
    ensures var u := AppliedAll(v, es); mac in u.hosts && (u.hosts[mac] == v.hosts[mac] || u.hosts[mac].state == HostReady)
    decreases |es|
  {
    if es != [] {
      var u := Applied(v, es[0]);
      BoundOrSame(u, es[1..], mac);
      if u.hosts[mac] != v.hosts[mac] { assert es[0].PutHost? && es[0].host.mac == mac && u.hosts[mac] == es[0].host; }
    }
  }

  lemma BindsThen(s: seq<Effect>, t: seq<Effect>, mac: string)
    requires OnlyBinds(s, mac) && OnlyBinds(t, mac)
    ensures OnlyBinds(s + t, mac)
  {
  }

  lemma BindBinds(v: Inventory, pool: string, k: string, node: NodeInfo, role: Role, mac: string)
    requires k in v.hosts && pool in v.pools
    ensures OnlyBinds(BindEffects(v, pool, k, node, role), mac)
  {
  }

  lemma {:induction false} AdvanceBinds(v: Inventory, env: Env, listed: map<string, Host>, keys: seq<string>, claimed: set<string>, mac: string)
    requires Keyed(v) && env.pool in v.pools && (forall k :: k in keys ==> k in listed && k in v.hosts)
    requires mac in keys ==> !TimedOut(listed[mac], env.now, env.timeout)
    ensures OnlyBinds(Advance(v, env, listed, keys, claimed).effects, mac)
    decreases |keys|
  {
    if keys != [] {
      var k, joined := keys[0], NewJoined(env.nodes, claimed, env.role);
      if listed[k].state != Provisioning {
        AdvanceBinds(v, env, listed, keys[1..], claimed, mac);
      } else {
        AdvanceFirst(v, env, listed, keys, claimed);
        if joined.Some? {
          var es, claimed' := BindEffects(v, env.pool, k, joined.value, env.role), claimed + {joined.value.internalIP};
          AppliedKeyed(v, es);
          AdvanceBinds(AppliedAll(v, es), env, listed, keys[1..], claimed', mac);
          BindBinds(v, env.pool, k, joined.value, env.role, mac);
          BindsThen(es, Advance(AppliedAll(v, es), env, listed, keys[1..], claimed').effects, mac);
        } else if TimedOut(listed[k], env.now, env.timeout) {
          var es := [PutHost(FailedHost(v.hosts[k]))];
          AppliedKeyed(v, es);
          AdvanceBinds(AppliedAll(v, es), env, listed, keys[1..], claimed, mac);
          BindsThen(es, Advance(AppliedAll(v, es), env, listed, keys[1..], claimed).effects, mac);
        } else {
          AdvanceBinds(v, env, listed, keys[1..], claimed, mac);
        }
      }
    }
  }

  /** Scaling in and staging go for hosts listed Ready or Registered. */
  lemma SettleSpares(w: Inventory, env: Env, np: NodePool, version: string, listed: map<string, Host>, keys: seq<string>, p: Progress, mac: string)
    requires Keyed(w) && env.pool in w.pools && (forall k :: k in keys ==> k in listed && k in w.hosts)
    requires mac in keys ==> listed[mac].state == Provisioning
    ensures OnlyBinds(Settle(w, env, np, version, listed, keys, p), mac)
  {
  }

  lemma PassBindsOrWaits(v: Inventory, n: PassInput, mac: string)
    requires Keyed(v) && Untimed(v, mac)
    ensures OnlyBinds(PassEffects(v, n), mac)
  {
    if Engaged(v, n) {
      var env, np, keys := EnvOf(v, n), v.pools[n.pool], PoolKeys(v, n.pool);
      var p := Advance(v, env, v.hosts, keys, ClaimedAddrs(v, keys));
      AdvanceBinds(v, env, v.hosts, keys, ClaimedAddrs(v, keys), mac);
      AppliedKeyed(v, p.effects);
      SettleSpares(AppliedAll(v, p.effects), env, np, StageVersion(np, n.cl.value), v.hosts, keys, p, mac);
    }
  }

  ghost predicate Unready(v: Inventory, mac: string)
  {
    mac in v.hosts && v.hosts[mac].state != HostReady
  }

  lemma MoveUntimed(v: Inventory, m: Move, mac: string)
    requires Keyed(v) && Untimed(v, mac)
    ensures Keyed(Moved(v, m)) && (Unready(Moved(v, m), mac) ==> Untimed(Moved(v, m), mac))
  {
    if m.Usual? && m.step.Pass? {
      var es := CutEffects(v, m.step.n, m.step.cut);
      PassBindsOrWaits(v, m.step.n, mac);
      BoundOrSame(v, es, mac);
      AppliedKeyed(v, es);
    }
  }

  /**
   * Over every run of passes on any pools, cut anywhere, edits and re-registrations, a host in flight with no start
   * time is never failed for being late: until it is Ready or deregistered it stays in flight.
   */
  lemma {:induction false} NeverTimesOut(v: Inventory, ms: seq<Move>, mac: string)
    requires Keyed(v) && Untimed(v, mac)
    requires forall i :: 0 <= i <= |ms| ==> Unready(Moves(v, ms[..i]), mac)
    ensures Untimed(Moves(v, ms), mac)
    decreases |ms|
  {
    if ms != [] {
      var u := Moved(v, ms[0]);
      assert ms[..1][1..] == [] && Moves(v, ms[..1]) == u;
      MoveUntimed(v, ms[0], mac);
      forall i | 0 <= i <= |ms| - 1 ensures Unready(Moves(u, ms[1..][..i]), mac) {
        assert ms[..i + 1][1..] == ms[1..][..i];
        assert Moves(v, ms[..i + 1]) == Moves(u, ms[1..][..i]);
      }
      NeverTimesOut(u, ms[1..], mac);
    }
  }

  // ----- the failing move -----

  function Booting(mac: string, pool: string): Host
  {
    Host("c", mac, pool, map[], "", Worker, Provisioning, "", 1, Some(0))
  }

  function Pool(name: string): NodePool
  {
    NodePool("c", name, Worker, [], Some("v1"), None, false, 1, 1, map[], [])
  }

  /** Two pools with one host in flight each. */
  function TwoPools(): Inventory
  {
    Inventory(map["a" := Booting("a", "w"), "b" := Booting("b", "x")], map[], map["w" := Pool("w"), "x" := Pool("x")])
  }

  lemma AloneInPool(v: Inventory, pool: string, mac: string)
    requires forall k :: InPool(v, pool, k) ==> k == mac
    ensures OneInFlight(v, pool)
  {
    SoleIff(v, pool);
  }

  lemma TwoPoolsKeyed(v: Inventory)
    requires v == TwoPools()
    ensures Keyed(v)
  {
  }

  lemma TwoPoolsAlone(v: Inventory, k: string)
    requires v == TwoPools()
    ensures (InPool(v, "w", k) ==> k == "a") && (InPool(v, "x", k) ==> k == "b")
  {
    assert "w"[0] != "x"[0];
  }

  lemma TwoPoolsSole(v: Inventory)
    requires v == TwoPools()
    ensures OneInFlight(v, "w") && OneInFlight(v, "x")
  {
    forall k ensures (InPool(v, "w", k) ==> k == "a") && (InPool(v, "x", k) ==> k == "b") { TwoPoolsAlone(v, k); }
    AloneInPool(v, "w", "a");
    AloneInPool(v, "x", "b");
  }

  /** Moving the one into the pool of the other puts two in flight there. */
  lemma MoveBreaks(v: Inventory, m: Move)
    requires v == TwoPools() && m == Reregister("b", "w", map[], Worker)
    ensures Keyed(v) && OneInFlight(v, "w") && OneInFlight(v, "x") && Allowed(v, m) && !OneInFlight(Moved(v, m), "w")
  {
    TwoPoolsKeyed(v);
    TwoPoolsSole(v);
    assert InPool(v, "w", "a");
    MoveKeepsOneInFlightIff(v, m, "w");
  }
}
