/** What later passes do about half-finished work: when a half-removed host is finished, and what is never repaired. */
module ProvisionRepair {
  import opened Basics
  import opened Kube
  import opened ProvisionConsistency
  import opened ProvisionLifecycle
  import opened ProvisionModel
  import opened ProvisionTheorems
  import opened Records
  import opened Text

  // ----- when a pass takes a Ready host away -----

  /** With at most one host in flight, what the walk's counters come to. */
  lemma {:induction false} AdvanceTotals(v: Inventory, env: Env, listed: map<string, Host>, keys: seq<string>, claimed: set<string>)
    requires env.pool in v.pools && forall k :: k in keys ==> k in listed && k in v.hosts
    requires Tally(listed, keys, Provisioning) <= 1
    ensures var p := Advance(v, env, listed, keys, claimed);
            && p.ready + p.inflight + p.failed == Tally(listed, keys, HostReady) + Tally(listed, keys, Provisioning) + Tally(listed, keys, HostFailed)
            && (p.inflight == 0 && p.failed == 0 <==>
                  Tally(listed, keys, HostFailed) == 0 && (Tally(listed, keys, Provisioning) > 0 ==> NewJoined(env.nodes, claimed, env.role).Some?))
    decreases |keys|
  {
    if keys != [] {
      var joined := NewJoined(env.nodes, claimed, env.role);
      if listed[keys[0]].state != Provisioning {
        AdvanceTotals(v, env, listed, keys[1..], claimed);
      } else {
        AdvanceFirst(v, env, listed, keys, claimed);
        if joined.Some? {
          AdvanceStill(AppliedAll(v, BindEffects(v, env.pool, keys[0], joined.value, env.role)), env, listed, keys[1..], claimed + {joined.value.internalIP});
        } else if TimedOut(listed[keys[0]], env.now, env.timeout) {
          AdvanceStill(AppliedAll(v, [PutHost(FailedHost(v.hosts[keys[0]]))]), env, listed, keys[1..], claimed);
        } else {
          AdvanceStill(v, env, listed, keys[1..], claimed);
        }
      }
    }
  }

  /** Nothing failed, nothing still awaited, and too many hosts: read off the records and the node list. */
  ghost predicate TooMany(x: Inventory, n: PassInput)
  {
    && Engaged(x, n) && Count(x, n.pool, HostFailed) == 0
    && (Count(x, n.pool, Provisioning) > 0 ==>
          NewJoined(n.nodes.value, ClaimedAddrs(x, PoolKeys(x, n.pool)), x.pools[n.pool].role).Some?)
    && Count(x, n.pool, HostReady) + Count(x, n.pool, Provisioning) > x.pools[n.pool].replicas
  }

  lemma ScalesInIff(x: Inventory, n: PassInput)
    requires OneInFlight(x, n.pool)
    ensures ScalesIn(x, n) <==> TooMany(x, n)
  {
    if Engaged(x, n) {
      var env, keys := EnvOf(x, n), PoolKeys(x, n.pool);
      AdvanceTotals(x, env, x.hosts, keys, ClaimedAddrs(x, keys));
    }
  }

  /** The host is released, its Machine and its membership are gone. */
  ghost predicate Removed(u: Inventory, pool: string, mac: string, addr: string)
  {
    && mac in u.hosts && u.hosts[mac].state == Registered && u.hosts[mac].addr == ""
    && addr !in u.machines && pool in u.pools && addr !in u.pools[pool].members
  }

  lemma ScaledInRemoves(w: Inventory, pool: string, mac: string, addr: string)
    requires mac in w.hosts && pool in w.pools && addr != ""
    ensures Removed(ScaledIn(w, pool, mac, addr), pool, mac, addr)
  {
    WithoutMembers(w.pools[pool].members, addr);
  }

  /** A pass that scales in: its victim goes, every other Ready host stays. */
  lemma ScalingPass(x: Inventory, n: PassInput, mac: string)
    requires Keyed(x) && ScalesIn(x, n) && InPool(x, n.pool, mac) && x.hosts[mac].state == HostReady && x.hosts[mac].addr != ""
    ensures var u := PassAll(x, n);
            && mac in u.hosts
            && (Victim(x.hosts, PoolKeys(x, n.pool)) == Some(mac) ==> Removed(u, n.pool, mac, x.hosts[mac].addr))
            && (Victim(x.hosts, PoolKeys(x, n.pool)) != Some(mac) ==> u.hosts[mac] == x.hosts[mac])
  {
    var w, keys, env := AppliedAll(x, AdvanceEffects(x, n)), PoolKeys(x, n.pool), EnvOf(x, n);
    ScalesInFacts(x, n, w);
    assert mac in keys && w.hosts[mac] == x.hosts[mac];
    AppliedConcat(x, AdvanceEffects(x, n), ScaleInEffects(w, env, x.hosts, keys));
    var victim := Victim(x.hosts, keys);
    assert victim.Some?;
    ScaleInResult(w, env, x.hosts, keys, victim.value);
    if victim == Some(mac) { ScaledInRemoves(w, n.pool, mac, x.hosts[mac].addr); }
  }

  /** A pass that does not scale in leaves Ready hosts alone. */
  lemma OtherPass(x: Inventory, n: PassInput, mac: string)
    requires Keyed(x) && !ScalesIn(x, n) && InPool(x, n.pool, mac) && x.hosts[mac].state == HostReady
    ensures mac in PassAll(x, n).hosts && PassAll(x, n).hosts[mac] == x.hosts[mac]
  {
    if Engaged(x, n) {
      var env, keys, np := EnvOf(x, n), PoolKeys(x, n.pool), x.pools[n.pool];
      var claimed := ClaimedAddrs(x, keys);
      assert Primed(x, env, x.hosts, keys, claimed) by {
        forall k | InPool(x, env.pool, k) && x.hosts[k].addr != "" ensures x.hosts[k].addr in claimed { assert k in keys; }
      }
      AdvanceLegal(x, env, np.replicas, x.hosts, keys, claimed);
      var p := Advance(x, env, x.hosts, keys, claimed);
      var w, version := AppliedAll(x, p.effects), StageVersion(np, n.cl.value);
      AppliedConcat(x, p.effects, Settle(w, env, np, version, x.hosts, keys, p));
      OtherSettle(w, env, np, version, x.hosts, keys, p, mac);
    }
  }

  lemma OtherSettle(w: Inventory, env: Env, np: NodePool, version: string, listed: map<string, Host>, keys: seq<string>, p: Progress, mac: string)
    requires Keyed(w) && env.pool in w.pools && (forall k :: k in keys ==> k in listed && k in w.hosts)
    requires !(p.inflight == 0 && p.failed == 0 && p.ready > np.replicas) && mac in w.hosts && mac in listed && listed[mac].state == HostReady
    ensures mac in AppliedAll(w, Settle(w, env, np, version, listed, keys, p)).hosts
    ensures AppliedAll(w, Settle(w, env, np, version, listed, keys, p)).hosts[mac] == w.hosts[mac]
  {
    if p.inflight == 0 && p.failed == 0 && p.ready < np.replicas {
      var h := PickAvailable(listed, keys, np.selector);
      if h.Some? && version != "" { StageResult(w, h.value, version, env.now); }
    }
  }

  /**
   * From any inventory: a pass takes a bound Ready host away if and only if there are too many hosts, none
   * failed and none still awaited, and no Ready host has a lower MAC. Then it takes all of it away.
   */
  lemma TakenAwayIff(x: Inventory, n: PassInput, mac: string)
    requires Keyed(x) && OneInFlight(x, n.pool)
    requires InPool(x, n.pool, mac) && x.hosts[mac].state == HostReady && x.hosts[mac].addr != ""
    ensures var u := PassAll(x, n);
            && mac in u.hosts
            && (u.hosts[mac].state != HostReady <==> TooMany(x, n) && NoneReadyBelow(x, n.pool, mac))
            && (u.hosts[mac].state != HostReady ==> Removed(u, n.pool, mac, x.hosts[mac].addr))
  {
    ScalesInIff(x, n);
    if ScalesIn(x, n) {
      var keys := PoolKeys(x, n.pool);
      ScalingPass(x, n, mac);
      VictimIff(x.hosts, keys, mac);
      assert forall k :: k in keys <==> InPool(x, n.pool, k);
    } else {
      OtherPass(x, n, mac);
    }
  }

  // ----- a half-removed host, with edits before the next pass -----

  ghost predicate IsEdit(s: Step, mac: string)
  {
    !s.Pass? && s != Deregister(mac)
  }

  lemma EditKeepsHost(v: Inventory, s: Step, mac: string)
    requires mac in v.hosts && IsEdit(s, mac)
    ensures mac in Do(v, s).hosts && Do(v, s).hosts[mac] == v.hosts[mac]
  {
  }

  lemma {:induction false} EditsKeepHost(v: Inventory, edits: seq<Step>, pool: string, mac: string)
    requires Keyed(v) && OneInFlight(v, pool) && mac in v.hosts && forall i :: 0 <= i < |edits| ==> IsEdit(edits[i], mac)
    ensures var x := Run(v, edits); Keyed(x) && OneInFlight(x, pool) && mac in x.hosts && x.hosts[mac] == v.hosts[mac]
    decreases |edits|
  {
    if edits != [] {
      StepKeeps(v, edits[0], pool);
      EditKeepsHost(v, edits[0], mac);
      EditsKeepHost(Do(v, edits[0]), edits[1..], pool, mac);
    }
  }

  /**
   * A scale-in cut before its release, then any replica edits, registrations and deregistrations of other
   * hosts, then a pass: the half-removed host is finished if and only if the pool still has too many hosts,
   * none failed and none still awaited, and no Ready host has a lower MAC. Otherwise it stays half removed.
   */
  lemma HalfRemovedIff(v: Inventory, n: PassInput, mac: string, cut: nat, edits: seq<Step>, n': PassInput)
    requires Keyed(v) && OneInFlight(v, n.pool) && ScalesIn(v, n) && n'.pool == n.pool
    requires |AdvanceEffects(v, n)| <= cut < |PassEffects(v, n)|
    requires Victim(v.hosts, PoolKeys(v, n.pool)) == Some(mac) && v.hosts[mac].addr != ""
    requires forall i :: 0 <= i < |edits| ==> IsEdit(edits[i], mac)
    ensures var x := Run(PassCut(v, n, cut), edits);
            var u := PassAll(x, n');
            && mac in x.hosts && x.hosts[mac] == v.hosts[mac] && mac in u.hosts
            && (Removed(u, n.pool, mac, v.hosts[mac].addr) <==> TooMany(x, n') && NoneReadyBelow(x, n.pool, mac))
            && (!Removed(u, n.pool, mac, v.hosts[mac].addr) ==> u.hosts[mac].state == HostReady)
  {
    CutKeepsVictim(v, n, mac, cut);
    PassKeeps(v, n, cut, n.pool);
    var y := PassCut(v, n, cut);
    EditsKeepHost(y, edits, n.pool, mac);
    TakenAwayIff(Run(y, edits), n', mac);
  }

  lemma CutKeepsVictim(v: Inventory, n: PassInput, mac: string, cut: nat)
    requires Keyed(v) && ScalesIn(v, n) && |AdvanceEffects(v, n)| <= cut < |PassEffects(v, n)|
    requires Victim(v.hosts, PoolKeys(v, n.pool)) == Some(mac)
    ensures mac in PassCut(v, n, cut).hosts && PassCut(v, n, cut).hosts[mac] == v.hosts[mac] && InPool(v, n.pool, mac)
  {
    var w, env, keys := AppliedAll(v, AdvanceEffects(v, n)), EnvOf(v, n), PoolKeys(v, n.pool);
    ScalesInFacts(v, n, w);
    OnlyLastPuts(w, env, v.hosts, keys);
    CutHosts(v, n, w, cut, AdvanceEffects(v, n), ScaleInEffects(w, env, v.hosts, keys));
    assert mac in keys;
  }

  /** The release is the only host write of a scale-in, and comes last. */
  lemma OnlyLastPuts(w: Inventory, env: Env, listed: map<string, Host>, keys: seq<string>)
    requires env.pool in w.pools && forall k :: k in keys ==> k in listed && k in w.hosts
    ensures var si := ScaleInEffects(w, env, listed, keys); forall i :: 0 <= i < |si| - 1 ==> !si[i].PutHost?
  {
  }

  lemma {:induction false} HostsKept(w: Inventory, es: seq<Effect>)
    requires forall i :: 0 <= i < |es| ==> !es[i].PutHost?
    ensures AppliedAll(w, es).hosts == w.hosts
    decreases |es|
  {
    if es != [] { HostsKept(Applied(w, es[0]), es[1..]); }
  }

  lemma CutHosts(v: Inventory, n: PassInput, w: Inventory, cut: nat, pre: seq<Effect>, si: seq<Effect>)
    requires PassEffects(v, n) == pre + si && w == AppliedAll(v, pre) && |pre| <= cut < |pre| + |si|
    requires forall i :: 0 <= i < |si| - 1 ==> !si[i].PutHost?
    ensures PassCut(v, n, cut).hosts == w.hosts
  {
    InsideScaleIn(v, n, w, cut, pre + si, pre, si);
    HostsKept(w, si[..cut - |pre|]);
  }

  // ----- a cut bind is never repaired -----

  /** A Ready host whose pool does not list its address. */
  ghost predicate Orphan(v: Inventory, pool: string, mac: string, ip: string)
  {
    && InPool(v, pool, mac) && v.hosts[mac].state == HostReady && v.hosts[mac].addr == ip != ""
    && pool in v.pools && ip !in v.pools[pool].members
  }

  ghost predicate Ready(v: Inventory, mac: string)
  {
    mac in v.hosts && v.hosts[mac].state == HostReady
  }

  /** Neither makes the host Ready nor lists its address. */
  predicate Spares(e: Effect, pool: string, mac: string, ip: string)
  {
    && (e.PutHost? && e.host.mac == mac ==> e.host.state != HostReady)
    && (e.PutPool? && e.pool.name == pool ==> ip !in e.pool.members)
  }

  ghost predicate AllSpare(es: seq<Effect>, pool: string, mac: string, ip: string)
  {
    forall i :: 0 <= i < |es| ==> Spares(es[i], pool, mac, ip)
  }

  lemma {:induction false} SparedUnlisted(v: Inventory, es: seq<Effect>, pool: string, mac: string, ip: string)
    requires AllSpare(es, pool, mac, ip) && pool in v.pools && ip !in v.pools[pool].members && mac in v.hosts
    ensures var u := AppliedAll(v, es);
            && pool in u.pools && ip !in u.pools[pool].members && mac in u.hosts
            && (u.hosts[mac].state == HostReady ==> u.hosts[mac] == v.hosts[mac])
    decreases |es|
  {
    if es != [] {
      var u := Applied(v, es[0]);
      SparedUnlisted(u, es[1..], pool, mac, ip);
      if u.hosts[mac] != v.hosts[mac] { assert es[0].PutHost? && es[0].host.mac == mac && u.hosts[mac] == es[0].host; }
    }
  }

  lemma BindSpares(v: Inventory, env: Env, k: string, node: NodeInfo, claimed: set<string>, pool: string, mac: string, ip: string)
    requires Keyed(v) && env.pool in v.pools && k in v.hosts && k != mac && pool in v.pools && ip !in v.pools[pool].members
    requires (env.pool == pool ==> ip in claimed) && node.internalIP !in claimed
    ensures AllSpare(BindEffects(v, env.pool, k, node, env.role), pool, mac, ip)
  {
    var ip' := node.internalIP;
    SortMembers(v.pools[env.pool].members + [ip'], ip);
  }

  lemma {:induction false} AdvanceSpares(v: Inventory, env: Env, listed: map<string, Host>, keys: seq<string>, claimed: set<string>,
                                         pool: string, mac: string, ip: string)
    requires Keyed(v) && env.pool in v.pools && (forall k :: k in keys ==> k in listed && k in v.hosts)
    requires mac in v.hosts && pool in v.pools && ip !in v.pools[pool].members && (env.pool == pool ==> ip in claimed)
    requires mac in keys ==> listed[mac].state != Provisioning
    ensures AllSpare(Advance(v, env, listed, keys, claimed).effects, pool, mac, ip)
    decreases |keys|
  {
    if keys != [] {
      var k, joined := keys[0], NewJoined(env.nodes, claimed, env.role);
      if listed[k].state != Provisioning {
        AdvanceSpares(v, env, listed, keys[1..], claimed, pool, mac, ip);
      } else {
        AdvanceFirst(v, env, listed, keys, claimed);
        if joined.Some? {
          var es := BindEffects(v, env.pool, k, joined.value, env.role);
          BindSpares(v, env, k, joined.value, claimed, pool, mac, ip);
          SparedUnlisted(v, es, pool, mac, ip);
          AppliedKeyed(v, es);
          AdvanceSpares(AppliedAll(v, es), env, listed, keys[1..], claimed + {joined.value.internalIP}, pool, mac, ip);
        } else if TimedOut(listed[k], env.now, env.timeout) {
          var es := [PutHost(FailedHost(v.hosts[k]))];
          SparedUnlisted(v, es, pool, mac, ip);
          AppliedKeyed(v, es);
          AdvanceSpares(AppliedAll(v, es), env, listed, keys[1..], claimed, pool, mac, ip);
        } else {
          AdvanceSpares(v, env, listed, keys[1..], claimed, pool, mac, ip);
        }
      }
    }
  }

  lemma SettleSpares(w: Inventory, env: Env, np: NodePool, version: string, listed: map<string, Host>, keys: seq<string>, p: Progress,
                     pool: string, mac: string, ip: string)
    requires Keyed(w) && env.pool in w.pools && (forall k :: k in keys ==> k in listed && k in w.hosts)
    requires pool in w.pools && ip !in w.pools[pool].members
    ensures AllSpare(Settle(w, env, np, version, listed, keys, p), pool, mac, ip)
  {
    var victim := Victim(listed, keys);
    if victim.Some? { WithoutMembers(w.pools[env.pool].members, listed[victim.value].addr); }
  }

  /** No effect of any pass on any pool makes the orphan whole. */
  lemma PassSpares(v: Inventory, n: PassInput, pool: string, mac: string, ip: string)
    requires Keyed(v) && Orphan(v, pool, mac, ip)
    ensures AllSpare(PassEffects(v, n), pool, mac, ip)
  {
    if Engaged(v, n) {
      var env, np, keys := EnvOf(v, n), v.pools[n.pool], PoolKeys(v, n.pool);
      var claimed := ClaimedAddrs(v, keys);
      assert env.pool == pool ==> mac in keys;
      var p := Advance(v, env, v.hosts, keys, claimed);
      AdvanceSpares(v, env, v.hosts, keys, claimed, pool, mac, ip);
      SparedUnlisted(v, p.effects, pool, mac, ip);
      AppliedKeyed(v, p.effects);
      SettleSpares(AppliedAll(v, p.effects), env, np, StageVersion(np, n.cl.value), v.hosts, keys, p, pool, mac, ip);
    }
  }

  lemma StepOrphan(v: Inventory, s: Step, pool: string, mac: string, ip: string)
    requires Keyed(v) && Orphan(v, pool, mac, ip)
    ensures Keyed(Do(v, s)) && (Ready(Do(v, s), mac) ==> Orphan(Do(v, s), pool, mac, ip))
  {
    if s.Pass? {
      var es := CutEffects(v, s.n, s.cut);
      PassSpares(v, s.n, pool, mac, ip);
      SparedUnlisted(v, es, pool, mac, ip);
      AppliedKeyed(v, es);
    }
  }

  /**
   * A Ready host that its pool does not list is never repaired: over every run of passes on any pools, cut
   * anywhere, and edits, it stays unlisted for as long as it stays Ready.
   */
  lemma {:induction false} NeverRepaired(v: Inventory, steps: seq<Step>, pool: string, mac: string, ip: string)
    requires Keyed(v) && Orphan(v, pool, mac, ip)
    requires forall i :: 0 <= i <= |steps| ==> Ready(Run(v, steps[..i]), mac)
    ensures Orphan(Run(v, steps), pool, mac, ip)
    decreases |steps|
  {
    if steps != [] {
      var u := Do(v, steps[0]);
      assert steps[..1][1..] == [] && Run(v, steps[..1]) == u;
      StepOrphan(v, steps[0], pool, mac, ip);
      forall i | 0 <= i <= |steps| - 1 ensures Ready(Run(u, steps[1..][..i]), mac) {
        assert steps[..i + 1][1..] == steps[1..][..i];
        assert Run(v, steps[..i + 1]) == Run(u, steps[1..][..i]);
      }
      NeverRepaired(u, steps[1..], pool, mac, ip);
    }
  }

  /** And that is what a bind leaves behind when it is cut between its first write and its last. */
  lemma CutBindOrphans(v: Inventory, pool: string, mac: string, node: NodeInfo, role: Role, cut: nat)
    requires Keyed(v) && InPool(v, pool, mac) && pool in v.pools && node.internalIP != "" && node.internalIP !in v.pools[pool].members
    requires 0 < cut < |BindEffects(v, pool, mac, node, role)|
    ensures Orphan(AppliedAll(v, BindEffects(v, pool, mac, node, role)[..cut]), pool, mac, node.internalIP)
  {
    var es := BindEffects(v, pool, mac, node, role);
    assert es[..cut] == [es[0], es[1]][..cut];
    Prefix2(v, es[0], es[1], cut);
  }

  // ----- a pool on which both go wrong -----

  function Waiting(): Host
  {
    Host("c", "a", "w", map[], "", Worker, Provisioning, "", 1, Some(0))
  }

  function Settled(): Host
  {
    Host("c", "b", "w", map[], "10.0.0.2", Worker, HostReady, "", 2, None)
  }

  /** One replica wanted; "b" is Ready at 10.0.0.2 and "a" is in flight. */
  function OneWanted(): Inventory
  {
    Inventory(
      map["a" := Waiting(), "b" := Settled()],
      map["10.0.0.2" := Machine("c", "w", "10.0.0.2", Worker, None, 3)],
      map["w" := NodePool("c", "w", Worker, ["10.0.0.2"], Some("v1"), None, false, 4, 1, map[], [])])
  }

  function Joined(): NodeInfo
  {
    NodeInfo("n3", "10.0.0.3", "worker", "", true)
  }

  function JoinPass(): PassInput
  {
    PassInput("w", Some(Cluster("c", None, None, None, 5, Manual, false, true)), Some([Joined()]), 1, 1000)
  }

  lemma Below()
    ensures Less("a", "b") && Ascending(["a", "b"])
  {
  }

  lemma OneWantedKeys()
    ensures PoolKeys(OneWanted(), "w") == ["a", "b"]
  {
    Below();
    AscendingUnique(PoolKeys(OneWanted(), "w"), ["a", "b"]);
  }

  lemma TwoTally(hosts: map<string, Host>, a: string, b: string, s: HostState)
    requires a in hosts && b in hosts
    ensures Tally(hosts, [a, b], s) == (if hosts[a].state == s then 1 else 0) + (if hosts[b].state == s then 1 else 0)
  {
    assert [a, b][1..] == [b] && [b][1..] == [];
    assert Tally(hosts, [b], s) == (if hosts[b].state == s then 1 else 0) + Tally(hosts, [], s);
  }

  lemma OneWantedCounts()
    ensures Count(OneWanted(), "w", HostReady) == 1 && Count(OneWanted(), "w", Provisioning) == 1 && Count(OneWanted(), "w", HostFailed) == 0
    ensures Keyed(OneWanted()) && OneInFlight(OneWanted(), "w")
  {
    OneWantedKeys();
    TwoCounts(OneWanted().hosts);
    OneAddress(OneWanted(), "b");
    OneWantedKeyed(OneWanted());
  }

  lemma OneWantedKeyed(v: Inventory)
    requires v == OneWanted()
    ensures Keyed(v)
  {
  }

  lemma OneAddress(v: Inventory, mac: string)
    requires forall k :: k in v.hosts && v.hosts[k].addr != "" ==> k == mac
    ensures AddressesDistinct(v, "w")
  {
  }

  lemma TwoCounts(hosts: map<string, Host>)
    requires hosts == map["a" := Waiting(), "b" := Settled()]
    ensures Tally(hosts, ["a", "b"], HostReady) == 1 && Tally(hosts, ["a", "b"], Provisioning) == 1 && Tally(hosts, ["a", "b"], HostFailed) == 0
  {
    TwoTally(hosts, "a", "b", Provisioning);
    TwoTally(hosts, "a", "b", HostReady);
    TwoTally(hosts, "a", "b", HostFailed);
  }

  lemma NodeJoins()
    ensures NewJoined([Joined()], ClaimedAddrs(OneWanted(), ["a", "b"]), Worker) == Some(Joined())
  {
    var claimed := ClaimedAddrs(OneWanted(), ["a", "b"]);
    assert "10.0.0.3" != "10.0.0.2" by { assert "10.0.0.3"[7] != "10.0.0.2"[7]; }
    assert "10.0.0.3" !in claimed;
    assert Joins(Joined(), claimed, Worker);
  }

  /** The pass binds "a", sees two Ready hosts for one replica, and goes for "b", the one its listing shows Ready. */
  lemma JoinPassScalesIn()
    ensures ScalesIn(OneWanted(), JoinPass()) && Victim(OneWanted().hosts, PoolKeys(OneWanted(), "w")) == Some("b")
  {
    OneWantedCounts();
    OneWantedKeys();
    NodeJoins();
    ScalesInIff(OneWanted(), JoinPass());
    Below();
    VictimIff(OneWanted().hosts, ["a", "b"], "b");
  }

  /** The scale-in of "b", from whatever the binding of "a" left: unstage, drop the Machine, unlist, release. */
  lemma ScaleInOfB(w: Inventory)
    requires "w" in w.pools && "a" in w.hosts && "b" in w.hosts
    ensures var si := ScaleInEffects(w, EnvOf(OneWanted(), JoinPass()), OneWanted().hosts, ["a", "b"]);
            |si| == 4 && si[0] == UnstageBoot("b") && si[1] == DropMachine("10.0.0.2")
  {
    Below();
    VictimIff(OneWanted().hosts, ["a", "b"], "b");
    assert "10.0.0.3"[7] != "10.0.0.2"[7];
    assert FirstName([Joined()], "10.0.0.2") == "";
  }

  /** The cut: two effects into the scale-in, after the Machine is dropped. */
  ghost function HalfWay(): (cut: nat)
    ensures |AdvanceEffects(OneWanted(), JoinPass())| <= cut < |PassEffects(OneWanted(), JoinPass())|
  {
    JoinPassScalesIn();
    OneWantedCounts();
    OneWantedKeys();
    var w := AppliedAll(OneWanted(), AdvanceEffects(OneWanted(), JoinPass()));
    ScalesInFacts(OneWanted(), JoinPass(), w);
    ScaleInOfB(w);
    |AdvanceEffects(OneWanted(), JoinPass())| + 2
  }

  lemma CutAfterTwo(v: Inventory, n: PassInput, w: Inventory, pre: seq<Effect>, si: seq<Effect>)
    requires PassEffects(v, n) == pre + si && w == AppliedAll(v, pre) && |si| > 2
    ensures PassCut(v, n, |pre| + 2) == Applied(Applied(w, si[0]), si[1])
  {
    InsideScaleIn(v, n, w, |pre| + 2, pre + si, pre, si);
    assert si[..2] == [si[0]] + ([si[1]] + []);
    AppliedCons(w, si[0], [si[1]] + []);
    AppliedCons(Applied(w, si[0]), si[1], []);
  }

  /** A scale-in cut after it dropped the victim's Machine, with a lower MAC in flight when its pass began. */
  lemma CutAfterDrop(v: Inventory, n: PassInput, w: Inventory, keys: seq<string>, pre: seq<Effect>, si: seq<Effect>, mac: string, addr: string)
    requires PassEffects(v, n) == pre + si && w == AppliedAll(v, pre)
    requires |si| > 2 && si[0] == UnstageBoot(mac) && si[1] == DropMachine(addr)
    requires keys == PoolKeys(v, n.pool) && keys == PoolKeys(w, n.pool) && Framed(v, w, keys) && Quiet(w, n.pool)
    requires Victim(v.hosts, keys) == Some(mac) && !NoneWaitingBelow(v, n.pool, mac)
    ensures var x := PassCut(v, n, |pre| + 2); addr !in x.machines && !NoneReadyBelow(x, n.pool, mac)
  {
    CutAfterTwo(v, n, w, pre, si);
    BelowIff(v, w, n.pool, keys, mac);
    DropKeepsHosts(w, n.pool, mac, addr);
  }

  lemma DropKeepsHosts(w: Inventory, pool: string, mac: string, addr: string)
    ensures var x := Applied(Applied(w, UnstageBoot(mac)), DropMachine(addr));
            addr !in x.machines && (NoneReadyBelow(x, pool, mac) <==> NoneReadyBelow(w, pool, mac))
  {
    assert forall k :: InPool(Applied(Applied(w, UnstageBoot(mac)), DropMachine(addr)), pool, k) <==> InPool(w, pool, k);
  }

  lemma WaitingBelowB()
    ensures !NoneWaitingBelow(OneWanted(), "w", "b")
  {
    Below();
    assert InPool(OneWanted(), "w", "a") && OneWanted().hosts["a"].state == Provisioning;
  }

  lemma HalfWayRecords()
    ensures var x := PassCut(OneWanted(), JoinPass(), HalfWay()); "10.0.0.2" !in x.machines && !NoneReadyBelow(x, "w", "b")
  {
    OneWantedCounts();
    OneWantedKeys();
    JoinPassScalesIn();
    WaitingBelowB();
    HalfWayOf(OneWanted(), JoinPass());
  }

  lemma HalfWayOf(v: Inventory, n: PassInput)
    requires v == OneWanted() && n == JoinPass() && Keyed(v) && ScalesIn(v, n) && PoolKeys(v, n.pool) == ["a", "b"]
    requires Victim(v.hosts, PoolKeys(v, n.pool)) == Some("b") && !NoneWaitingBelow(v, n.pool, "b")
    ensures var x := PassCut(v, n, |AdvanceEffects(v, n)| + 2); "10.0.0.2" !in x.machines && !NoneReadyBelow(x, n.pool, "b")
  {
    var pre, w, keys, env, si := ScaleInParts(v, n);
    DropSecond(v, w, keys, env, si);
    CutAfterDrop(v, n, w, keys, pre, si, "b", "10.0.0.2");
  }

  lemma DropSecond(v: Inventory, w: Inventory, keys: seq<string>, env: Env, si: seq<Effect>)
    requires v == OneWanted() && keys == ["a", "b"] && env.pool == "w" && env.nodes == [Joined()] && "w" in w.pools && "a" in w.hosts && "b" in w.hosts
    requires si == ScaleInEffects(w, env, v.hosts, keys)
    ensures |si| == 4 && si[0] == UnstageBoot("b") && si[1] == DropMachine("10.0.0.2")
  {
    Below();
    VictimIff(v.hosts, keys, "b");
    assert "10.0.0.3"[7] != "10.0.0.2"[7];
    assert FirstName(env.nodes, "10.0.0.2") == "";
  }

  /**
   * Cut half way through its scale-in, it is not finished by the pass that follows: "b" has lost its Machine
   * and stays Ready, because that pass goes for "a".
   */
  lemma LowerMacTakesOver()
    ensures var x := PassCut(OneWanted(), JoinPass(), HalfWay());
            var u := PassAll(x, JoinPass());
            && "b" in u.hosts && u.hosts["b"].state == HostReady && "10.0.0.2" !in x.machines
            && u != PassAll(OneWanted(), JoinPass())
  {
    var v, n := OneWanted(), JoinPass();
    JoinPassScalesIn();
    OneWantedCounts();
    OneWantedKeys();
    HalfWayRecords();
    HalfRemovedIff(v, n, "b", HalfWay(), [], n);
    Below();
    assert InPool(v, "w", "a") && v.hosts["a"].state == Provisioning;
    CutScaleInFinishedIff(v, n, "b", HalfWay(), n);
  }

  /** Cut after the first write of its bind, it leaves "a" Ready without a Machine and unlisted. */
  lemma CutBindHappens()
    ensures !Consistent(AppliedAll(OneWanted(), BindEffects(OneWanted(), "w", "a", Joined(), Worker)[..1]))
    ensures Consistent(OneWanted())
  {
    var v := OneWanted();
    Below();
    assert InPool(v, "w", "a") && "10.0.0.3" !in v.pools["w"].members;
    assert Ascending(["10.0.0.2"]);
    CutBindIff(v, "w", "a", Joined(), Worker, 1);
  }
}
