/** The provisioning reconciler: its record writes and calls, one by one, any of which may fail. */
module Provision {
  import opened Basics
  import opened Kube
  import opened ProvisionModel
  import opened Records
  import opened Text

  /** The reconciler's world: the records, what has been done, and how many more effects will succeed. */
  datatype Snap = Snap(v: Inventory, done: seq<Effect>, left: nat)

  function Taken(s: Snap, es: seq<Effect>): seq<Effect>
  {
    if s.left < |es| then es[..s.left] else es
  }

  /** As many of the effects as succeed, in order. */
  function After(s: Snap, es: seq<Effect>): Snap
  {
    var t := Taken(s, es);
    Snap(AppliedAll(s.v, t), s.done + t, s.left - |t|)
  }

  predicate Completes(s: Snap, es: seq<Effect>)
  {
    |es| <= s.left
  }

  /** Doing `a` and then, only if that completed, `b`. */
  lemma AfterThree(s: Snap, first: Effect, second: Effect, rest: seq<Effect>)
    ensures var es := [first] + ([second] + rest);
            if !Completes(s, [first]) then !Completes(s, es) && After(s, es) == After(s, [first])
            else
              var s1 := After(s, [first]);
              if !Completes(s1, [second]) then !Completes(s, es) && After(s, es) == After(s1, [second])
              else After(s, es) == After(After(s1, [second]), rest) && (Completes(s, es) <==> Completes(After(s1, [second]), rest))
  {
    AfterConcat(s, [first], [second] + rest);
    AfterConcat(After(s, [first]), [second], rest);
  }

  lemma AfterConcat(s: Snap, a: seq<Effect>, b: seq<Effect>)
    ensures Completes(s, a + b) <==> Completes(s, a) && Completes(After(s, a), b)
    ensures After(s, a + b) == if Completes(s, a) then After(After(s, a), b) else After(s, a)
  {
    if Completes(s, a) {
      var s' := After(s, a);
      assert Taken(s, a + b) == a + Taken(s', b);
      AppliedConcat(s.v, a, Taken(s', b));
    } else {
      assert Taken(s, a + b) == Taken(s, a);
    }
  }

  lemma AfterNone(s: Snap)
    ensures After(s, []) == s && Completes(s, [])
  {
  }

  /** Members other than `addr`, in order. */
  method RemoveFrom(members: seq<string>, addr: string) returns (out: seq<string>)
    ensures out == Without(members, addr)
  {
    out := [];
    for i := 0 to |members|
      invariant out + Without(members[i..], addr) == Without(members, addr)
    {
      assert members[i..][0] == members[i] && members[i..][1..] == members[i + 1..];
      if members[i] != addr {
        out := out + [members[i]];
      }
    }
    assert members[|members|..] == [];
  }

  /** The lowest-MAC Ready host by comparing each against the best so far. */
  method LowestReady(listed: map<string, Host>, keys: seq<string>) returns (victim: Option<string>)
    requires Ascending(keys) && forall k :: k in keys ==> k in listed
    ensures victim == Victim(listed, keys)
  {
    victim := None;
    for i := 0 to |keys|
      invariant victim == Victim(listed, keys[..i])
    {
      assert keys[i] in keys;
      assert keys[..i + 1] == keys[..i] + [keys[i]];
      VictimSnoc(listed, keys[..i], keys[i]);
      if listed[keys[i]].state == HostReady {
        if victim.None? || Less(keys[i], victim.value) {
          assert victim.Some? ==> victim.value in keys[..i];
          NotBelow(keys, i, victim);
          victim := Some(keys[i]);
        }
      }
    }
    assert keys[..|keys|] == keys;
  }

  lemma {:induction false} VictimSnoc(listed: map<string, Host>, keys: seq<string>, k: string)
    requires k in listed && forall x :: x in keys ==> x in listed
    ensures Victim(listed, keys + [k]) ==
              if Victim(listed, keys).Some? then Victim(listed, keys) else if listed[k].state == HostReady then Some(k) else None
    decreases |keys|
  {
    if keys == [] {
      assert (keys + [k])[1..] == [];
    } else {
      assert (keys + [k])[1..] == keys[1..] + [k];
      VictimSnoc(listed, keys[1..], k);
    }
  }

  /** In ascending order nothing later is below something earlier. */
  lemma NotBelow(keys: seq<string>, i: nat, earlier: Option<string>)
    requires Ascending(keys) && i < |keys| && (earlier.Some? ==> earlier.value in keys[..i])
    ensures earlier.Some? ==> !Less(keys[i], earlier.value)
  {
    if earlier.Some? {
      var j :| 0 <= j < i && keys[j] == earlier.value;
      LessAsymmetric(keys[j], keys[i]);
    }
  }

  /** The first host is dealt with and left in `state`; the rest of the walk remains. */
  ghost predicate FirstDone(s: Snap, s': Snap, env: Env, listed: map<string, Host>, todo: seq<string>, claimed: set<string>,
                            claimed': set<string>, state: HostState)
    requires todo != [] && env.pool in s.v.pools && env.pool in s'.v.pools
    requires forall k :: k in todo ==> k in listed && k in s.v.hosts && k in s'.v.hosts
  {
    var p, q := Advance(s.v, env, listed, todo, claimed), Advance(s'.v, env, listed, todo[1..], claimed');
    && After(s', q.effects) == After(s, p.effects) && Completes(s', q.effects) == Completes(s, p.effects)
    && p.inflight == q.inflight + (if state == Provisioning then 1 else 0)
    && p.ready == q.ready + (if state == HostReady then 1 else 0)
    && p.failed == q.failed + (if state == HostFailed then 1 else 0)
  }

  /** One host's turn: dealt with, or cut short by a failed write. */
  ghost predicate Stepped(s: Snap, s': Snap, env: Env, listed: map<string, Host>, todo: seq<string>, claimed: set<string>,
                          ok: bool, state: HostState, claimed': set<string>)
    requires todo != [] && env.pool in s.v.pools && forall k :: k in todo ==> k in listed && k in s.v.hosts
  {
    && Keyed(s'.v) && s.v.hosts.Keys <= s'.v.hosts.Keys && s.v.pools.Keys <= s'.v.pools.Keys
    && (ok ==> FirstDone(s, s', env, listed, todo, claimed, claimed', state))
    && (!ok ==>
          var p := Advance(s.v, env, listed, todo, claimed);
          s' == After(s, p.effects) && !Completes(s, p.effects))
  }

  /** A host that is neither joined nor overdue only counts. */
  lemma LeftAlone(s: Snap, env: Env, listed: map<string, Host>, todo: seq<string>, claimed: set<string>)
    requires Keyed(s.v) && todo != [] && env.pool in s.v.pools && forall k :: k in todo ==> k in listed && k in s.v.hosts
    requires listed[todo[0]].state == Provisioning ==>
               NewJoined(env.nodes, claimed, env.role).None? && !TimedOut(listed[todo[0]], env.now, env.timeout)
    ensures Stepped(s, s, env, listed, todo, claimed, true, listed[todo[0]].state, claimed)
  {
  }

  lemma FirstJoined(s: Snap, env: Env, listed: map<string, Host>, todo: seq<string>, claimed: set<string>)
    requires todo != [] && env.pool in s.v.pools && (forall k :: k in todo ==> k in listed && k in s.v.hosts)
    requires listed[todo[0]].state == Provisioning && NewJoined(env.nodes, claimed, env.role).Some?
    ensures var n := NewJoined(env.nodes, claimed, env.role).value;
            var es := BindEffects(s.v, env.pool, todo[0], n, env.role);
            if Completes(s, es)
            then FirstDone(s, After(s, es), env, listed, todo, claimed, claimed + {n.internalIP}, HostReady)
            else var p := Advance(s.v, env, listed, todo, claimed); After(s, p.effects) == After(s, es) && !Completes(s, p.effects)
  {
    var n := NewJoined(env.nodes, claimed, env.role).value;
    var es := BindEffects(s.v, env.pool, todo[0], n, env.role);
    var q := Advance(AppliedAll(s.v, es), env, listed, todo[1..], claimed + {n.internalIP});
    AfterConcat(s, es, q.effects);
  }

  lemma FirstOverdue(s: Snap, env: Env, listed: map<string, Host>, todo: seq<string>, claimed: set<string>)
    requires todo != [] && env.pool in s.v.pools && (forall k :: k in todo ==> k in listed && k in s.v.hosts)
    requires listed[todo[0]].state == Provisioning && NewJoined(env.nodes, claimed, env.role).None?
    requires TimedOut(listed[todo[0]], env.now, env.timeout)
    ensures var es := [PutHost(FailedHost(s.v.hosts[todo[0]]))];
            if Completes(s, es)
            then FirstDone(s, After(s, es), env, listed, todo, claimed, claimed, HostFailed)
            else var p := Advance(s.v, env, listed, todo, claimed); After(s, p.effects) == After(s, es) && !Completes(s, p.effects)
  {
    var es := [PutHost(FailedHost(s.v.hosts[todo[0]]))];
    var q := Advance(AppliedAll(s.v, es), env, listed, todo[1..], claimed);
    AfterConcat(s, es, q.effects);
  }

  /** A host is due to be staged and no Talos version is known for it. */
  predicate Versionless(np: NodePool, version: string, listed: map<string, Host>, keys: seq<string>, p: Progress)
    requires forall k :: k in keys ==> k in listed
  {
    version == "" && p.inflight == 0 && p.failed == 0 && p.ready < np.replicas && PickAvailable(listed, keys, np.selector).Some?
  }

  /** The pass returns no error of its own: its records and nodes could be read, and what it stages has a version. */
  ghost predicate Accepts(v: Inventory, n: PassInput)
  {
    if n.cl.None? then false
    else if !n.cl.value.provisioningEnabled then true
    else if n.pool !in v.pools then false
    else if v.pools[n.pool].replicas == 0 then true
    else if n.nodes.None? then false
    else
      var keys, np := PoolKeys(v, n.pool), v.pools[n.pool];
      !Versionless(np, StageVersion(np, n.cl.value), v.hosts, keys, Advance(v, EnvOf(v, n), v.hosts, keys, ClaimedAddrs(v, keys)))
  }

  class Reconciler {
    var hosts: map<string, Host>
    var machines: map<string, Machine>
    var pools: map<string, NodePool>
    var done: seq<Effect>
    var left: nat

    function Here(): Snap
      reads this
    {
      Snap(Inventory(hosts, machines, pools), done, left)
    }

    /** One record write or call; it either happens or fails without effect. */
    method Perform(e: Effect) returns (ok: bool)
      modifies this
      ensures Here() == After(old(Here()), [e]) && ok == Completes(old(Here()), [e])
      ensures ok ==> Here() == Snap(Applied(old(Here()).v, e), old(done) + [e], old(left) - 1)
    {
      if left == 0 {
        assert Taken(Here(), [e]) == [];
        return false;
      }
      assert Taken(Here(), [e]) == [e] + [];
      AppliedCons(Here().v, e, []);
      match e {
        case PutHost(h) => hosts := hosts[h.mac := h];
        case PutMachine(m) => machines := machines[m.talosEndpoint := m];
        case DropMachine(a) => machines := machines - {a};
        case PutPool(np) => pools := pools[np.name := np];
        case _ =>
      }
      done := done + [e];
      left := left - 1;
      return true;
    }

    /** Host to Ready, then its Machine, then its membership. */
    method Bind(pool: string, mac: string, n: NodeInfo, role: Role) returns (ok: bool)
      requires mac in hosts && pool in pools && hosts[mac].mac == mac && pools[pool].name == pool
      modifies this
      ensures var es := BindEffects(old(Here()).v, pool, mac, n, role);
              Here() == After(old(Here()), es) && ok == Completes(old(Here()), es)
    {
      ghost var s := Here();
      var ip, h := n.internalIP, hosts[mac];
      var first := PutHost(h.(addr := ip, state := HostReady, message := ""));
      var second := PutMachine(if ip in machines then machines[ip] else Machine(h.cluster, pool, ip, role, None, 0));
      var np := pools[pool];
      ghost var rest := if ip in np.members then [] else [PutPool(BoundPool(np, ip))];
      assert BindEffects(s.v, pool, mac, n, role) == [first] + ([second] + rest);
      AfterThree(s, first, second, rest);
      ok := Perform(first);
      if !ok { return; }
      ok := Perform(second);
      if !ok { return; }
      if ip !in np.members {
        ok := Perform(PutPool(np.(members := Sort(np.members + [ip]))));
      } else {
        AfterNone(Here());
      }
    }

    method Overdue(env: Env, listed: map<string, Host>, todo: seq<string>, claimed: set<string>) returns (ok: bool)
      requires env.pool in pools && todo != [] && (forall k :: k in todo ==> k in listed && k in hosts) && Keyed(Here().v)
      requires listed[todo[0]].state == Provisioning && NewJoined(env.nodes, claimed, env.role).None?
      requires TimedOut(listed[todo[0]], env.now, env.timeout)
      modifies this
      ensures Stepped(old(Here()), Here(), env, listed, todo, claimed, ok, HostFailed, claimed)
    {
      ghost var s := Here();
      var mac := todo[0];
      ghost var es := [PutHost(FailedHost(hosts[mac]))];
      AppliedKeyed(s.v, Taken(s, es));
      FirstOverdue(s, env, listed, todo, claimed);
      ok := Perform(PutHost(hosts[mac].(state := HostFailed, message := "provision timed out: node did not join")));
    }

    method Joined(env: Env, listed: map<string, Host>, todo: seq<string>, claimed: set<string>, n: NodeInfo) returns (ok: bool)
      requires env.pool in pools && todo != [] && (forall k :: k in todo ==> k in listed && k in hosts) && Keyed(Here().v)
      requires listed[todo[0]].state == Provisioning && NewJoined(env.nodes, claimed, env.role) == Some(n)
      modifies this
      ensures Stepped(old(Here()), Here(), env, listed, todo, claimed, ok, HostReady, claimed + {n.internalIP})
    {
      ghost var s := Here();
      AppliedKeyed(s.v, Taken(s, BindEffects(s.v, env.pool, todo[0], n, env.role)));
      FirstJoined(s, env, listed, todo, claimed);
      ok := Bind(env.pool, todo[0], n, env.role);
    }

    /** One listed host: bound if its node joined, failed if overdue, otherwise only counted. */
    method OneHost(env: Env, listed: map<string, Host>, todo: seq<string>, claimed: set<string>)
        returns (ok: bool, state: HostState, claimed': set<string>)
      requires env.pool in pools && todo != [] && (forall k :: k in todo ==> k in listed && k in hosts) && Keyed(Here().v)
      modifies this
      ensures Stepped(old(Here()), Here(), env, listed, todo, claimed, ok, state, claimed')
    {
      var k := todo[0];
      assert k in todo;
      var h := listed[k];
      claimed' := claimed;
      state := h.state;
      ok := true;
      if h.state == Provisioning {
        var n := NewJoined(env.nodes, claimed, env.role);
        if n.Some? {
          ok := Joined(env, listed, todo, claimed, n.value);
          claimed' := claimed + {n.value.internalIP};
          state := HostReady;
          return;
        }
        if TimedOut(h, env.now, env.timeout) {
          ok := Overdue(env, listed, todo, claimed);
          state := HostFailed;
          return;
        }
      }
      LeftAlone(Here(), env, listed, todo, claimed);
    }

    /** Walks the listed hosts: binds joined ones, fails overdue ones, counts the rest. */
    method AdvanceHosts(env: Env, listed: map<string, Host>, keys: seq<string>, claimed0: set<string>)
        returns (ok: bool, inflight: nat, ready: nat, failed: nat)
      requires env.pool in pools && (forall k :: k in keys ==> k in listed && k in hosts)
      requires Keyed(Here().v)
      modifies this
      ensures var p := Advance(old(Here()).v, env, listed, keys, claimed0);
              && Here() == After(old(Here()), p.effects) && ok == Completes(old(Here()), p.effects)
              && (ok ==> inflight == p.inflight && ready == p.ready && failed == p.failed)
      ensures ok ==> Keyed(Here().v)
    {
      ghost var s0 := Here();
      ghost var all := Advance(s0.v, env, listed, keys, claimed0);
      var claimed := claimed0;
      inflight, ready, failed := 0, 0, 0;
      var todo := keys;
      while todo != []
        invariant env.pool in pools && (forall k :: k in todo ==> k in listed && k in hosts) && Keyed(Here().v)
        invariant var q := Advance(Here().v, env, listed, todo, claimed);
                  && After(Here(), q.effects) == After(s0, all.effects)
                  && Completes(Here(), q.effects) == Completes(s0, all.effects)
                  && inflight + q.inflight == all.inflight && ready + q.ready == all.ready && failed + q.failed == all.failed
        decreases |todo|
      {
        var state: HostState;
        ok, state, claimed := OneHost(env, listed, todo, claimed);
        if !ok { return; }
        match state {
          case HostReady => ready := ready + 1;
          case HostFailed => failed := failed + 1;
          case Provisioning => inflight := inflight + 1;
          case _ =>
        }
        todo := todo[1..];
      }
      AfterNone(Here());
      ok := true;
    }

    method ScaleIn(env: Env, listed: map<string, Host>, keys: seq<string>) returns (ok: bool)
      requires env.pool in pools && (forall k :: k in keys ==> k in listed && k in hosts) && Ascending(keys) && Keyed(Here().v)
      modifies this
      ensures var es := ScaleInEffects(old(Here()).v, env, listed, keys);
              Here() == After(old(Here()), es) && ok == Completes(old(Here()), es)
    {
      var victim := LowestReady(listed, keys);
      if victim.None? {
        AfterNone(Here());
        return true;
      }
      var mac := victim.value;
      var addr := listed[mac].addr;
      var name := FirstName(env.nodes, addr);
      ghost var s := Here();
      ScaleInSplit(s, env, listed, keys, mac);
      ok := true;
      if name != "" {
        ok := Perform(DrainNode(name));
      }
      if ok {
        ok := UnstageAndRelease(env.pool, mac, addr);
      }
    }

    method UnstageAndRelease(pool: string, mac: string, addr: string) returns (ok: bool)
      requires pool in pools && mac in hosts && Keyed(Here().v)
      modifies this
      ensures var es := [UnstageBoot(mac)] + LetGo(old(Here()).v, pool, mac, addr);
              Here() == After(old(Here()), es) && ok == Completes(old(Here()), es)
    {
      AfterConcat(Here(), [UnstageBoot(mac)], LetGo(Here().v, pool, mac, addr));
      ok := Perform(UnstageBoot(mac));
      if ok {
        ok := ForgetAndRelease(pool, mac, addr);
      }
    }

    method ForgetAndRelease(pool: string, mac: string, addr: string) returns (ok: bool)
      requires pool in pools && mac in hosts && Keyed(Here().v)
      modifies this
      ensures var es := LetGo(old(Here()).v, pool, mac, addr);
              Here() == After(old(Here()), es) && ok == Completes(old(Here()), es)
    {
      ghost var es := Forget(Here().v, pool, addr);
      ghost var last := PutHost(Released(hosts[mac]));
      AfterConcat(Here(), es, [last]);
      AfterNone(Here());
      if addr != "" {
        var np := pools[pool];
        ghost var put := PutPool(np.(members := Without(np.members, addr)));
        AfterConcat(Here(), [DropMachine(addr)], [put]);
        assert es == [DropMachine(addr)] + [put];
        ok := Perform(DropMachine(addr));
        if !ok { return; }
        var members := RemoveFrom(np.members, addr);
        assert Taken(Here(), [put]) == if left == 0 then [] else [put];
        ok := Perform(PutPool(np.(members := members)));
        if !ok { return; }
      }
      ok := Perform(PutHost(hosts[mac].(state := Registered, addr := "", message := "released (scale-in)")));
    }

    method StageHost(mac: string, version: string, now: int) returns (ok: bool)
      requires mac in hosts
      modifies this
      ensures var es := StageEffects(old(Here()).v, mac, version, now);
              Here() == After(old(Here()), es) && ok == (version != "" && Completes(old(Here()), es))
    {
      if version == "" {
        AfterNone(Here());
        return false;
      }
      ghost var put := PutHost(Started(hosts[mac], now));
      AfterConcat(Here(), [StageBoot(mac, version)], [put]);
      assert StageEffects(Here().v, mac, version, now) == [StageBoot(mac, version)] + [put];
      ok := Perform(StageBoot(mac, version));
      if !ok { return; }
      ok := Perform(PutHost(hosts[mac].(state := Provisioning, message := "staged; awaiting boot + join", provisioningStartedAt := Some(now))));
    }

    /** The pool's hosts in MAC order. */
    method ListHosts(pool: string) returns (keys: seq<string>)
      ensures keys == PoolKeys(Here().v, pool)
    {
      var todo := hosts.Keys;
      keys := [];
      while todo != {}
        invariant todo <= hosts.Keys && Ascending(keys)
        invariant forall x :: x in keys <==> x in hosts && x !in todo && hosts[x].pool == pool
      {
        var k :| k in todo;
        if hosts[k].pool == pool {
          InsertAscending(k, keys);
          forall x ensures x in Insert(k, keys) <==> x == k || x in keys { InsertMembers(k, keys, x); }
          keys := Insert(k, keys);
        }
        todo := todo - {k};
      }
      AscendingUnique(keys, PoolKeys(Here().v, pool));
    }

    /** Every machine's address and every bound address of the listed hosts. */
    method Claims(keys: seq<string>) returns (claimed: set<string>)
      requires forall k :: k in keys ==> k in hosts
      ensures claimed == ClaimedAddrs(Here().v, keys)
    {
      claimed := machines.Keys;
      for i := 0 to |keys|
        invariant claimed == machines.Keys + (set k | k in keys[..i] && hosts[k].addr != "" :: hosts[k].addr)
      {
        assert keys[i] in keys;
        assert keys[..i + 1] == keys[..i] + [keys[i]];
        if hosts[keys[i]].addr != "" {
          claimed := claimed + {hosts[keys[i]].addr};
        }
      }
      assert keys[..|keys|] == keys;
    }

    /** One pass over a pool. */
    method ReconcilePool(n: PassInput) returns (ok: bool)
      requires Keyed(Here().v)
      modifies this
      ensures Here() == After(old(Here()), PassEffects(old(Here()).v, n))
      ensures !Engaged(old(Here()).v, n) ==> Here() == old(Here())
      ensures ok == (Accepts(old(Here()).v, n) && Completes(old(Here()), PassEffects(old(Here()).v, n)))
    {
      AfterNone(Here());
      if n.cl.None? {
        return false;
      }
      if !n.cl.value.provisioningEnabled {
        return true;
      }
      if n.pool !in pools {
        return false;
      }
      var np := pools[n.pool];
      if np.replicas == 0 {
        return true;
      }
      if n.nodes.None? {
        return false;
      }
      var listed := hosts;
      var keys := ListHosts(n.pool);
      var claimed := Claims(keys);
      ok := Converge(n, np, listed, keys, claimed);
    }

    method Converge(n: PassInput, np: NodePool, listed: map<string, Host>, keys: seq<string>, claimed: set<string>) returns (ok: bool)
      requires Engaged(Here().v, n) && np == pools[n.pool] && listed == hosts && keys == PoolKeys(Here().v, n.pool)
      requires claimed == ClaimedAddrs(Here().v, keys) && Keyed(Here().v)
      modifies this
      ensures Here() == After(old(Here()), PassEffects(old(Here()).v, n))
      ensures ok == (Accepts(old(Here()).v, n) && Completes(old(Here()), PassEffects(old(Here()).v, n)))
    {
      ghost var s := Here();
      var env := Env(n.pool, np.role, n.nodes.value, n.now, n.timeout);
      var version := StageVersion(np, n.cl.value);
      ghost var p := Advance(s.v, env, listed, keys, claimed);
      AfterConcat(s, p.effects, Settle(AppliedAll(s.v, p.effects), env, np, version, listed, keys, p));
      var inflight, ready, failed;
      ok, inflight, ready, failed := AdvanceHosts(env, listed, keys, claimed);
      if ok {
        ok := SettlePool(env, np, version, listed, keys, inflight, ready, failed, p);
      }
    }

    method SettlePool(env: Env, np: NodePool, version: string, listed: map<string, Host>, keys: seq<string>,
                      inflight: nat, ready: nat, failed: nat, ghost p: Progress) returns (ok: bool)
      requires env.pool in pools && (forall k :: k in keys ==> k in listed && k in hosts) && Ascending(keys) && Keyed(Here().v)
      requires inflight == p.inflight && ready == p.ready && failed == p.failed
      modifies this
      ensures var es := Settle(old(Here()).v, env, np, version, listed, keys, p);
              Here() == After(old(Here()), es) && ok == (!Versionless(np, version, listed, keys, p) && Completes(old(Here()), es))
    {
      AfterNone(Here());
      if inflight > 0 {
        return true;
      }
      if failed > 0 {
        return true;
      }
      if ready > np.replicas {
        ok := ScaleIn(env, listed, keys);
      } else if ready < np.replicas {
        var h := PickAvailable(listed, keys, np.selector);
        if h.None? {
          return true;
        }
        ok := StageHost(h.value, version, env.now);
      } else {
        return true;
      }
    }
  }

  function Forget(v: Inventory, pool: string, addr: string): seq<Effect>
    requires pool in v.pools
  {
    if addr == "" then []
    else [DropMachine(addr), PutPool(v.pools[pool].(members := Without(v.pools[pool].members, addr)))]
  }

  function LetGo(v: Inventory, pool: string, mac: string, addr: string): seq<Effect>
    requires pool in v.pools && mac in v.hosts
  {
    Forget(v, pool, addr) + [PutHost(Released(v.hosts[mac]))]
  }

  /** A scale-in is an optional drain and then the rest. */
  lemma ScaleInSplit(s: Snap, env: Env, listed: map<string, Host>, keys: seq<string>, mac: string)
    requires env.pool in s.v.pools && (forall k :: k in keys ==> k in listed && k in s.v.hosts) && Victim(listed, keys) == Some(mac)
    ensures var addr := listed[mac].addr;
            var name := FirstName(env.nodes, addr);
            var es, rest := ScaleInEffects(s.v, env, listed, keys), [UnstageBoot(mac)] + LetGo(s.v, env.pool, mac, addr);
            if name == "" then es == rest
            else
              var d := [DrainNode(name)];
              && (Completes(s, es) <==> Completes(s, d) && Completes(After(s, d), rest))
              && After(s, es) == if Completes(s, d) then After(After(s, d), rest) else After(s, d)
  {
    var addr := listed[mac].addr;
    var name := FirstName(env.nodes, addr);
    var rest := [UnstageBoot(mac)] + LetGo(s.v, env.pool, mac, addr);
    var drain := if name != "" then [DrainNode(name)] else [];
    assert ScaleInEffects(s.v, env, listed, keys) == drain + rest;
    if name == "" { assert [] + rest == rest; } else { AfterConcat(s, drain, rest); }
  }
}
