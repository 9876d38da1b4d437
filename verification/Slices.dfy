/**
 * The reconcilers' records are the store's. A reconciler that reads, changes and writes its own records
 * one by one moves its slice of the store exactly as its model moves the slice, cut wherever a pass is
 * cut, and nothing done for other clusters shows.
 */
module Slices {
  import opened Basics
  import opened Keys
  import opened Kube
  import opened Records
  import opened StoreModel
  import P = ProvisionModel
  import R = RolloutModel

  type Db = map<Slot, Record>

  /** The place of `name` holds `r` up to its revision and observed cache, or nothing. */
  ghost predicate Here(db: Db, kind: Kind, c: string, name: string, r: Option<Record>)
  {
    var k := SlotFor(kind, c, name);
    if r.None? then k !in db else k in db && db[k] == Stamp(r.value, RevOf(db[k]))
  }

  function Entry(recs: map<string, Record>, name: string): Option<Record>
  {
    if name in recs then Some(recs[name]) else None
  }

  /** Records of one kind and one cluster, each under its own non-empty name. */
  predicate Own(recs: map<string, Record>, kind: Kind, c: string)
  {
    forall name :: name in recs ==> KindOf(recs[name]) == kind && ClusterOf(recs[name]) == c && NameOf(recs[name]) == name && name != ""
  }

  /** The bucket's part for cluster `c` is exactly `recs`. */
  ghost predicate ShowsKind(db: Db, kind: Kind, c: string, recs: map<string, Record>)
  {
    Own(recs, kind, c) && forall name :: Here(db, kind, c, name, Entry(recs, name))
  }

  /** A place under another kind, another name, or another NUL-free cluster is another place. */
  lemma OtherPlace(r: Record, kind: Kind, c: string, name: string)
    requires KindOf(r) != kind || (ClusterOf(r) == c && NameOf(r) != name) || (NulFree(c) && NulFree(ClusterOf(r)) && ClusterOf(r) != c)
    requires !BareKeyed(kind)
    ensures SlotOf(r) != SlotFor(kind, c, name)
  {
    if SlotOf(r) == SlotFor(kind, c, name) {
      if ClusterOf(r) == c {
        CKeySameCluster(c, NameOf(r), name);
      } else if NulFree(c) && NulFree(ClusterOf(r)) {
        CKeyInjective(c, name, ClusterOf(r), NameOf(r));
      }
    }
  }

  lemma PutSame(db: Db, kind: Kind, c: string, recs: map<string, Record>, r: Record, rev: nat)
    requires ShowsKind(db, kind, c, recs) && !BareKeyed(kind) && KindOf(r) == kind && ClusterOf(r) == c && NameOf(r) != ""
    ensures ShowsKind(db[SlotOf(r) := Stamp(r, rev)], kind, c, recs[NameOf(r) := r])
  {
    var db', recs' := db[SlotOf(r) := Stamp(r, rev)], recs[NameOf(r) := r];
    forall name ensures Here(db', kind, c, name, Entry(recs', name)) {
      assert Here(db, kind, c, name, Entry(recs, name));
      if name != NameOf(r) { OtherPlace(r, kind, c, name); }
    }
  }

  lemma PutOther(db: Db, kind: Kind, c: string, recs: map<string, Record>, r: Record, rev: nat)
    requires ShowsKind(db, kind, c, recs) && !BareKeyed(kind)
    requires KindOf(r) != kind || (NulFree(c) && NulFree(ClusterOf(r)) && ClusterOf(r) != c)
    ensures ShowsKind(db[SlotOf(r) := Stamp(r, rev)], kind, c, recs)
  {
    var db' := db[SlotOf(r) := Stamp(r, rev)];
    forall name ensures Here(db', kind, c, name, Entry(recs, name)) {
      assert Here(db, kind, c, name, Entry(recs, name));
      OtherPlace(r, kind, c, name);
    }
  }

  lemma DropSame(db: Db, kind: Kind, c: string, recs: map<string, Record>, name: string)
    requires ShowsKind(db, kind, c, recs) && !BareKeyed(kind)
    ensures ShowsKind(db - {SlotFor(kind, c, name)}, kind, c, recs - {name})
  {
    var db', recs' := db - {SlotFor(kind, c, name)}, recs - {name};
    forall x ensures Here(db', kind, c, x, Entry(recs', x)) {
      assert Here(db, kind, c, x, Entry(recs, x));
      if x != name && CKey(c, x) == CKey(c, name) { CKeySameCluster(c, x, name); }
    }
  }

  lemma DropOther(db: Db, kind: Kind, c: string, recs: map<string, Record>, k: Slot)
    requires ShowsKind(db, kind, c, recs) && forall name :: SlotFor(kind, c, name) != k
    ensures ShowsKind(db - {k}, kind, c, recs)
  {
    forall x ensures Here(db - {k}, kind, c, x, Entry(recs, x)) { assert Here(db, kind, c, x, Entry(recs, x)); }
  }

  // ----- provisioning -----

  function HostRecs(hosts: map<string, Host>): map<string, Record>
  {
    map m | m in hosts :: HostRec(hosts[m])
  }

  function MachineRecs(machines: map<string, Machine>): map<string, Record>
  {
    map a | a in machines :: MachineRec(machines[a])
  }

  function PoolRecs(pools: map<string, NodePool>): map<string, Record>
  {
    map p | p in pools :: PoolRec(pools[p])
  }

  /** The inventory of cluster `c` is exactly what the store holds for it. */
  ghost predicate Shows(s: Store, c: string, v: P.Inventory)
  {
    && c != "" && ShowsKind(s.db, KindHost, c, HostRecs(v.hosts))
    && ShowsKind(s.db, KindMachine, c, MachineRecs(v.machines)) && ShowsKind(s.db, KindNodePool, c, PoolRecs(v.pools))
  }

  /** The effect is about cluster `c` and names something. */
  predicate Belongs(e: P.Effect, c: string)
  {
    match e
    case PutHost(h) => h.cluster == c && h.mac != ""
    case PutMachine(m) => m.cluster == c && m.talosEndpoint != ""
    case DropMachine(a) => a != ""
    case PutPool(np) => np.cluster == c && np.name != ""
    case _ => true
  }

  /** A write after a fresh read: compare-and-swap against the revision just read. */
  function Rewrite(s: Store, r: Record): Op
  {
    OpPutDesired(r, GetRev(s, SlotOf(r)))
  }

  function EffectOp(s: Store, c: string, e: P.Effect): Option<Op>
  {
    match e
    case PutHost(h) => Some(Rewrite(s, HostRec(h)))
    case PutMachine(m) => Some(Rewrite(s, MachineRec(m)))
    case DropMachine(a) => Some(OpDeleteMachine(c, a))
    case PutPool(np) => Some(Rewrite(s, PoolRec(np)))
    case _ => None
  }

  function OnStore(s: Store, c: string, e: P.Effect): Store
  {
    var op := EffectOp(s, c, e);
    if op.None? then s else Step(s, op.value)
  }

  function AllOnStore(s: Store, c: string, es: seq<P.Effect>): Store
    decreases |es|
  {
    if es == [] then s else AllOnStore(OnStore(s, c, es[0]), c, es[1..])
  }

  lemma HostPut(s: Store, c: string, v: P.Inventory, h: Host)
    requires Shows(s, c, v) && h.cluster == c && h.mac != ""
    ensures Shows(Write(s, HostRec(h)), c, v.(hosts := v.hosts[h.mac := h]))
  {
    var r, rev := HostRec(h), s.counter + 1;
    PutSame(s.db, KindHost, c, HostRecs(v.hosts), r, rev);
    PutOther(s.db, KindMachine, c, MachineRecs(v.machines), r, rev);
    PutOther(s.db, KindNodePool, c, PoolRecs(v.pools), r, rev);
    HostRecsPut(v.hosts, h);
  }

  lemma HostRecsPut(hosts: map<string, Host>, h: Host)
    ensures HostRecs(hosts[h.mac := h]) == HostRecs(hosts)[h.mac := HostRec(h)]
  {
  }

  lemma MachinePut(s: Store, c: string, v: P.Inventory, m: Machine)
    requires Shows(s, c, v) && m.cluster == c && m.talosEndpoint != ""
    ensures Shows(Write(s, MachineRec(m)), c, v.(machines := v.machines[m.talosEndpoint := m]))
  {
    var r, rev := MachineRec(m), s.counter + 1;
    PutOther(s.db, KindHost, c, HostRecs(v.hosts), r, rev);
    PutSame(s.db, KindMachine, c, MachineRecs(v.machines), r, rev);
    PutOther(s.db, KindNodePool, c, PoolRecs(v.pools), r, rev);
    assert MachineRecs(v.machines[m.talosEndpoint := m]) == MachineRecs(v.machines)[m.talosEndpoint := r];
  }

  lemma PoolPut(s: Store, c: string, v: P.Inventory, np: NodePool)
    requires Shows(s, c, v) && np.cluster == c && np.name != ""
    ensures Shows(Write(s, PoolRec(np)), c, v.(pools := v.pools[np.name := np]))
  {
    var r, rev := PoolRec(np), s.counter + 1;
    PutOther(s.db, KindHost, c, HostRecs(v.hosts), r, rev);
    PutOther(s.db, KindMachine, c, MachineRecs(v.machines), r, rev);
    PutSame(s.db, KindNodePool, c, PoolRecs(v.pools), r, rev);
    PoolRecsPut(v.pools, np);
  }

  lemma PoolRecsPut(pools: map<string, NodePool>, np: NodePool)
    ensures PoolRecs(pools[np.name := np]) == PoolRecs(pools)[np.name := PoolRec(np)]
  {
  }

  lemma MachineDropped(s: Store, c: string, v: P.Inventory, a: string)
    requires Shows(s, c, v) && a != ""
    ensures Shows(DeleteOne(s, KindMachine, c, a), c, v.(machines := v.machines - {a}))
  {
    var k := SlotFor(KindMachine, c, a);
    DropOther(s.db, KindHost, c, HostRecs(v.hosts), k);
    DropSame(s.db, KindMachine, c, MachineRecs(v.machines), a);
    DropOther(s.db, KindNodePool, c, PoolRecs(v.pools), k);
    assert MachineRecs(v.machines - {a}) == MachineRecs(v.machines) - {a};
  }

  /** One effect of the reconciler and one operation of the store agree. */
  lemma EffectShown(s: Store, c: string, v: P.Inventory, e: P.Effect)
    requires Shows(s, c, v) && Belongs(e, c)
    ensures Shows(OnStore(s, c, e), c, P.Applied(v, e))
  {
    match e
    case PutHost(h) => HostShown(s, c, v, h);
    case PutMachine(m) => MachineShown(s, c, v, m);
    case DropMachine(a) => DropShown(s, c, v, a);
    case PutPool(np) => PoolShown(s, c, v, np);
    case _ =>
  }

  lemma HostShown(s: Store, c: string, v: P.Inventory, h: Host)
    requires Shows(s, c, v) && h.cluster == c && h.mac != ""
    ensures Shows(OnStore(s, c, P.PutHost(h)), c, P.Applied(v, P.PutHost(h)))
  {
    HostPut(s, c, v, h);
    assert OnStore(s, c, P.PutHost(h)) == Write(s, HostRec(h));
  }

  lemma MachineShown(s: Store, c: string, v: P.Inventory, m: Machine)
    requires Shows(s, c, v) && m.cluster == c && m.talosEndpoint != ""
    ensures Shows(OnStore(s, c, P.PutMachine(m)), c, P.Applied(v, P.PutMachine(m)))
  {
    MachinePut(s, c, v, m);
    assert OnStore(s, c, P.PutMachine(m)) == Write(s, MachineRec(m));
  }

  lemma PoolShown(s: Store, c: string, v: P.Inventory, np: NodePool)
    requires Shows(s, c, v) && np.cluster == c && np.name != ""
    ensures Shows(OnStore(s, c, P.PutPool(np)), c, P.Applied(v, P.PutPool(np)))
  {
    PoolPut(s, c, v, np);
    assert OnStore(s, c, P.PutPool(np)) == Write(s, PoolRec(np));
  }

  lemma DropShown(s: Store, c: string, v: P.Inventory, a: string)
    requires Shows(s, c, v) && a != ""
    ensures Shows(OnStore(s, c, P.DropMachine(a)), c, P.Applied(v, P.DropMachine(a)))
  {
    MachineDropped(s, c, v, a);
  }

  ghost predicate AllBelong(es: seq<P.Effect>, c: string)
  {
    forall i :: 0 <= i < |es| ==> Belongs(es[i], c)
  }

  lemma {:induction false} EffectsShown(s: Store, c: string, v: P.Inventory, es: seq<P.Effect>)
    requires Shows(s, c, v) && AllBelong(es, c)
    ensures Shows(AllOnStore(s, c, es), c, P.AppliedAll(v, es))
    decreases |es|
  {
    if es != [] {
      EffectShown(s, c, v, es[0]);
      EffectsShown(OnStore(s, c, es[0]), c, P.Applied(v, es[0]), es[1..]);
    }
  }

  /** Every record of the inventory is of cluster `c`, under its own non-empty name. */
  ghost predicate Local(v: P.Inventory, c: string)
  {
    && (forall m :: m in v.hosts ==> v.hosts[m].cluster == c && v.hosts[m].mac == m && m != "")
    && (forall a :: a in v.machines ==> v.machines[a].cluster == c && v.machines[a].talosEndpoint == a && a != "")
    && (forall p :: p in v.pools ==> v.pools[p].cluster == c && v.pools[p].name == p && p != "")
  }

  lemma ShownIsLocal(s: Store, c: string, v: P.Inventory)
    requires Shows(s, c, v)
    ensures Local(v, c)
  {
    forall m | m in v.hosts ensures v.hosts[m].cluster == c && v.hosts[m].mac == m && m != "" { assert m in HostRecs(v.hosts); }
    forall a | a in v.machines ensures v.machines[a].cluster == c && v.machines[a].talosEndpoint == a && a != "" {
      assert a in MachineRecs(v.machines);
    }
    forall p | p in v.pools ensures v.pools[p].cluster == c && v.pools[p].name == p && p != "" { assert p in PoolRecs(v.pools); }
  }

  lemma {:induction false} LocalKept(v: P.Inventory, c: string, es: seq<P.Effect>)
    requires Local(v, c) && AllBelong(es, c)
    ensures Local(P.AppliedAll(v, es), c)
    decreases |es|
  {
    if es != [] { LocalKept(P.Applied(v, es[0]), c, es[1..]); }
  }

  lemma {:induction false} AdvanceBelongs(v: P.Inventory, c: string, env: P.Env, listed: map<string, Host>, keys: seq<string>, claimed: set<string>)
    requires Local(v, c) && env.pool in v.pools && forall k :: k in keys ==> k in listed && k in v.hosts
    ensures AllBelong(P.Advance(v, env, listed, keys, claimed).effects, c)
    decreases |keys|
  {
    if keys != [] {
      var k, n := keys[0], P.NewJoined(env.nodes, claimed, env.role);
      if listed[k].state == Provisioning && n.Some? {
        var es := P.BindEffects(v, env.pool, k, n.value, env.role);
        BindBelongs(v, c, env.pool, k, n.value, env.role);
        LocalKept(v, c, es);
        AdvanceBelongs(P.AppliedAll(v, es), c, env, listed, keys[1..], claimed + {n.value.internalIP});
      } else if listed[k].state == Provisioning && P.TimedOut(listed[k], env.now, env.timeout) {
        var es := [P.PutHost(P.FailedHost(v.hosts[k]))];
        LocalKept(v, c, es);
        AdvanceBelongs(P.AppliedAll(v, es), c, env, listed, keys[1..], claimed);
      } else {
        AdvanceBelongs(v, c, env, listed, keys[1..], claimed);
      }
    }
  }

  lemma BindBelongs(v: P.Inventory, c: string, pool: string, mac: string, node: NodeInfo, role: Role)
    requires Local(v, c) && mac in v.hosts && pool in v.pools && node.internalIP != ""
    ensures AllBelong(P.BindEffects(v, pool, mac, node, role), c)
  {
  }

  lemma PassBelongs(v: P.Inventory, c: string, n: P.PassInput)
    requires Local(v, c)
    ensures AllBelong(P.PassEffects(v, n), c)
  {
    if P.Engaged(v, n) {
      var env, keys := P.EnvOf(v, n), P.PoolKeys(v, n.pool);
      var p := P.Advance(v, env, v.hosts, keys, P.ClaimedAddrs(v, keys));
      AdvanceBelongs(v, c, env, v.hosts, keys, P.ClaimedAddrs(v, keys));
      LocalKept(v, c, p.effects);
      SettleBelongs(P.AppliedAll(v, p.effects), c, env, v.pools[n.pool], P.StageVersion(v.pools[n.pool], n.cl.value), v.hosts, keys, p);
    }
  }

  lemma SettleBelongs(v: P.Inventory, c: string, env: P.Env, np: NodePool, version: string, listed: map<string, Host>, keys: seq<string>,
                      p: P.Progress)
    requires Local(v, c) && env.pool in v.pools && forall k :: k in keys ==> k in listed && k in v.hosts
    ensures AllBelong(P.Settle(v, env, np, version, listed, keys, p), c)
  {
  }

  /** A provisioning pass cut anywhere, run against the store, leaves the store showing what the model says. */
  lemma PassOnStore(s: Store, c: string, v: P.Inventory, n: P.PassInput, cut: nat)
    requires Shows(s, c, v)
    ensures var es := P.PassEffects(v, n);
            Shows(AllOnStore(s, c, if cut < |es| then es[..cut] else es), c, P.PassCut(v, n, cut))
  {
    var es := P.PassEffects(v, n);
    ShownIsLocal(s, c, v);
    PassBelongs(v, c, n);
    EffectsShown(s, c, v, if cut < |es| then es[..cut] else es);
  }

  // ----- isolation -----

  /** An operation that is not about the hosts, machines and pools of cluster `c`. */
  predicate Elsewhere(op: Op, c: string)
  {
    match op
    case OpPutDesired(r, _) => KindOf(r) !in {KindHost, KindMachine, KindNodePool} || (NulFree(ClusterOf(r)) && ClusterOf(r) != c)
    case OpPutRollout(r) => !IsDesired(KindOf(r))
    case OpDeleteHost(d, _) => NulFree(d) && d != c
    case OpDeleteMachine(d, _) => NulFree(d) && d != c
    case OpDeleteCluster(d) => NulFree(d) && d != c
    case _ => true
  }

  lemma StepElsewhere(s: Store, op: Op, kind: Kind, c: string, recs: map<string, Record>)
    requires NulFree(c) && Elsewhere(op, c) && kind in {KindHost, KindMachine, KindNodePool} && ShowsKind(s.db, kind, c, recs)
    ensures ShowsKind(Step(s, op).db, kind, c, recs)
  {
    match op
    case OpPutDesired(r, _) => WriteOther(s, kind, c, recs, r);
    case OpPutRollout(r) => WriteOther(s, kind, c, recs, r);
    case OpDeleteHost(d, m) => DropElsewhere(s.db, kind, c, recs, KindHost, d, m);
    case OpDeleteMachine(d, a) => DropElsewhere(s.db, kind, c, recs, KindMachine, d, a);
    case OpDeleteCluster(d) => TeardownElsewhere(s.db, kind, c, recs, d);
    case _ =>
  }

  lemma WriteOther(s: Store, kind: Kind, c: string, recs: map<string, Record>, r: Record)
    requires ShowsKind(s.db, kind, c, recs) && !BareKeyed(kind)
    requires KindOf(r) != kind || (NulFree(c) && NulFree(ClusterOf(r)) && ClusterOf(r) != c)
    ensures ShowsKind(Write(s, r).db, kind, c, recs)
  {
    PutOther(s.db, kind, c, recs, r, s.counter + 1);
  }

  lemma DropElsewhere(db: Db, kind: Kind, c: string, recs: map<string, Record>, other: Kind, d: string, name: string)
    requires ShowsKind(db, kind, c, recs) && !BareKeyed(kind) && !BareKeyed(other) && NulFree(c) && NulFree(d) && d != c
    ensures ShowsKind(db - {SlotFor(other, d, name)}, kind, c, recs)
  {
    forall x ensures SlotFor(kind, c, x) != SlotFor(other, d, name) {
      if CKey(c, x) == CKey(d, name) { CKeyInjective(c, x, d, name); }
    }
    DropOther(db, kind, c, recs, SlotFor(other, d, name));
  }

  lemma TeardownElsewhere(db: Db, kind: Kind, c: string, recs: map<string, Record>, d: string)
    requires ShowsKind(db, kind, c, recs) && !BareKeyed(kind) && NulFree(c) && NulFree(d) && d != c
    ensures ShowsKind(WithoutCluster(db, d), kind, c, recs)
  {
    forall x ensures Here(WithoutCluster(db, d), kind, c, x, Entry(recs, x)) {
      assert Here(db, kind, c, x, Entry(recs, x));
      ScanExact(d, c, x);
    }
  }

  /** Whatever runs for other clusters, for rollouts or for watchers, and every crash, leaves the inventory alone. */
  lemma {:induction false} OthersLeaveInventory(s: Store, ops: seq<Op>, c: string, v: P.Inventory)
    requires Shows(s, c, v) && NulFree(c) && forall i :: 0 <= i < |ops| ==> Elsewhere(ops[i], c)
    ensures Shows(Run(s, ops), c, v)
    decreases |ops|
  {
    if ops != [] {
      StepElsewhere(s, ops[0], KindHost, c, HostRecs(v.hosts));
      StepElsewhere(s, ops[0], KindMachine, c, MachineRecs(v.machines));
      StepElsewhere(s, ops[0], KindNodePool, c, PoolRecs(v.pools));
      OthersLeaveInventory(Step(s, ops[0]), ops[1..], c, v);
    }
  }

  // ----- rollouts -----

  /** The node records of cluster `c` are exactly what the store holds for it. */
  ghost predicate ShowsRecs(s: Store, c: string, recs: R.Recs)
  {
    forall a :: var k := SlotFor(KindMachineRollout, c, a);
      && (k in s.db <==> a in recs)
      && (k in s.db ==> s.db[k].MachineRolloutRec? && R.Rec(s.db[k].machineRollout.state, s.db[k].machineRollout.target) == recs[a])
  }

  function CallOnStore(s: Store, c: string, x: R.Call, message: string): Store
  {
    if x.SetState? then Step(s, OpPutRollout(MachineRolloutRec(MachineRollout(c, x.addr, x.state, x.target, message, 0)))) else s
  }

  function CallsOnStore(s: Store, c: string, t: seq<R.Call>, messages: seq<string>): Store
    requires |messages| == |t|
    decreases |t|
  {
    if t == [] then s else CallsOnStore(CallOnStore(s, c, t[0], messages[0]), c, t[1..], messages[1..])
  }

  lemma CallShown(s: Store, c: string, recs: R.Recs, x: R.Call, message: string)
    requires ShowsRecs(s, c, recs) && c != "" && x.addr != ""
    ensures ShowsRecs(CallOnStore(s, c, x, message), c, R.Recorded(recs, x))
  {
    if x.SetState? {
      var r := MachineRolloutRec(MachineRollout(c, x.addr, x.state, x.target, message, 0));
      forall a | a != x.addr ensures SlotFor(KindMachineRollout, c, a) != SlotOf(r) { OtherPlace(r, KindMachineRollout, c, a); }
    }
  }

  /** A rollout's trace, cut anywhere, run against the store, leaves the node records the model says. */
  lemma {:induction false} TraceOnStore(s: Store, c: string, recs: R.Recs, t: seq<R.Call>, messages: seq<string>)
    requires ShowsRecs(s, c, recs) && c != "" && |messages| == |t| && forall i :: 0 <= i < |t| ==> t[i].addr != ""
    ensures ShowsRecs(CallsOnStore(s, c, t, messages), c, R.RecsAfter(recs, t))
    decreases |t|
  {
    if t != [] {
      CallShown(s, c, recs, t[0], messages[0]);
      TraceOnStore(CallOnStore(s, c, t[0], messages[0]), c, R.Recorded(recs, t[0]), t[1..], messages[1..]);
    }
  }
}
