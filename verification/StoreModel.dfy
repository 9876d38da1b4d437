/** The embedded store as a value: what is on disk, what is only in memory, and what each operation does to both. */
module StoreModel {
  import opened Basics
  import opened Keys
  import opened Records
  import opened Text

  /** Capacity of a subscriber's channel. */
  const SUB_BUFFER: nat := 256

  datatype StoreError = Conflict | Invalid

  datatype Store = Store(
    counter: nat,                                  // disk: meta/revision
    db: map<Slot, Record>,                         // disk: the eight record buckets
    lastRev: nat,                                  // memory
    obsCluster: map<string, Option<ClusterObserved>>,
    obsMachine: map<string, Option<MachineObserved>>,
    subs: map<nat, seq<Event>>,                    // memory: what each subscriber's channel holds
    nextSub: nat)

  const EMPTY := Store(0, map[], 0, map[], map[], map[], 0)

  /** A crash and reopen: the disk survives, everything else starts over. */
  function Reopened(s: Store): Store
  {
    Store(s.counter, s.db, s.counter, map[], map[], map[], 0)
  }

  // ----- writes -----

  /** Fan-out to every subscriber; a full channel loses the event. */
  function Published(subs: map<nat, seq<Event>>, ev: Event): map<nat, seq<Event>>
  {
    map id | id in subs :: if |subs[id]| < SUB_BUFFER then subs[id] + [ev] else subs[id]
  }

  /** The shared shape of every persisted write: bump, change the buckets, publish. */
  function Committed(s: Store, db: map<Slot, Record>, kind: Kind, key: string): Store
  {
    var rev := s.counter + 1;
    s.(counter := rev, db := db, lastRev := rev, subs := Published(s.subs, Event(kind, key, rev)))
  }

  function Write(s: Store, r: Record): Store
  {
    Committed(s, s.db[SlotOf(r) := Stamp(r, s.counter + 1)], KindOf(r), EventKey(r))
  }

  predicate CasAccepts(s: Store, slot: Slot, expected: nat)
  {
    if slot in s.db then RevOf(s.db[slot]) == expected else expected == 0
  }

  function PutDesired(s: Store, r: Record, expected: nat): (Store, Result<nat, StoreError>)
  {
    if !Named(r) then (s, Err(Invalid))
    else if !CasAccepts(s, SlotOf(r), expected) then (s, Err(Conflict))
    else (Write(s, r), Ok(s.counter + 1))
  }

  function PutRollout(s: Store, r: Record): (Store, Result<nat, StoreError>)
  {
    if !Named(r) then (s, Err(Invalid)) else (Write(s, r), Ok(s.counter + 1))
  }

  // ----- deletes -----

  function DeleteOne(s: Store, kind: Kind, cluster: string, name: string): Store
  {
    if cluster == "" || name == "" then s
    else
      var s' := Committed(s, s.db - {SlotFor(kind, cluster, name)}, kind, cluster + "/" + name);
      if kind == KindMachine then s'.(obsMachine := s.obsMachine - {CKey(cluster, name)}) else s'
  }

  /** The slots a cluster's teardown clears: the bare name, or every key the prefix scan reaches. */
  predicate TornDown(slot: Slot, cluster: string)
  {
    if BareKeyed(slot.kind) then slot.key == cluster else Scanned(slot.key, cluster)
  }

  function WithoutCluster(db: map<Slot, Record>, cluster: string): map<Slot, Record>
  {
    map k | k in db && !TornDown(k, cluster) :: db[k]
  }

  function WithoutPrefix<T>(m: map<string, T>, cluster: string): map<string, T>
  {
    map k | k in m && !Scanned(k, cluster) :: m[k]
  }

  function DeleteCluster(s: Store, cluster: string): Store
  {
    if cluster == "" then s
    else
      Committed(s, WithoutCluster(s.db, cluster), KindCluster, cluster)
      .(obsCluster := s.obsCluster - {cluster}, obsMachine := WithoutPrefix(s.obsMachine, cluster))
  }

  // ----- reads -----

  /** Reads of clusters and machines overlay the observed cache. */
  function Overlay(s: Store, slot: Slot, r: Record): Record
  {
    match r
    case ClusterRec(c) =>
      ClusterRec(c.(observed := if slot.key in s.obsCluster then s.obsCluster[slot.key] else None))
    case MachineRec(m) =>
      MachineRec(m.(observed := if slot.key in s.obsMachine then s.obsMachine[slot.key] else None))
    case _ => r
  }

  function Get(s: Store, slot: Slot): Option<Record>
  {
    if slot in s.db then Some(Overlay(s, slot, s.db[slot])) else None
  }

  /** What is observed of a record: only clusters and machines have such a part. */
  function ObservedOf(r: Record): (Option<ClusterObserved>, Option<MachineObserved>)
  {
    match r
    case ClusterRec(c) => (c.observed, None)
    case MachineRec(m) => (None, m.observed)
    case _ => (None, None)
  }

  /** The revision handed to the caller beside the record; 0 when there is none. */
  function GetRev(s: Store, slot: Slot): nat
  {
    if slot in s.db then RevOf(s.db[slot]) else 0
  }

  /** The keys a listing visits: the whole bucket, or one cluster's prefix. */
  function ScanKeys(s: Store, kind: Kind, cluster: Option<string>): set<string>
  {
    set k | k in s.db && k.kind == kind && (cluster.None? || Scanned(k.key, cluster.value)) :: k.key
  }

  /** A listing: the visited records in key order, with the observed cache overlaid. */
  ghost function ListOf(s: Store, kind: Kind, cluster: Option<string>): (recs: seq<Record>)
  {
    ListKeys(s, kind, Listed(ScanKeys(s, kind, cluster)))
  }

  /** A listing holds exactly the records under the visited keys. */
  lemma ListedRecords(s: Store, kind: Kind, cluster: Option<string>, r: Record)
    ensures r in ListOf(s, kind, cluster) <==>
              exists key :: key in ScanKeys(s, kind, cluster) && Get(s, Slot(kind, key)) == Some(r)
  {
    var keys := Listed(ScanKeys(s, kind, cluster));
    var recs := ListKeys(s, kind, keys);
    if r in recs {
      var i :| 0 <= i < |recs| && recs[i] == r;
      assert keys[i] in keys;
    }
    if key :| key in ScanKeys(s, kind, cluster) && Get(s, Slot(kind, key)) == Some(r) {
      assert key in keys;
      var i :| 0 <= i < |keys| && keys[i] == key;
      assert recs[i] == r;
    }
  }

  ghost function ListKeys(s: Store, kind: Kind, keys: seq<string>): (recs: seq<Record>)
    requires forall x :: x in keys ==> Slot(kind, x) in s.db
    ensures |recs| == |keys|
    ensures forall i :: 0 <= i < |keys| ==> Get(s, Slot(kind, keys[i])) == Some(recs[i])
  {
    seq(|keys|, i requires 0 <= i < |keys| =>
      assert keys[i] in keys; Overlay(s, Slot(kind, keys[i]), s.db[Slot(kind, keys[i])]))
  }

  // ----- whole operations -----

  datatype Op =
    | OpPutDesired(rec: Record, expected: nat)
    | OpPutRollout(rec: Record)
    | OpDeleteHost(cluster: string, mac: string)
    | OpDeleteMachine(cluster: string, addr: string)
    | OpDeleteCluster(cluster: string)
    | OpSetClusterObserved(cluster: string, co: Option<ClusterObserved>)
    | OpSetMachineObserved(cluster: string, addr: string, mo: Option<MachineObserved>)
    | OpSubscribe
    | OpUnsubscribe(id: nat)
    | OpTake(id: nat)
    | OpCrash

  /** The typed surface: desired kinds go through compare-and-swap, rollout kinds do not. */
  predicate Typed(op: Op)
  {
    (op.OpPutDesired? ==> IsDesired(KindOf(op.rec))) && (op.OpPutRollout? ==> !IsDesired(KindOf(op.rec)))
  }

  function Step(s: Store, op: Op): Store
  {
    match op
    case OpPutDesired(r, expected) => PutDesired(s, r, expected).0
    case OpPutRollout(r) => PutRollout(s, r).0
    case OpDeleteHost(c, mac) => DeleteOne(s, KindHost, c, mac)
    case OpDeleteMachine(c, addr) => DeleteOne(s, KindMachine, c, addr)
    case OpDeleteCluster(c) => DeleteCluster(s, c)
    case OpSetClusterObserved(c, o) => s.(obsCluster := s.obsCluster[c := o])
    case OpSetMachineObserved(c, a, o) => s.(obsMachine := s.obsMachine[CKey(c, a) := o])
    case OpSubscribe => s.(subs := s.subs[s.nextSub := []], nextSub := s.nextSub + 1)
    case OpUnsubscribe(id) => s.(subs := s.subs - {id})
    case OpTake(id) => if id in s.subs && s.subs[id] != [] then s.(subs := s.subs[id := s.subs[id][1..]]) else s
    case OpCrash => Reopened(s)
  }

  function Run(s: Store, ops: seq<Op>): Store
    decreases |ops|
  {
    if ops == [] then s else Run(Step(s, ops[0]), ops[1..])
  }

  // ----- invariant -----

  ghost predicate Increasing(evs: seq<Event>)
  {
    forall i, j :: 0 <= i < j < |evs| ==> evs[i].revision < evs[j].revision
  }

  /** Every record sits under the key its own fields give, with no observed state and a live revision. */
  ghost predicate WellPlaced(s: Store)
  {
    forall k :: k in s.db ==>
      SlotOf(s.db[k]) == k && Named(s.db[k]) && !HasObserved(s.db[k]) && 0 < RevOf(s.db[k]) <= s.counter
  }

  ghost predicate RevisionsDistinct(s: Store)
  {
    forall k, l :: k in s.db && l in s.db && k != l ==> RevOf(s.db[k]) != RevOf(s.db[l])
  }

  ghost predicate Buffered(s: Store)
  {
    forall id :: id in s.subs ==>
      && id < s.nextSub
      && |s.subs[id]| <= SUB_BUFFER
      && Increasing(s.subs[id])
      && forall i :: 0 <= i < |s.subs[id]| ==> s.subs[id][i].revision <= s.counter
  }

  ghost predicate Inv(s: Store)
  {
    s.lastRev == s.counter && WellPlaced(s) && RevisionsDistinct(s) && Buffered(s)
  }

  lemma CommittedBuffers(s: Store, db: map<Slot, Record>, kind: Kind, key: string)
    requires Buffered(s)
    ensures Buffered(Committed(s, db, kind, key))
  {
    var s' := Committed(s, db, kind, key);
    forall id | id in s'.subs
      ensures |s'.subs[id]| <= SUB_BUFFER && Increasing(s'.subs[id])
      ensures forall i :: 0 <= i < |s'.subs[id]| ==> s'.subs[id][i].revision <= s'.counter
    {
      assert id in s.subs;
    }
  }

  lemma WriteInv(s: Store, r: Record)
    requires Inv(s) && Named(r)
    ensures Inv(Write(s, r))
  {
    CommittedBuffers(s, s.db[SlotOf(r) := Stamp(r, s.counter + 1)], KindOf(r), EventKey(r));
    StampNamed(r, s.counter + 1);
  }

  lemma StampNamed(r: Record, rev: nat)
    ensures Named(Stamp(r, rev)) == Named(r) && EventKey(Stamp(r, rev)) == EventKey(r)
  {
  }

  /** Removing records keeps the invariant. */
  lemma ShrinkInv(s: Store, db: map<Slot, Record>, kind: Kind, key: string)
    requires Inv(s)
    requires forall k :: k in db ==> k in s.db && db[k] == s.db[k]
    ensures Inv(Committed(s, db, kind, key))
  {
    CommittedBuffers(s, db, kind, key);
  }

  lemma TakeInv(s: Store, id: nat)
    requires Inv(s) && id in s.subs && s.subs[id] != []
    ensures Inv(Step(s, OpTake(id)))
  {
    var q := s.subs[id];
    assert forall i :: 0 <= i < |q| - 1 ==> q[1..][i] == q[i + 1];
    var s' := Step(s, OpTake(id));
    assert Increasing(q[1..]);
    assert WellPlaced(s') && RevisionsDistinct(s');
  }

  lemma DeleteInv(s: Store, kind: Kind, c: string, name: string)
    requires Inv(s)
    ensures Inv(DeleteOne(s, kind, c, name))
  {
    ShrinkInv(s, s.db - {SlotFor(kind, c, name)}, kind, c + "/" + name);
  }

  lemma TeardownInv(s: Store, c: string)
    requires Inv(s)
    ensures Inv(DeleteCluster(s, c))
  {
    ShrinkInv(s, WithoutCluster(s.db, c), KindCluster, c);
  }

  /** Every operation, refused or not, and every crash keeps the invariant. */
  lemma StepInv(s: Store, op: Op)
    requires Inv(s)
    ensures Inv(Step(s, op))
  {
    match op
    case OpPutDesired(r, expected) => if Named(r) { WriteInv(s, r); }
    case OpPutRollout(r) => if Named(r) { WriteInv(s, r); }
    case OpDeleteHost(c, mac) => DeleteInv(s, KindHost, c, mac);
    case OpDeleteMachine(c, a) => DeleteInv(s, KindMachine, c, a);
    case OpDeleteCluster(c) => TeardownInv(s, c);
    case OpTake(id) => if id in s.subs && s.subs[id] != [] { TakeInv(s, id); }
    case _ =>
  }

  /** The invariant over every sequence of operations, conflicts, imports and crashes. */
  lemma {:induction false} RunInv(s: Store, ops: seq<Op>)
    requires Inv(s)
    ensures Inv(Run(s, ops))
    decreases |ops|
  {
    if ops != [] {
      StepInv(s, ops[0]);
      RunInv(Step(s, ops[0]), ops[1..]);
    }
  }

  // ----- a revision names one record for ever -----

  /** Whatever is stored later is either untouched or newer than everything earlier. */
  ghost predicate Descends(s: Store, s': Store)
  {
    s.counter <= s'.counter &&
    forall k :: k in s'.db ==> RevOf(s'.db[k]) > s.counter || (k in s.db && s.db[k] == s'.db[k])
  }

  lemma StepDescends(s: Store, op: Op)
    ensures Descends(s, Step(s, op))
  {
  }

  lemma {:induction false} RunDescends(s: Store, ops: seq<Op>)
    ensures Descends(s, Run(s, ops))
    decreases |ops|
  {
    if ops != [] {
      StepDescends(s, ops[0]);
      RunDescends(Step(s, ops[0]), ops[1..]);
    }
  }

  /**
   * No revision is ever reused: if a record read in `s` and a record stored any number of
   * operations, deletes, re-creations and crashes later carry the same revision, they are the
   * same record under the same key.
   */
  lemma RevisionNamesRecord(s: Store, ops: seq<Op>, k: Slot, l: Slot)
    requires Inv(s) && k in s.db && l in Run(s, ops).db
    requires RevOf(s.db[k]) == RevOf(Run(s, ops).db[l])
    ensures k == l && Run(s, ops).db[l] == s.db[k]
  {
    RunDescends(s, ops);
  }

  // ----- compare-and-swap -----

  // ----- what is observed is kept in memory, beside the records -----

  /** What is observed of a cluster is what the next read of it shows; no other read and nothing on disk changes. */
  lemma ClusterObservedReadsBack(s: Store, c: string, o: Option<ClusterObserved>, k: Slot)
    requires Inv(s)
    ensures var s' := Step(s, OpSetClusterObserved(c, o));
            && s'.db == s.db && s'.counter == s.counter && s'.subs == s.subs
            && Get(s', k) == if k == Slot(KindCluster, c) && k in s.db then Some(Observed(s.db[k], o, None)) else Get(s, k)
  {
    if k in s.db { KindAt(s, k); }
  }

  /** Likewise for a machine. */
  lemma MachineObservedReadsBack(s: Store, c: string, a: string, o: Option<MachineObserved>, k: Slot)
    requires Inv(s)
    ensures var s' := Step(s, OpSetMachineObserved(c, a, o));
            && s'.db == s.db && s'.counter == s.counter && s'.subs == s.subs
            && Get(s', k) == if k == SlotFor(KindMachine, c, a) && k in s.db then Some(Observed(s.db[k], None, o)) else Get(s, k)
  {
    if k in s.db { KindAt(s, k); }
  }

  lemma KindAt(s: Store, k: Slot)
    requires Inv(s) && k in s.db
    ensures KindOf(s.db[k]) == k.kind
  {
    assert SlotOf(s.db[k]) == k;
  }

  /** The record with its observed part replaced, for the kinds that have one. */
  function Observed(r: Record, co: Option<ClusterObserved>, mo: Option<MachineObserved>): (o: Record)
    ensures ObservedOf(o) == (if r.ClusterRec? then co else None, if r.MachineRec? then mo else None)
    ensures Stamp(o, RevOf(r)) == Stamp(r, RevOf(r)) && RevOf(o) == RevOf(r)
  {
    match r
    case ClusterRec(c) => ClusterRec(c.(observed := co))
    case MachineRec(m) => MachineRec(m.(observed := mo))
    case _ => r
  }

  /** A restart forgets what was observed; a record deleted and made again starts without it. */
  lemma ObservedIsForgotten(s: Store, r: Record)
    requires Inv(s) && Named(r) && (r.MachineRec? || r.ClusterRec?)
    ensures forall k :: k in s.db ==> Get(Step(s, OpCrash), k) == Some(s.db[k]) && ObservedOf(s.db[k]) == (None, None)
    ensures var gone := if r.MachineRec? then OpDeleteMachine(r.machine.cluster, r.machine.talosEndpoint) else OpDeleteCluster(r.cluster.name);
            var s' := Step(Step(s, gone), OpPutDesired(r, 0));
            SlotOf(r) in s'.db && Get(s', SlotOf(r)) == Some(s'.db[SlotOf(r)]) && ObservedOf(s'.db[SlotOf(r)]) == (None, None)
  {
    assert forall k :: k in s.db ==> !HasObserved(s.db[k]);
  }

  /** A put is refused as invalid exactly when a name it goes by is missing; only a job may do without its second one. */
  lemma InvalidIff(s: Store, r: Record, expected: nat)
    ensures PutDesired(s, r, expected).1 == Err(Invalid) <==> Nameless(r)
    ensures PutRollout(s, r).1 == Err(Invalid) <==> Nameless(r)
  {
  }

  predicate Nameless(r: Record)
  {
    match r
    case ClusterRec(c) => c.name == ""
    case PoolRec(np) => np.cluster == "" || np.name == ""
    case MachineRec(m) => m.cluster == "" || m.talosEndpoint == ""
    case HostRec(h) => h.cluster == "" || h.mac == ""
    case MachineRolloutRec(x) => x.cluster == "" || x.addr == ""
    case ClusterRolloutRec(x) => x.cluster == ""
    case JobRec(j) => j.cluster == ""
    case BootstrapRec(b) => b.cluster == ""
  }

  /** Accepted exactly when named and current; refused means nothing changes and nothing is published. */
  lemma CasExact(s: Store, r: Record, expected: nat)
    requires Inv(s)
    ensures PutDesired(s, r, expected).1.Ok? <==> Named(r) && GetRev(s, SlotOf(r)) == expected
    ensures PutDesired(s, r, expected).1.Err? ==> PutDesired(s, r, expected).0 == s
    ensures PutDesired(s, r, expected).1.Ok? ==>
              var s' := PutDesired(s, r, expected).0;
              && GetRev(s', SlotOf(r)) == s'.lastRev == PutDesired(s, r, expected).1.value > s.lastRev
              && s'.db - {SlotOf(r)} == s.db - {SlotOf(r)}
              && Get(s', SlotOf(r)) == Some(Overlay(s, SlotOf(r), Stamp(r, s'.lastRev)))
              && forall id :: id in s.subs && |s.subs[id]| < SUB_BUFFER ==>
                   s'.subs[id] == s.subs[id] + [EventOf(s'.db[SlotOf(r)])]
  {
    if Named(r) && CasAccepts(s, SlotOf(r), expected) { WriteEffect(s, r); }
  }

  lemma WriteEffect(s: Store, r: Record)
    requires s.lastRev == s.counter
    ensures var s' := Write(s, r);
            && GetRev(s', SlotOf(r)) == s'.lastRev == s.counter + 1
            && s'.db - {SlotOf(r)} == s.db - {SlotOf(r)}
            && Get(s', SlotOf(r)) == Some(Overlay(s, SlotOf(r), Stamp(r, s'.lastRev)))
            && forall id :: id in s.subs && |s.subs[id]| < SUB_BUFFER ==>
                 s'.subs[id] == s.subs[id] + [EventOf(s'.db[SlotOf(r)])]
  {
    StampNamed(r, s.counter + 1);
  }

  // ----- teardown -----

  /** A name pair whose compound key the scan for `c` reaches although it belongs to another cluster. */
  predicate Confusable(c: string, a: string, b: string)
  {
    a != c && (c + [NUL] <= a || (a + [NUL] <= c && c[|a| + 1..] + [NUL] <= b))
  }

  /** Teardown removes all and only the cluster's records exactly when no stored name is confusable with it. */
  lemma TeardownExactIff(s: Store, c: string)
    requires Inv(s) && c != ""
    ensures
      (forall k :: k in s.db ==> (k in DeleteCluster(s, c).db <==> ClusterOf(s.db[k]) != c))
      <==>
      (forall k :: k in s.db && !BareKeyed(k.kind) ==> !Confusable(c, ClusterOf(s.db[k]), NameOf(s.db[k])))
  {
    forall k | k in s.db
      ensures TornDown(k, c) <==>
        ClusterOf(s.db[k]) == c ||
        (!BareKeyed(k.kind) && Confusable(c, ClusterOf(s.db[k]), NameOf(s.db[k])))
    {
      ScanReach(c, ClusterOf(s.db[k]), NameOf(s.db[k]));
    }
    assert forall k :: k in s.db ==> (k in DeleteCluster(s, c).db <==> !TornDown(k, c));
  }

  /**
   * With NUL-free cluster names, teardown leaves exactly the other clusters' records, unchanged,
   * in all eight buckets and both observed caches.
   */
  lemma TeardownScope(s: Store, c: string)
    requires Inv(s) && c != "" && NulFree(c)
    requires forall k :: k in s.db ==> NulFree(ClusterOf(s.db[k]))
    ensures var s' := DeleteCluster(s, c);
            && (forall k :: k in s'.db <==> k in s.db && ClusterOf(s.db[k]) != c)
            && (forall k :: k in s'.db ==> s'.db[k] == s.db[k])
            && s'.obsCluster == s.obsCluster - {c}
            && (forall a, b :: NulFree(a) ==>
                  (CKey(a, b) in s'.obsMachine <==> CKey(a, b) in s.obsMachine && a != c))
            && (forall k :: k in s'.obsMachine ==> s'.obsMachine[k] == s.obsMachine[k])
  {
    var s' := DeleteCluster(s, c);
    forall k | k in s.db ensures TornDown(k, c) <==> ClusterOf(s.db[k]) == c {
      ScanExact(c, ClusterOf(s.db[k]), NameOf(s.db[k]));
    }
    forall a, b | NulFree(a) ensures Scanned(CKey(a, b), c) <==> a == c { ScanExact(c, a, b); }
  }
}
