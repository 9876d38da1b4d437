/** The API handlers' read-modify-write over the store's compare-and-swap. */
module Handlers {
  import opened Basics
  import opened Records
  import opened StoreModel

  /** What a handler does to the record it read. */
  datatype Mutation =
    | SetClusterVersions(talos: Option<string>, kubernetes: Option<string>)
    | SetRolloutsEnabled(on: bool)
    | SetProvisioningEnabled(on: bool)
    | SetKubernetesTarget(version: string)
    | SetPoolVersion(talos: Option<string>)
    | SetPoolTarget(version: string)
    | SetPaused(on: bool)
    | UpsertHost(cluster: string, mac: string, pool: string, role: Role, labels: map<string, string>)
    | Overwrite(rec: Record)  // seeding, bootstrap inventory and import write whole records

  datatype Status = NotFound | FailedPrecondition | Aborted | Internal | Contended | Crashed

  datatype Request = Request(slot: Slot, mutation: Mutation, pin: nat)

  /** The record kind a mutation is for. */
  function KindFor(m: Mutation): Kind
  {
    match m
    case SetPoolVersion(_) => KindNodePool
    case SetPoolTarget(_) => KindNodePool
    case SetPaused(_) => KindNodePool
    case UpsertHost(_, _, _, _, _) => KindHost
    case Overwrite(r) => KindOf(r)
    case _ => KindCluster
  }

  predicate WellFormed(q: Request)
  {
    && q.slot.kind == KindFor(q.mutation) && IsDesired(q.slot.kind)
    && (q.mutation.UpsertHost? ==> q.slot == SlotFor(KindHost, q.mutation.cluster, q.mutation.mac))
    && (q.mutation.Overwrite? ==> q.slot == SlotOf(q.mutation.rec))
  }

  function ClusterAfter(m: Mutation, c: Cluster): Cluster
  {
    var d := if c.desired.Some? then c.desired.value else ClusterDesired("", "");
    match m
    case SetClusterVersions(t, k) =>
      c.(desired := Some(ClusterDesired(
        if t.Some? then t.value else d.talosVersion, if k.Some? then k.value else d.kubernetesVersion)))
    case SetRolloutsEnabled(on) => c.(rolloutsEnabled := on)
    case SetProvisioningEnabled(on) => c.(provisioningEnabled := on)
    case SetKubernetesTarget(v) => c.(desired := Some(d.(kubernetesVersion := v)))
    case _ => c
  }

  function PoolAfter(m: Mutation, np: NodePool): NodePool
  {
    match m
    case SetPoolVersion(t) =>
      np.(desired := Some(if t.Some? then t.value else if np.desired.Some? then np.desired.value else ""))
    case SetPoolTarget(v) => np.(desired := Some(v))
    case SetPaused(on) => np.(paused := on)
    case _ => np
  }

  /** Re-registering keeps an advanced lifecycle state and its address, and forgets everything else. */
  function HostAfter(m: Mutation, cur: Option<Record>): Host
    requires m.UpsertHost?
  {
    var h := Host(m.cluster, m.mac, m.pool, m.labels, "", m.role, Registered, "", 0, None);
    if cur.Some? && cur.value.HostRec? && cur.value.host.state != HostUnspecified
    then h.(state := cur.value.host.state, addr := cur.value.host.addr)
    else h
  }

  /** The record to put, or None where the handler answers NotFound. */
  function Apply(m: Mutation, cur: Option<Record>): Option<Record>
  {
    match m
    case UpsertHost(_, _, _, _, _) => Some(HostRec(HostAfter(m, cur)))
    case Overwrite(r) => Some(r)
    case _ =>
      if cur.None? then None
      else match cur.value
        case ClusterRec(c) => Some(ClusterRec(ClusterAfter(m, c)))
        case PoolRec(np) => Some(PoolRec(PoolAfter(m, np)))
        case _ => None
  }

  /** Whole-record writers do not go through the retry loop. */
  predicate Retries(q: Request)
  {
    q.pin == 0 && !q.mutation.Overwrite?
  }

  function Stored(s: Store, slot: Slot): Option<Record>
  {
    if slot in s.db then Some(s.db[slot]) else None
  }

  /** `r` is what a read of `slot` returned when its revision was `rev`. */
  ghost predicate Current(s: Store, slot: Slot, r: Option<Record>, rev: nat)
  {
    && rev <= s.counter
    && (r.None? <==> rev == 0)
    && (r.Some? ==> SlotOf(r.value) == slot)
    && (r.Some? && slot in s.db && RevOf(s.db[slot]) == rev ==> Stamp(r.value, rev) == s.db[slot])
  }

  lemma ReadIsCurrent(s: Store, slot: Slot)
    requires Inv(s)
    ensures Current(s, slot, Get(s, slot), GetRev(s, slot))
  {
  }

  /** A read stays current under everything anyone else does: a revision is never reused. */
  lemma CurrentKept(s: Store, s': Store, slot: Slot, r: Option<Record>, rev: nat)
    requires Current(s, slot, r, rev) && Descends(s, s')
    ensures Current(s', slot, r, rev)
  {
  }

  /** Mutations do not look at the observed cache or the revision. */
  lemma ApplyStamped(m: Mutation, r: Record, rev: nat, n: nat)
    ensures Apply(m, Some(r)).Some? <==> Apply(m, Some(Stamp(r, rev))).Some?
    ensures Apply(m, Some(r)).Some? ==>
              Stamp(Apply(m, Some(r)).value, n) == Stamp(Apply(m, Some(Stamp(r, rev))).value, n)
  {
  }

  /** A mutation keeps the record in its slot. */
  lemma ApplySlot(q: Request, r: Option<Record>)
    requires WellFormed(q) && (r.Some? ==> SlotOf(r.value) == q.slot)
    requires Apply(q.mutation, r).Some?
    ensures SlotOf(Apply(q.mutation, r).value) == q.slot
  {
  }

  /** What an accepted put writes is the mutation applied to the record stored at that very moment. */
  ghost predicate AtomicUpdate(s: Store, s': Store, q: Request, rev: nat)
  {
    && rev == s.counter + 1 == s'.counter
    && Apply(q.mutation, Stored(s, q.slot)).Some?
    && s'.db == s.db[q.slot := Stamp(Apply(q.mutation, Stored(s, q.slot)).value, rev)]
    && s'.obsCluster == s.obsCluster && s'.obsMachine == s.obsMachine
  }

  // ----- what each handler does, field by field -----

  /** The new cluster record differs from the old at most where the handler writes, and holds there what was asked. */
  predicate ClusterSet(m: Mutation, b: Cluster, a: Cluster)
  {
    var talos := if b.desired.Some? then b.desired.value.talosVersion else "";
    var kubernetes := if b.desired.Some? then b.desired.value.kubernetesVersion else "";
    match m
    case SetClusterVersions(t, k) =>
      && a.(desired := b.desired, revision := b.revision) == b && a.desired.Some?
      && a.desired.value.talosVersion == (if t.Some? then t.value else talos)
      && a.desired.value.kubernetesVersion == (if k.Some? then k.value else kubernetes)
    case SetRolloutsEnabled(on) => a.(rolloutsEnabled := b.rolloutsEnabled, revision := b.revision) == b && a.rolloutsEnabled == on
    case SetProvisioningEnabled(on) =>
      a.(provisioningEnabled := b.provisioningEnabled, revision := b.revision) == b && a.provisioningEnabled == on
    case SetKubernetesTarget(v) =>
      && a.(desired := b.desired, revision := b.revision) == b && a.desired.Some?
      && a.desired.value.kubernetesVersion == v && a.desired.value.talosVersion == talos
    case _ => false
  }

  predicate PoolSet(m: Mutation, b: NodePool, a: NodePool)
  {
    match m
    case SetPoolVersion(t) =>
      && a.(desired := b.desired, revision := b.revision) == b
      && (t.Some? ==> a.desired == t)
      && (t.None? ==> a.desired == if b.desired.None? then Some("") else b.desired)
    case SetPoolTarget(v) => a.(desired := b.desired, revision := b.revision) == b && a.desired == Some(v)
    case SetPaused(on) => a.(paused := b.paused, revision := b.revision) == b && a.paused == on
    case _ => false
  }

  /** A host registered, or registered again: pool, role and labels as asked, an advanced state and its address kept. */
  predicate HostSet(m: Mutation, before: Option<Record>, a: Host)
    requires m.UpsertHost?
  {
    && a.cluster == m.cluster && a.mac == m.mac && a.pool == m.pool && a.role == m.role && a.labels == m.labels
    && a.message == "" && a.provisioningStartedAt.None?
    && if before.Some? && before.value.HostRec? && before.value.host.state != HostUnspecified
       then a.state == before.value.host.state && a.addr == before.value.host.addr
       else a.state == Registered && a.addr == ""
  }

  predicate Sets(m: Mutation, before: Option<Record>, after: Record)
  {
    match m
    case UpsertHost(_, _, _, _, _) => after.HostRec? && HostSet(m, before, after.host)
    case Overwrite(r) => Stamp(after, RevOf(r)) == Stamp(r, RevOf(r))
    case _ =>
      && before.Some?
      && match before.value
         case ClusterRec(b) => after.ClusterRec? && ClusterSet(m, b, after.cluster)
         case PoolRec(b) => after.PoolRec? && PoolSet(m, b, after.pool)
         case _ => false
  }

  /** A read after the commit shows the record as asked, under the revision answered, and every other record as it was. */
  ghost predicate ReadsBack(s: Store, s': Store, q: Request, rev: nat)
  {
    && Get(s', q.slot).Some? && Sets(q.mutation, Get(s, q.slot), Get(s', q.slot).value) && GetRev(s', q.slot) == rev
    && (forall k :: k != q.slot ==> Get(s', k) == Get(s, k) && GetRev(s', k) == GetRev(s, k))
  }

  lemma ApplySets(q: Request, r: Option<Record>, rev: nat)
    requires WellFormed(q) && (r.Some? ==> SlotOf(r.value) == q.slot && !HasObserved(r.value)) && Apply(q.mutation, r).Some?
    ensures Sets(q.mutation, r, Stamp(Apply(q.mutation, r).value, rev))
  {
  }

  lemma UpdateReadsBack(s: Store, s': Store, q: Request, rev: nat)
    requires Inv(s) && WellFormed(q) && AtomicUpdate(s, s', q, rev)
    ensures ReadsBack(s, s', q, rev)
  {
    var r := Stored(s, q.slot);
    ApplySets(q, r, rev);
    ApplySlot(q, r);
    OverlaySets(s, s', q, rev, r, Stamp(Apply(q.mutation, r).value, rev));
    forall k | k != q.slot ensures Get(s', k) == Get(s, k) && GetRev(s', k) == GetRev(s, k) {
      SameRead(s, s', q.slot, Stamp(Apply(q.mutation, r).value, rev), k);
    }
  }

  lemma SameRead(s: Store, s': Store, slot: Slot, r: Record, k: Slot)
    requires s'.db == s.db[slot := r] && s'.obsCluster == s.obsCluster && s'.obsMachine == s.obsMachine && k != slot
    ensures Get(s', k) == Get(s, k) && GetRev(s', k) == GetRev(s, k)
  {
  }

  lemma OverlaySets(s: Store, s': Store, q: Request, rev: nat, r: Option<Record>, after: Record)
    requires WellFormed(q) && Sets(q.mutation, r, after) && (r.Some? ==> SlotOf(r.value) == q.slot) && SlotOf(after) == q.slot
    requires s'.obsCluster == s.obsCluster && s'.obsMachine == s.obsMachine
    ensures Sets(q.mutation, if r.Some? then Some(Overlay(s, q.slot, r.value)) else None, Overlay(s', q.slot, after))
  {
  }

  /** No lost update, no ABA: a put under the revision of an earlier read commits only as an atomic update. */
  lemma PutAfterRead(s: Store, q: Request, r: Option<Record>, rev: nat)
    requires Inv(s) && WellFormed(q) && Current(s, q.slot, r, rev)
    requires Apply(q.mutation, r).Some?
    ensures var (s', res) := PutDesired(s, Apply(q.mutation, r).value, rev);
            Inv(s') && (res.Ok? ==> AtomicUpdate(s, s', q, res.value)) && (res.Err? ==> s' == s)
  {
    ApplySlot(q, r);
    var next := Apply(q.mutation, r).value;
    if PutDesired(s, next, rev).1.Ok? {
      WriteInv(s, next);
      SameMutation(s, q, r, rev);
      WrittenAt(s, next);
    }
  }

  lemma WrittenAt(s: Store, r: Record)
    ensures var s' := Write(s, r);
            && s'.counter == s.counter + 1 && s'.db == s.db[SlotOf(r) := Stamp(r, s.counter + 1)]
            && s'.obsCluster == s.obsCluster && s'.obsMachine == s.obsMachine
  {
  }

  /** Where the revision still matches, mutating what was read and what is stored writes the same record. */
  lemma SameMutation(s: Store, q: Request, r: Option<Record>, rev: nat)
    requires Inv(s) && Current(s, q.slot, r, rev) && Apply(q.mutation, r).Some? && CasAccepts(s, q.slot, rev)
    ensures Apply(q.mutation, Stored(s, q.slot)).Some?
    ensures Stamp(Apply(q.mutation, Stored(s, q.slot)).value, s.counter + 1) == Stamp(Apply(q.mutation, r).value, s.counter + 1)
  {
    if r.Some? { ApplyStamped(q.mutation, r.value, rev, s.counter + 1); }
  }

  // ----- one call, with whatever others do between its read and its write -----

  datatype Reply = Reply(store: Store, result: Result<nat, Status>)

  /** One pass through the handler's body. Conflict is reported as Contended and handled by the retry loop. */
  function Attempt(s: Store, q: Request, others: seq<Op>): Reply
  {
    var r, rev := Get(s, q.slot), GetRev(s, q.slot);
    if Apply(q.mutation, r).None? then Reply(s, Err(NotFound))
    else if q.pin != 0 && rev != q.pin then Reply(s, Err(FailedPrecondition))
    else
      var s1 := Run(s, others);
      var (s2, res) := PutDesired(s1, Apply(q.mutation, r).value, rev);
      Reply(s2, if res.Ok? then Ok(res.value) else if res.error == Conflict then Err(Contended) else Err(Internal))
  }

  function Rmw(s: Store, q: Request, first: seq<Op>, second: seq<Op>): Reply
  {
    var a := Attempt(s, q, first);
    if a.result != Err(Contended) then a
    else if q.pin != 0 then a.(result := Err(Aborted))
    else
      var b := Attempt(a.store, q, second);
      if b.result == Err(Contended) then b.(result := Err(Aborted)) else b
  }

  lemma AttemptAtomic(s: Store, q: Request, others: seq<Op>)
    requires Inv(s) && WellFormed(q)
    ensures var a := Attempt(s, q, others);
            && Inv(a.store)
            && (a.result.Ok? ==> AtomicUpdate(Run(s, others), a.store, q, a.result.value))
            && (a.result.Err? ==> a.store == s || a.store == Run(s, others))
            && (a.result == Err(Contended) ==> a.store == Run(s, others) && GetRev(Run(s, others), q.slot) != GetRev(s, q.slot))
  {
    var r, rev := Get(s, q.slot), GetRev(s, q.slot);
    RunInv(s, others);
    RunDescends(s, others);
    if Apply(q.mutation, r).Some? {
      ReadIsCurrent(s, q.slot);
      CurrentKept(s, Run(s, others), q.slot, r, rev);
      ApplySlot(q, r);
      PutAfterRead(Run(s, others), q, r, rev);
    }
  }

  /**
   * A call that answers with a revision took effect exactly once, atomically, at the end of one of its
   * two attempts; a call that answers with an error changed nothing itself. It gives up on contention
   * only after the record changed under it.
   */
  lemma RmwAtomic(s: Store, q: Request, first: seq<Op>, second: seq<Op>)
    requires Inv(s) && WellFormed(q)
    ensures var a := Rmw(s, q, first, second);
            var s1 := Run(s, first);
            var s2 := Run(s1, second);
            && Inv(a.store)
            && (a.result.Ok? ==>
                  AtomicUpdate(s1, a.store, q, a.result.value) || AtomicUpdate(s2, a.store, q, a.result.value))
            && (a.result.Err? ==> a.store == s || a.store == s1 || a.store == s2)
            && (a.result == Err(Aborted) ==> GetRev(s1, q.slot) != GetRev(s, q.slot))
  {
    AttemptAtomic(s, q, first);
    var a := Attempt(s, q, first);
    if a.result == Err(Contended) && q.pin == 0 {
      AttemptAtomic(a.store, q, second);
    }
  }

  /** After every call that answers with a revision, a read shows exactly what was asked for. */
  lemma CommittedReadsBack(s: Store, q: Request, first: seq<Op>, second: seq<Op>)
    requires Inv(s) && WellFormed(q)
    ensures var a := Rmw(s, q, first, second);
            var s1 := Run(s, first);
            a.result.Ok? ==> ReadsBack(s1, a.store, q, a.result.value) || ReadsBack(Run(s1, second), a.store, q, a.result.value)
  {
    var a, s1 := Rmw(s, q, first, second), Run(s, first);
    RmwAtomic(s, q, first, second);
    RunInv(s, first);
    RunInv(s1, second);
    if a.result.Ok? {
      if AtomicUpdate(s1, a.store, q, a.result.value) {
        UpdateReadsBack(s1, a.store, q, a.result.value);
      } else {
        UpdateReadsBack(Run(s1, second), a.store, q, a.result.value);
      }
    }
  }

  /** A handler that can make the record it is asked about. */
  predicate Creates(m: Mutation)
  {
    m.UpsertHost? || m.Overwrite?
  }

  /** With nobody in between: which answer a call gets, told by what is stored when it arrives. */
  lemma UndisturbedIff(s: Store, q: Request)
    requires Inv(s) && WellFormed(q)
    ensures var a, found := Rmw(s, q, [], []).result, q.slot in s.db;
            var pinned := q.pin == 0 || q.pin == GetRev(s, q.slot);
            && (a == Err(NotFound) <==> !found && !Creates(q.mutation))
            && (a == Err(FailedPrecondition) <==> (found || Creates(q.mutation)) && !pinned)
            && (found && !Creates(q.mutation) ==> (a.Ok? <==> pinned))
  {
    if q.slot in s.db {
      ApplySlot(q, Get(s, q.slot));
    }
  }
}
