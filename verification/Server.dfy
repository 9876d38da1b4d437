/** The handlers' retry loop, with other clients' operations landing between a read and its write. */
module Serving {
  import opened Basics
  import opened Bolt
  import opened Handlers
  import opened Records
  import opened StoreModel

  /** One operation by some other client of the same process. */
  method Perform(store: BoltStore, op: Op)
    requires Typed(op) && !op.OpCrash?
    modifies store
    ensures store.Model() == Step(old(store.Model()), op)
  {
    match op {
      case OpPutDesired(r, expected) => var _ := store.PutCAS(r, expected);
      case OpPutRollout(r) => var _ := store.PutLWW(r);
      case OpDeleteHost(c, mac) => var _ := store.DeleteHost(c, mac);
      case OpDeleteMachine(c, a) => var _ := store.DeleteMachine(c, a);
      case OpDeleteCluster(c) => var _ := store.DeleteCluster(c);
      case OpSetClusterObserved(c, o) => store.SetClusterObserved(c, o);
      case OpSetMachineObserved(c, a, o) => store.SetMachineObserved(c, a, o);
      case OpSubscribe => store.subs := store.subs[store.nextSub := []]; store.nextSub := store.nextSub + 1;
      case OpUnsubscribe(id) => store.subs := store.subs - {id};
      case OpTake(id) =>
        if id in store.subs && store.subs[id] != [] { store.subs := store.subs[id := store.subs[id][1..]]; }
    }
  }

  ghost predicate Peaceful(ops: seq<Op>)
  {
    forall op :: op in ops ==> Typed(op) && !op.OpCrash?
  }

  method Interfere(store: BoltStore, ops: seq<Op>)
    requires Peaceful(ops)
    modifies store
    ensures store.Model() == Run(old(store.Model()), ops)
  {
    for i := 0 to |ops|
      invariant Run(store.Model(), ops[i..]) == Run(old(store.Model()), ops)
    {
      assert ops[i] in ops;
      assert ops[i..][0] == ops[i] && ops[i..][1..] == ops[i + 1..];
      Perform(store, ops[i]);
    }
    assert ops[|ops|..] == [];
  }

  /** The handler's body: read, check, mutate, put. */
  method Body(store: BoltStore, q: Request, others: seq<Op>) returns (r: Result<nat, Status>)
    requires WellFormed(q) && Inv(store.Model()) && Peaceful(others)
    modifies store
    ensures Reply(store.Model(), r) == Attempt(old(store.Model()), q, others)
  {
    ReadIsCurrent(store.Model(), q.slot);
    var cur, rev := store.Read(q.slot);
    var next := Apply(q.mutation, cur);
    if next.None? {
      return Err(NotFound);
    }
    ApplySlot(q, cur);
    if q.pin != 0 && rev != q.pin {
      return Err(FailedPrecondition);
    }
    Interfere(store, others);
    var res := store.PutCAS(next.value, rev);
    match res {
      case Ok(n) => return Ok(n);
      case Err(Conflict) => return Err(Contended);
      case Err(Invalid) => return Err(Internal);
    }
  }

  /** Runs the body; without a pinned revision, once more after a lost race. */
  method ReadModifyWrite(store: BoltStore, q: Request, first: seq<Op>, second: seq<Op>) returns (r: Result<nat, Status>)
    requires WellFormed(q) && Inv(store.Model()) && Peaceful(first) && Peaceful(second)
    modifies store
    ensures Reply(store.Model(), r) == Rmw(old(store.Model()), q, first, second)
    ensures Inv(store.Model())
    ensures r.Ok? ==>
              || AtomicUpdate(Run(old(store.Model()), first), store.Model(), q, r.value)
              || AtomicUpdate(Run(Run(old(store.Model()), first), second), store.Model(), q, r.value)
    ensures r.Ok? ==>
              || ReadsBack(Run(old(store.Model()), first), store.Model(), q, r.value)
              || ReadsBack(Run(Run(old(store.Model()), first), second), store.Model(), q, r.value)
  {
    ghost var s := store.Model();
    ghost var a := Attempt(s, q, first);
    ghost var b := Attempt(a.store, q, second);
    RmwAtomic(s, q, first, second);
    CommittedReadsBack(s, q, first, second);
    AttemptAtomic(s, q, first);
    AttemptAtomic(a.store, q, second);
    for attempt := 0 to 2
      invariant store.Model() == if attempt == 0 then s else if attempt == 1 then a.store else b.store
      invariant attempt > 0 ==> q.pin == 0 && a.result == Err(Contended)
      invariant attempt > 1 ==> b.result == Err(Contended)
    {
      r := Body(store, q, if attempt == 0 then first else second);
      if r != Err(Contended) {
        return;
      }
      if q.pin != 0 {
        return Err(Aborted);
      }
    }
    return Err(Aborted);
  }
}
