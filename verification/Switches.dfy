/**
 * Pausing a pool and turning provisioning off, from the committed call to the reconcilers: until somebody
 * switches back or rewrites the record, passes over what is stored do nothing.
 */
module Switches {
  import opened Basics
  import opened Handlers
  import opened Records
  import opened StoreModel
  import opened System
  import P = ProvisionModel
  import R = RolloutModel

  datatype Switch = PausePool(cluster: string, pool: string) | StopProvisioning(cluster: string) | AutoMode(cluster: string)

  function PlaceOf(w: Switch): Slot
  {
    match w
    case PausePool(c, p) => SlotFor(KindNodePool, c, p)
    case StopProvisioning(c) => SlotFor(KindCluster, c, "")
    case AutoMode(c) => SlotFor(KindCluster, c, "")
  }

  /** The record is gone, or it says stop. */
  predicate Stopped(w: Switch, r: Option<Record>)
  {
    r.Some? ==>
      match w
      case PausePool(_, _) => r.value.PoolRec? && r.value.pool.paused
      case StopProvisioning(_) => r.value.ClusterRec? && !r.value.cluster.provisioningEnabled
      case AutoMode(_) => r.value.ClusterRec? && r.value.cluster.mode == Auto
  }

  function Stop(w: Switch): Mutation
    requires !w.AutoMode?
  {
    match w
    case PausePool(_, _) => SetPaused(true)
    case StopProvisioning(_) => SetProvisioningEnabled(false)
  }

  /** The call that ends the stop; the mode has none. */
  predicate IsRestart(w: Switch, m: Mutation)
  {
    match w
    case PausePool(_, _) => m == SetPaused(false)
    case StopProvisioning(_) => m == SetProvisioningEnabled(true)
    case AutoMode(_) => false
  }

  /** A commit that may end the stop: the opposite call, or a whole-record write. */
  predicate Ends(w: Switch, e: Entry)
  {
    e.Wrote? && e.slot == PlaceOf(w) && (IsRestart(w, e.mutation) || e.mutation.Overwrite?)
  }

  ghost predicate Lasting(w: Switch, y: Sys, y': Sys)
  {
    forall n :: |y.hist| <= n < |y'.hist| ==> !Ends(w, y'.hist[n])
  }

  /** Every committed write was a handler's own kind of write. */
  ghost predicate Fitting(hist: seq<Entry>)
  {
    forall n :: 0 <= n < |hist| && hist[n].Wrote? ==> WellFormed(Request(hist[n].slot, hist[n].mutation, 0))
  }

  lemma HistoryFits(base: map<Slot, Record>, y: Sys)
    requires SInv(base, y)
    ensures Fitting(y.hist)
  {
    forall n | 0 <= n < |y.hist| && y.hist[n].Wrote? ensures WellFormed(Request(y.hist[n].slot, y.hist[n].mutation, 0)) {
      assert WellFormed(y.handlers[y.hist[n].author].req);
    }
  }

  lemma EntryKeeps(w: Switch, prev: Option<Record>, e: Entry)
    requires Stopped(w, prev) && !Ends(w, e) && (e.Wrote? ==> WellFormed(Request(e.slot, e.mutation, 0)))
    ensures Stopped(w, After(prev, e, PlaceOf(w)))
  {
  }

  lemma {:induction false} StopLasts(w: Switch, base: map<Slot, Record>, hist: seq<Entry>, later: seq<Entry>)
    requires Stopped(w, Replay(base, hist, PlaceOf(w))) && Fitting(later)
    requires forall n :: 0 <= n < |later| ==> !Ends(w, later[n])
    ensures Stopped(w, Replay(base, hist + later, PlaceOf(w)))
    decreases |later|
  {
    if later == [] {
      assert hist + later == hist;
    } else {
      var init, e := later[..|later| - 1], later[|later| - 1];
      assert hist + later == (hist + init) + [e];
      ReplaySnoc(base, hist + init, e, PlaceOf(w));
      StopLasts(w, base, hist, init);
      EntryKeeps(w, Replay(base, hist + init, PlaceOf(w)), e);
    }
  }

  lemma StillStopped(w: Switch, base: map<Slot, Record>, y: Sys, acts: seq<Action>)
    requires SInv(base, y) && Stopped(w, Stored(y.store, PlaceOf(w))) && Lasting(w, y, Acts(y, acts))
    ensures Stopped(w, Stored(Acts(y, acts).store, PlaceOf(w)))
  {
    var y' := Acts(y, acts);
    ActsInv(base, y, acts);
    ActsHistory(y, acts);
    HistoryFits(base, y');
    StoppedAlong(w, base, y, y');
  }

  lemma StoppedAlong(w: Switch, base: map<Slot, Record>, y: Sys, y': Sys)
    requires Folded(base, y) && Folded(base, y') && y.hist <= y'.hist && Fitting(y'.hist) && Lasting(w, y, y')
    requires Stopped(w, Stored(y.store, PlaceOf(w)))
    ensures Stopped(w, Stored(y'.store, PlaceOf(w)))
  {
    var k, later := PlaceOf(w), y'.hist[|y.hist|..];
    assert y'.hist == y.hist + later;
    assert forall n :: 0 <= n < |later| ==> later[n] == y'.hist[|y.hist| + n];
    assert Stored(y.store, k) == Replay(base, y.hist, k) && Stored(y'.store, k) == Replay(base, y'.hist, k);
    StopLasts(w, base, y.hist, later);
  }

  /** Handler `i` is about to write a stop, and the write commits. */
  ghost predicate Commits(w: Switch, y: Sys, i: nat)
  {
    && i in y.handlers && y.handlers[i].phase.Holding? && y.handlers[i].req.slot == PlaceOf(w)
    && !w.AutoMode? && y.handlers[i].req.mutation == Stop(w) && Act(y, Write(i)).handlers[i].phase.Answered?
  }

  lemma CommittedStop(w: Switch, base: map<Slot, Record>, y: Sys, i: nat)
    requires SInv(base, y) && Commits(w, y, i)
    ensures SInv(base, Act(y, Write(i))) && Stopped(w, Stored(Act(y, Write(i)).store, PlaceOf(w)))
  {
    var q, s' := y.handlers[i].req, Act(y, Write(i)).store;
    ActInv(base, y, Write(i));
    AnswerReadsBack(base, y, i);
    SetMeansStopped(w, Get(y.store, q.slot), Get(s', q.slot).value);
    StoppedWhenRead(w, s');
  }

  lemma SetMeansStopped(w: Switch, before: Option<Record>, after: Record)
    requires !w.AutoMode? && Sets(Stop(w), before, after) && before.Some? && KindOf(before.value) == PlaceOf(w).kind
    ensures Stopped(w, Some(after))
  {
  }

  lemma StoppedWhenRead(w: Switch, s: Store)
    ensures Stopped(w, Get(s, PlaceOf(w))) <==> Stopped(w, Stored(s, PlaceOf(w)))
  {
  }

  /** What a reconciler finds under a pool's name and a cluster's name. */
  function PoolAt(s: Store, c: string, p: string): Option<NodePool>
  {
    var r := Get(s, SlotFor(KindNodePool, c, p));
    if r.Some? && r.value.PoolRec? then Some(r.value.pool) else None
  }

  function ClusterAt(s: Store, c: string): Option<Cluster>
  {
    var r := Get(s, SlotFor(KindCluster, c, ""));
    if r.Some? && r.value.ClusterRec? then Some(r.value.cluster) else None
  }

  /**
   * From a committed pause until a resume or a rewrite of that pool commits, whatever handlers, deletes, crashes and
   * executor steps run in between, a rollout pass over the stored pool makes no call at all.
   */
  lemma PausedPoolIsLeftAlone(base: map<Slot, Record>, y: Sys, i: nat, acts: seq<Action>, c: string, p: string, n: R.PassInput, recs: R.Recs)
    requires SInv(base, y) && Commits(PausePool(c, p), y, i)
    requires var y' := Acts(Act(y, Write(i)), acts);
             Lasting(PausePool(c, p), Act(y, Write(i)), y') && n.np == PoolAt(y'.store, c, p)
    ensures R.ReconcileCalls(n, recs) == []
  {
    CommittedStop(PausePool(c, p), base, y, i);
    StillStopped(PausePool(c, p), base, Act(y, Write(i)), acts);
  }

  /** Likewise for provisioning: once turned off, no pass on any pool of the cluster has any effect. */
  lemma StoppedProvisioningDoesNothing(base: map<Slot, Record>, y: Sys, i: nat, acts: seq<Action>, c: string, v: P.Inventory, n: P.PassInput)
    requires SInv(base, y) && Commits(StopProvisioning(c), y, i)
    requires var y' := Acts(Act(y, Write(i)), acts);
             Lasting(StopProvisioning(c), Act(y, Write(i)), y') && n.cl == ClusterAt(y'.store, c)
    ensures P.PassEffects(v, n) == []
  {
    CommittedStop(StopProvisioning(c), base, y, i);
    StillStopped(StopProvisioning(c), base, Act(y, Write(i)), acts);
  }

  /** A new rollout gets past its guards exactly when the cluster is stored, enabled and not in auto mode. */
  lemma GrantedIff(y: Sys, n: nat, c: string)
    requires Inv(y.store) && n !in y.authorized
    ensures n in Act(y, Authorize(n, c)).authorized <==>
              var r := Stored(y.store, SlotFor(KindCluster, c, ""));
              r.Some? && r.value.ClusterRec? && r.value.cluster.rolloutsEnabled && r.value.cluster.mode != Auto
    ensures n in Act(y, Authorize(n, c)).authorized ==> Act(y, Authorize(n, c)).authorized == y.authorized[n := c]
  {
  }

  ghost predicate NoneFor(y: Sys, c: string)
  {
    forall n :: n in y.authorized ==> y.authorized[n] != c
  }

  lemma AutoStep(base: map<Slot, Record>, y: Sys, a: Action, c: string)
    requires SInv(base, y) && Stopped(AutoMode(c), Stored(y.store, PlaceOf(AutoMode(c)))) && NoneFor(y, c)
    ensures NoneFor(Act(y, a), c)
  {
  }

  /**
   * A cluster in auto mode is given no new rollout: over every run in which its record is not rewritten, no call for it
   * gets past the guards.
   */
  lemma {:induction false} AutoGetsNoRollout(base: map<Slot, Record>, y: Sys, acts: seq<Action>, c: string)
    requires SInv(base, y) && Stopped(AutoMode(c), Stored(y.store, PlaceOf(AutoMode(c)))) && NoneFor(y, c)
    requires Lasting(AutoMode(c), y, Acts(y, acts))
    ensures NoneFor(Acts(y, acts), c)
    decreases |acts|
  {
    if acts != [] {
      var y1 := Act(y, acts[0]);
      AutoStep(base, y, acts[0], c);
      ActInv(base, y, acts[0]);
      ActsHistory(y1, acts[1..]);
      assert [acts[0]][1..] == [] && Acts(y, [acts[0]]) == y1;
      LastingFirst(AutoMode(c), y, y1, Acts(y, acts));
      StillStopped(AutoMode(c), base, y, [acts[0]]);
      ActHistory(y, acts[0]);
      AutoGetsNoRollout(base, y1, acts[1..], c);
    }
  }

  lemma LastingFirst(w: Switch, y: Sys, y1: Sys, y2: Sys)
    requires Lasting(w, y, y2) && y1.hist <= y2.hist
    ensures Lasting(w, y, y1)
  {
  }
}
