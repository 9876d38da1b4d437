/**
 * A watcher beside any number of writers. Registration, the snapshot read, and each delivery are
 * separate atomic steps; writers, deleters and other watchers act between them in any order.
 */
module WatchModel {
  import opened Basics
  import opened Records
  import opened StoreModel

  datatype Phase = Subscribed | Replaying(pending: seq<Event>)

  datatype Watch = Watch(
    store: Store,
    since: nat,
    id: nat,
    snapRev: nat,
    phase: Phase,
    out: seq<Event>,        // what the consumer has been sent
    replayed: nat,          // how many of those came from the snapshot
    readOk: bool,           // the snapshot read succeeded
    published: seq<Event>,  // history: everything announced since registration
    drops: nat)             // history: announcements that found the channel full

  /** The snapshot skips the bootstrap bucket. */
  predicate InSnapshot(k: Slot, r: Record, since: nat, upto: nat)
  {
    k.kind != KindClusterBootstrap && since < RevOf(r) <= upto
  }

  /** One event per persisted record with a revision in (since, upto], in revision order. */
  ghost predicate IsSnapshot(s: Store, since: nat, upto: nat, evs: seq<Event>)
  {
    Increasing(evs) &&
    forall e :: e in evs <==> exists k :: k in s.db && InSnapshot(k, s.db[k], since, upto) && e == EventOf(s.db[k])
  }

  /** What an operation announces: one event per committed write, nothing otherwise. */
  function Announced(s: Store, op: Op): seq<Event>
  {
    var rev := s.counter + 1;
    match op
    case OpPutDesired(r, expected) =>
      if Named(r) && CasAccepts(s, SlotOf(r), expected) then [Event(KindOf(r), EventKey(r), rev)] else []
    case OpPutRollout(r) => if Named(r) then [Event(KindOf(r), EventKey(r), rev)] else []
    case OpDeleteHost(c, mac) => if c == "" || mac == "" then [] else [Event(KindHost, c + "/" + mac, rev)]
    case OpDeleteMachine(c, a) => if c == "" || a == "" then [] else [Event(KindMachine, c + "/" + a, rev)]
    case OpDeleteCluster(c) => if c == "" then [] else [Event(KindCluster, c, rev)]
    case _ => []
  }

  datatype Action =
    | Other(op: Op)
    | ReadSnapshot(evs: seq<Event>)
    | ReadFails
    | EmitReplay
    | Forward

  function Register(s: Store, since: nat): Watch
  {
    Watch(Step(s, OpSubscribe), since, s.nextSub, s.lastRev, Subscribed, [], 0, false, [], 0)
  }

  /** Others neither drain nor remove this watcher's channel, and a crash ends the watch. */
  predicate Foreign(op: Op, id: nat)
  {
    !op.OpCrash? && op != OpTake(id) && op != OpUnsubscribe(id)
  }

  ghost function Act(w: Watch, a: Action): Watch
  {
    match a
    case Other(op) =>
      if !Foreign(op, w.id) then w
      else
        var evs := Announced(w.store, op);
        var full := w.id in w.store.subs && |w.store.subs[w.id]| >= SUB_BUFFER;
        w.(store := Step(w.store, op), published := w.published + evs,
           drops := if evs != [] && full then w.drops + 1 else w.drops)
    case ReadSnapshot(evs) =>
      if w.phase.Subscribed? && IsSnapshot(w.store, w.since, w.snapRev, evs) then
        w.(phase := Replaying(evs), readOk := true)
      else w
    case ReadFails =>
      if w.phase.Subscribed? then w.(phase := Replaying([])) else w
    case EmitReplay =>
      if w.phase.Replaying? && w.phase.pending != [] then
        w.(phase := Replaying(w.phase.pending[1..]), out := w.out + [w.phase.pending[0]], replayed := w.replayed + 1)
      else w
    case Forward =>
      if w.phase == Replaying([]) && w.id in w.store.subs && w.store.subs[w.id] != [] then
        var ev := w.store.subs[w.id][0];
        var w' := w.(store := Step(w.store, OpTake(w.id)));
        if ev.revision <= w.snapRev then w' else w'.(out := w.out + [ev])
      else w
  }

  ghost function Acts(w: Watch, acts: seq<Action>): Watch
    decreases |acts|
  {
    if acts == [] then w else Acts(Act(w, acts[0]), acts[1..])
  }

  // ----- invariant -----

  ghost predicate Channel(w: Watch)
  {
    Inv(w.store) && w.id in w.store.subs && w.snapRev <= w.store.counter
  }

  /** Announcements since registration are newer than the snapshot revision and in order. */
  ghost predicate LogOrdered(w: Watch)
  {
    Increasing(w.published) &&
    forall i :: 0 <= i < |w.published| ==> w.snapRev < w.published[i].revision <= w.store.counter
  }

  function Live(w: Watch): seq<Event>
    requires w.replayed <= |w.out| && w.id in w.store.subs
  {
    w.out[w.replayed..] + w.store.subs[w.id]
  }

  /** Sent and queued live events: in order, newer than the snapshot, and every announcement accounted for. */
  ghost predicate LiveOrdered(w: Watch)
    requires w.id in w.store.subs
  {
    && w.replayed <= |w.out|
    && Increasing(Live(w))
    && (forall i :: 0 <= i < |Live(w)| ==> w.snapRev < Live(w)[i].revision <= w.store.counter)
    && |w.published| == |Live(w)| + w.drops
    && (w.drops == 0 ==> Live(w) == w.published)
    && (w.phase != Replaying([]) ==> |w.out| == w.replayed)
  }

  function Pending(w: Watch): seq<Event>
  {
    if w.phase.Replaying? then w.phase.pending else []
  }

  /** Sent and pending snapshot events: in order and at most the snapshot revision. */
  ghost predicate ReplayOrdered(w: Watch)
    requires w.replayed <= |w.out|
  {
    var snap := w.out[..w.replayed] + Pending(w);
    Increasing(snap) && forall i :: 0 <= i < |snap| ==> w.since < snap[i].revision <= w.snapRev
  }

  /** Every stored record is old news, announced since registration, or in the snapshot once it is read. */
  ghost predicate Covered(w: Watch)
    requires w.replayed <= |w.out|
  {
    forall k :: k in w.store.db && k.kind != KindClusterBootstrap ==>
      var ev := EventOf(w.store.db[k]);
      && (ev.revision > w.snapRev ==> ev in w.published)
      && (w.readOk && w.since < ev.revision <= w.snapRev ==> ev in w.out[..w.replayed] + Pending(w))
  }

  ghost predicate WInv(w: Watch)
  {
    && Channel(w) && LogOrdered(w) && LiveOrdered(w) && ReplayOrdered(w) && Covered(w)
    && (w.readOk ==> w.phase.Replaying?)
    && (w.phase.Subscribed? ==> w.replayed == 0)
  }

  lemma RegisterInv(s: Store, since: nat)
    requires Inv(s)
    ensures WInv(Register(s, since))
  {
    StepInv(s, OpSubscribe);
    var w := Register(s, since);
    assert w.store.subs[w.id] == [];
    assert w.store.db == s.db;
    assert Live(w) == [];
  }

  /** An announcing operation appends its one event to every channel with room, and bumps the counter to it. */
  lemma AnnouncedEffect(s: Store, op: Op, id: nat)
    requires Inv(s) && id in s.subs && Foreign(op, id)
    ensures |Announced(s, op)| <= 1
    ensures Announced(s, op) == [] ==> Step(s, op).db == s.db && Step(s, op).counter == s.counter
    ensures Announced(s, op) == [] ==> id in Step(s, op).subs && Step(s, op).subs[id] == s.subs[id]
    ensures Announced(s, op) != [] ==>
              && Announced(s, op)[0].revision == Step(s, op).counter == s.counter + 1
              && id in Step(s, op).subs
              && Step(s, op).subs[id] == (if |s.subs[id]| < SUB_BUFFER then s.subs[id] + Announced(s, op) else s.subs[id])
    ensures forall k :: k in Step(s, op).db && RevOf(Step(s, op).db[k]) > s.counter ==>
              Announced(s, op) == [EventOf(Step(s, op).db[k])]
  {
    if op.OpPutDesired? || op.OpPutRollout? {
      WriteAnnounces(s, op.rec, id);
    } else if op.OpDeleteHost? || op.OpDeleteMachine? || op.OpDeleteCluster? {
      DeleteAnnounces(s, op, id);
    }
  }

  lemma DeleteAnnounces(s: Store, op: Op, id: nat)
    requires Inv(s) && id in s.subs && (op.OpDeleteHost? || op.OpDeleteMachine? || op.OpDeleteCluster?)
    ensures var s', evs := Step(s, op), Announced(s, op);
            && id in s'.subs && (forall k :: k in s'.db ==> RevOf(s'.db[k]) <= s.counter)
            && (evs == [] ==> s' == s)
            && (evs != [] ==>
                  && |evs| == 1 && evs[0].revision == s'.counter == s.counter + 1
                  && s'.subs[id] == (if |s.subs[id]| < SUB_BUFFER then s.subs[id] + evs else s.subs[id]))
  {
  }

  lemma WriteAnnounces(s: Store, r: Record, id: nat)
    requires Inv(s) && id in s.subs
    ensures var s', ev := Write(s, r), Event(KindOf(r), EventKey(r), s.counter + 1);
            && s'.counter == s.counter + 1 && id in s'.subs
            && s'.subs[id] == (if |s.subs[id]| < SUB_BUFFER then s.subs[id] + [ev] else s.subs[id])
            && forall k :: k in s'.db && RevOf(s'.db[k]) > s.counter ==> ev == EventOf(s'.db[k])
  {
    StampNamed(r, s.counter + 1);
  }

  ghost predicate OtherStep(w: Watch, s': Store, evs: seq<Event>)
  {
    && Channel(w) && Inv(s') && w.id in s'.subs && Descends(w.store, s') && |evs| <= 1
    && (evs == [] ==> s'.counter == w.store.counter && s'.subs[w.id] == w.store.subs[w.id])
    && (evs != [] ==>
          && evs[0].revision == s'.counter == w.store.counter + 1
          && s'.subs[w.id] == (if |w.store.subs[w.id]| < SUB_BUFFER then w.store.subs[w.id] + evs else w.store.subs[w.id]))
    && forall k :: k in s'.db && RevOf(s'.db[k]) > w.store.counter ==> evs == [EventOf(s'.db[k])]
  }

  function Moved(w: Watch, s': Store, evs: seq<Event>): Watch
    requires w.id in w.store.subs
  {
    w.(store := s', published := w.published + evs,
       drops := if evs != [] && |w.store.subs[w.id]| >= SUB_BUFFER then w.drops + 1 else w.drops)
  }

  lemma MovedLive(w: Watch, s': Store, evs: seq<Event>)
    requires WInv(w) && OtherStep(w, s', evs)
    ensures LogOrdered(Moved(w, s', evs)) && LiveOrdered(Moved(w, s', evs))
  {
    var w' := Moved(w, s', evs);
    Appended(w.published, evs, w.snapRev, w.store.counter, s'.counter);
    if evs != [] && |w.store.subs[w.id]| < SUB_BUFFER {
      Appended(Live(w), evs, w.snapRev, w.store.counter, s'.counter);
      assert Live(w') == Live(w) + evs;
    } else {
      assert Live(w') == Live(w);
      assert w.published + [] == w.published;
    }
  }

  /** Events between `lo` and `hi` in order, and then at most one that is the next after `hi`. */
  lemma Appended(log: seq<Event>, evs: seq<Event>, lo: nat, hi: nat, hi': nat)
    requires Increasing(log) && (forall i :: 0 <= i < |log| ==> lo < log[i].revision <= hi) && lo <= hi
    requires |evs| <= 1 && (if evs == [] then hi' == hi else evs[0].revision == hi' == hi + 1)
    ensures Increasing(log + evs) && forall i :: 0 <= i < |log + evs| ==> lo < (log + evs)[i].revision <= hi'
  {
  }

  lemma MovedCovered(w: Watch, s': Store, evs: seq<Event>)
    requires WInv(w) && OtherStep(w, s', evs)
    ensures Covered(Moved(w, s', evs))
  {
    var w' := Moved(w, s', evs);
    forall k | k in s'.db && k.kind != KindClusterBootstrap
      ensures EventOf(s'.db[k]).revision > w.snapRev ==> EventOf(s'.db[k]) in w'.published
      ensures w.readOk && w.since < EventOf(s'.db[k]).revision <= w.snapRev ==>
                EventOf(s'.db[k]) in w.out[..w.replayed] + Pending(w)
    {
      var ev := EventOf(s'.db[k]);
      if ev.revision > w.store.counter {
        assert w'.published[|w.published|] == ev;
      } else {
        assert k in w.store.db && w.store.db[k] == s'.db[k];
      }
    }
  }

  lemma OtherInv(w: Watch, op: Op)
    requires WInv(w) && Foreign(op, w.id)
    ensures WInv(Act(w, Other(op)))
  {
    var s', evs := Step(w.store, op), Announced(w.store, op);
    assert OtherStep(w, s', evs) by {
      StepInv(w.store, op);
      StepDescends(w.store, op);
      AnnouncedEffect(w.store, op, w.id);
    }
    MovedLive(w, s', evs);
    MovedCovered(w, s', evs);
    assert Act(w, Other(op)) == Moved(w, s', evs);
  }

  lemma ReadInv(w: Watch, evs: seq<Event>)
    requires WInv(w) && w.phase.Subscribed? && IsSnapshot(w.store, w.since, w.snapRev, evs)
    ensures WInv(Act(w, ReadSnapshot(evs)))
  {
    var w' := Act(w, ReadSnapshot(evs));
    assert w.out[..w.replayed] + Pending(w) == w.out;
    assert |w.out| == w.replayed;
    assert Live(w') == Live(w);
    ReplayStartsEmpty(w);
    assert w'.out[..w'.replayed] + Pending(w') == evs;
    forall i | 0 <= i < |evs| ensures w.since < evs[i].revision <= w.snapRev { assert evs[i] in evs; }
  }

  /** Nothing is sent before the snapshot read. */
  lemma ReplayStartsEmpty(w: Watch)
    requires WInv(w) && w.phase.Subscribed?
    ensures w.out == []
  {
  }

  lemma EmitInv(w: Watch)
    requires WInv(w) && w.phase.Replaying? && w.phase.pending != []
    ensures WInv(Act(w, EmitReplay))
  {
    var w' := Act(w, EmitReplay);
    assert w'.out[..w'.replayed] + Pending(w') == w.out[..w.replayed] + Pending(w);
    assert Live(w') == Live(w);
  }

  lemma ForwardInv(w: Watch)
    requires WInv(w) && w.phase == Replaying([]) && w.store.subs[w.id] != []
    ensures WInv(Act(w, Forward))
  {
    StepInv(w.store, OpTake(w.id));
    ForwardKeepsLive(w);
    SameStream(w, Act(w, Forward));
  }

  lemma ForwardKeepsLive(w: Watch)
    requires Channel(w) && LiveOrdered(w) && w.phase == Replaying([]) && w.store.subs[w.id] != []
    ensures var w' := Act(w, Forward);
            && w'.id in w'.store.subs && w.out <= w'.out && Live(w') == Live(w)
            && w'.store.db == w.store.db && w'.store.counter == w.store.counter
            && w' == w.(store := w'.store, out := w'.out)
  {
    var w', q := Act(w, Forward), w.store.subs[w.id];
    assert Live(w)[|w.out| - w.replayed] == q[0];
    MovedOver(w.out, w.replayed, q);
    assert w'.out == w.out + [q[0]] && w'.store.subs[w.id] == q[1..];
  }

  lemma MovedOver(out: seq<Event>, n: nat, q: seq<Event>)
    requires n <= |out| && q != []
    ensures (out + [q[0]])[n..] + q[1..] == out[n..] + q
  {
  }

  /** Moving live events from the queue to the output changes nothing the invariant speaks of. */
  lemma SameStream(w: Watch, w': Watch)
    requires WInv(w) && Inv(w'.store) && w'.id in w'.store.subs && w.out <= w'.out && w.phase == Replaying([])
    requires w' == w.(store := w'.store, out := w'.out) && Live(w') == Live(w)
    requires w'.store.db == w.store.db && w'.store.counter == w.store.counter
    ensures WInv(w')
  {
    assert w'.out[..w.replayed] == w.out[..w.replayed];
  }

  lemma ActInv(w: Watch, a: Action)
    requires WInv(w)
    ensures WInv(Act(w, a))
  {
    match a
    case Other(op) => if Foreign(op, w.id) { OtherInv(w, op); }
    case ReadSnapshot(evs) =>
      if w.phase.Subscribed? && IsSnapshot(w.store, w.since, w.snapRev, evs) { ReadInv(w, evs); }
    case ReadFails =>
      if w.phase.Subscribed? { assert Pending(Act(w, a)) == Pending(w); assert Live(Act(w, a)) == Live(w); }
    case EmitReplay => if w.phase.Replaying? && w.phase.pending != [] { EmitInv(w); }
    case Forward => if w.phase == Replaying([]) && w.store.subs[w.id] != [] { ForwardInv(w); }
  }

  lemma {:induction false} ActsInv(w: Watch, acts: seq<Action>)
    requires WInv(w)
    ensures WInv(Acts(w, acts))
    decreases |acts|
  {
    if acts != [] {
      ActInv(w, acts[0]);
      ActsInv(Act(w, acts[0]), acts[1..]);
    }
  }

  // ----- theorems over every interleaving -----

  lemma OrderedOut(w: Watch)
    requires WInv(w)
    ensures Increasing(w.out)
  {
    var snap, live := w.out[..w.replayed] + Pending(w), Live(w);
    forall i, j | 0 <= i < j < |w.out| ensures w.out[i].revision < w.out[j].revision {
      if j < w.replayed {
        assert snap[i] == w.out[i] && snap[j] == w.out[j];
      } else {
        assert live[j - w.replayed] == w.out[j];
        if i < w.replayed { assert snap[i] == w.out[i]; } else { assert live[i - w.replayed] == w.out[i]; }
      }
    }
  }

  /** The stream a watcher sees is strictly increasing in revision. */
  lemma StreamIncreasing(s: Store, since: nat, acts: seq<Action>)
    requires Inv(s)
    ensures Increasing(Acts(Register(s, since), acts).out)
  {
    RegisterInv(s, since);
    ActsInv(Register(s, since), acts);
    OrderedOut(Acts(Register(s, since), acts));
  }

  ghost predicate Drained(w: Watch)
  {
    w.phase == Replaying([]) && w.id in w.store.subs && w.store.subs[w.id] == []
  }

  /** The operation that deletes a record of its own kind, for the kinds that have one. */
  predicate Deletes(op: Op, r: Record)
  {
    match r
    case HostRec(h) => op == OpDeleteHost(h.cluster, h.mac)
    case MachineRec(m) => op == OpDeleteMachine(m.cluster, m.talosEndpoint)
    case ClusterRec(c) => op == OpDeleteCluster(c.name)
    case _ => false
  }

  /** Storing a record and deleting it are announced under one kind and key, which name it; the delete removes it. */
  lemma PutAndDeleteAgree(s: Store, s': Store, r: Record, op: Op)
    requires Named(r) && Deletes(op, r)
    ensures var put := OpPutDesired(r, GetRev(s, SlotOf(r)));
            var on, off := Announced(s, put), Announced(s', op);
            && |on| == 1 && |off| == 1 && Names(on[0], r) && Names(off[0], r) && on[0].key == off[0].key
            && SlotOf(r) in Step(s, put).db && SlotOf(r) !in Step(s', op).db
  {
    EventNames(r, s.counter + 1);
  }

  /** Whatever is put, the one event announced names the record that is then stored. */
  lemma PutIsNamed(s: Store, op: Op)
    requires op.OpPutDesired? || op.OpPutRollout?
    ensures var evs, s' := Announced(s, op), Step(s, op);
            evs != [] ==>
              && |evs| == 1 && Names(evs[0], op.rec) && evs[0].revision == s'.counter
              && SlotOf(op.rec) in s'.db && s'.db[SlotOf(op.rec)] == Stamp(op.rec, s'.counter)
  {
    EventNames(op.rec, s.counter + 1);
  }

  /** No gap between snapshot and live: every record newer than `since` has been sent at its current revision. */
  lemma StreamComplete(s: Store, since: nat, acts: seq<Action>, k: Slot)
    requires Inv(s)
    requires var w := Acts(Register(s, since), acts);
             && Drained(w) && w.readOk && w.drops == 0
             && k in w.store.db && k.kind != KindClusterBootstrap && RevOf(w.store.db[k]) > since
    ensures var w := Acts(Register(s, since), acts);
            exists e :: e in w.out && Names(e, w.store.db[k]) && e.revision == RevOf(w.store.db[k])
  {
    SentCurrent(s, since, acts, k);
    var r := Acts(Register(s, since), acts).store.db[k];
    EventNames(r, RevOf(r));
  }

  lemma SentCurrent(s: Store, since: nat, acts: seq<Action>, k: Slot)
    requires Inv(s)
    requires var w := Acts(Register(s, since), acts);
             && Drained(w) && w.readOk && w.drops == 0
             && k in w.store.db && k.kind != KindClusterBootstrap && RevOf(w.store.db[k]) > since
    ensures var w := Acts(Register(s, since), acts); EventOf(w.store.db[k]) in w.out
  {
    RegisterInv(s, since);
    var w := Acts(Register(s, since), acts);
    ActsInv(Register(s, since), acts);
    ActsSince(Register(s, since), acts);
    var ev := EventOf(w.store.db[k]);
    if ev.revision > w.snapRev {
      assert Live(w) == w.out[w.replayed..];
      assert ev in w.out[w.replayed..];
    } else {
      assert w.out[..w.replayed] + Pending(w) == w.out[..w.replayed];
      assert ev in w.out[..w.replayed];
    }
  }

  lemma {:induction false} ActsSince(w: Watch, acts: seq<Action>)
    ensures Acts(w, acts).since == w.since
    decreases |acts|
  {
    if acts != [] { ActsSince(Act(w, acts[0]), acts[1..]); }
  }

  /** Announcements since registration that have not been forwarded. */
  function Lag(w: Watch): int
  {
    |w.published| - (|w.out| - w.replayed)
  }

  ghost predicate Announces(w: Watch, a: Action)
  {
    a.Other? && Foreign(a.op, w.id) && Announced(w.store, a.op) != []
  }

  /** Whenever something is announced, fewer announcements than a channel holds are waiting to be forwarded. */
  ghost predicate KeepsUp(w: Watch, acts: seq<Action>)
    decreases |acts|
  {
    acts != [] ==> (Announces(w, acts[0]) ==> Lag(w) < SUB_BUFFER) && KeepsUp(Act(w, acts[0]), acts[1..])
  }

  lemma LagIsQueue(w: Watch)
    requires WInv(w)
    ensures Lag(w) == |w.store.subs[w.id]| + w.drops
  {
  }

  lemma DropStep(w: Watch, a: Action)
    requires WInv(w)
    ensures Act(w, a).drops == if Announces(w, a) && |w.store.subs[w.id]| >= SUB_BUFFER then w.drops + 1 else w.drops
  {
  }

  lemma {:induction false} DropsGrow(w: Watch, acts: seq<Action>)
    requires WInv(w)
    ensures Acts(w, acts).drops >= w.drops
    decreases |acts|
  {
    if acts != [] {
      ActInv(w, acts[0]);
      DropStep(w, acts[0]);
      DropsGrow(Act(w, acts[0]), acts[1..]);
    }
  }

  lemma {:induction false} KeepsUpIff(w: Watch, acts: seq<Action>)
    requires WInv(w) && w.drops == 0
    ensures Acts(w, acts).drops == 0 <==> KeepsUp(w, acts)
    decreases |acts|
  {
    if acts != [] {
      var u := Act(w, acts[0]);
      ActInv(w, acts[0]);
      DropStep(w, acts[0]);
      LagIsQueue(w);
      DropsGrow(u, acts[1..]);
      if u.drops == 0 { KeepsUpIff(u, acts[1..]); }
    }
  }

  /**
   * The live part of the stream, with what is still queued, is exactly the sequence of announcements since
   * registration if and only if the watcher keeps up; equivalently, no announcement ever met a full channel.
   */
  lemma LiveExactIff(s: Store, since: nat, acts: seq<Action>)
    requires Inv(s)
    ensures var w := Acts(Register(s, since), acts);
            && w.replayed <= |w.out| && w.id in w.store.subs
            && (Live(w) == w.published <==> KeepsUp(Register(s, since), acts)) && (Live(w) == w.published <==> w.drops == 0)
  {
    RegisterInv(s, since);
    ActsInv(Register(s, since), acts);
    KeepsUpIff(Register(s, since), acts);
  }

  // ----- a run that overflows -----

  function Noise(): Record
  {
    MachineRolloutRec(MachineRollout("c", "a", Idle, "", "", 0))
  }

  function Writes(k: nat): seq<Action>
  {
    if k == 0 then [] else [Other(OpPutRollout(Noise()))] + Writes(k - 1)
  }

  /** One write: it is queued if there is room, and dropped otherwise. */
  lemma OneWrite(w: Watch)
    requires WInv(w)
    ensures var w' := Act(w, Other(OpPutRollout(Noise())));
            && WInv(w') && w'.id == w.id && |w'.published| == |w.published| + 1
            && (if |w.store.subs[w.id]| < SUB_BUFFER
                then w'.drops == w.drops && |w'.store.subs[w.id]| == |w.store.subs[w.id]| + 1
                else w'.drops == w.drops + 1)
  {
    var op := OpPutRollout(Noise());
    OtherInv(w, op);
    AnnouncedEffect(w.store, op, w.id);
    assert |Announced(w.store, op)| == 1;
  }

  lemma {:induction false} Filling(w: Watch, k: nat)
    requires WInv(w) && |w.store.subs[w.id]| + k <= SUB_BUFFER
    ensures var u := Acts(w, Writes(k));
            WInv(u) && u.id == w.id && u.drops == w.drops && |u.store.subs[u.id]| == |w.store.subs[w.id]| + k
    decreases k
  {
    if k > 0 {
      assert Writes(k)[1..] == Writes(k - 1);
      OneWrite(w);
      Filling(Act(w, Other(OpPutRollout(Noise()))), k - 1);
    }
  }

  lemma {:induction false} WritesSnoc(w: Watch, k: nat)
    ensures Acts(w, Writes(k + 1)) == Act(Acts(w, Writes(k)), Other(OpPutRollout(Noise())))
    decreases k
  {
    var a := Other(OpPutRollout(Noise()));
    assert Writes(k + 1)[1..] == Writes(k);
    if k > 0 {
      assert Writes(k)[1..] == Writes(k - 1);
      WritesSnoc(Act(w, a), k - 1);
    }
  }

  /** From any store: one write more than a channel holds, with nothing forwarded, and the stream has a gap. */
  lemma OneWriteTooMany(s: Store, since: nat, k: nat)
    requires Inv(s) && k == 256
    ensures var w := Acts(Register(s, since), Writes(k + 1));
            w.replayed <= |w.out| && w.id in w.store.subs && w.drops == 1 && Live(w) != w.published
  {
    var w0 := Register(s, since);
    RegisterInv(s, since);
    Filling(w0, k);
    OneWrite(Acts(w0, Writes(k)));
    WritesSnoc(w0, k);
    LiveExactIff(s, since, Writes(k + 1));
  }
}
