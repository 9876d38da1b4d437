/** The goroutine behind one watch: register, read the snapshot, replay it, then forward live events. */
module Watching {
  import opened Basics
  import opened Bolt
  import opened Records
  import opened StoreModel
  import opened WatchModel

  /** Insertion of an event by revision. */
  function InsertEvent(e: Event, evs: seq<Event>): (r: seq<Event>)
    ensures multiset(r) == multiset(evs) + multiset{e}
  {
    if evs == [] then [e]
    else if evs[0].revision < e.revision then
      assert evs == [evs[0]] + evs[1..];
      [evs[0]] + InsertEvent(e, evs[1..])
    else [e] + evs
  }

  lemma {:induction false} InsertEventIncreasing(e: Event, evs: seq<Event>)
    requires Increasing(evs) && forall x :: x in evs ==> x.revision != e.revision
    ensures Increasing(InsertEvent(e, evs))
  {
    if evs != [] && evs[0].revision < e.revision {
      var t := InsertEvent(e, evs[1..]);
      InsertEventIncreasing(e, evs[1..]);
      forall x | x in t ensures evs[0].revision < x.revision {
        EventMembers(e, evs[1..], x);
        if x != e { var i :| 0 <= i < |evs| - 1 && evs[1..][i] == x; assert evs[i + 1] == x; }
      }
    }
  }

  lemma EventMembers(e: Event, evs: seq<Event>, x: Event)
    ensures x in InsertEvent(e, evs) <==> x == e || x in evs
  {
    assert x in InsertEvent(e, evs) <==> x in multiset(InsertEvent(e, evs));
    assert x in evs <==> x in multiset(evs);
  }

  /** Sorts events whose revisions differ. */
  method SortByRevision(evs: seq<Event>) returns (sorted: seq<Event>)
    requires forall i, j :: 0 <= i < j < |evs| ==> evs[i].revision != evs[j].revision
    ensures Increasing(sorted)
    ensures forall e :: e in sorted <==> e in evs
  {
    sorted := [];
    for n := 0 to |evs|
      invariant Increasing(sorted)
      invariant forall e :: e in sorted <==> e in evs[..n]
    {
      forall x | x in sorted ensures x.revision != evs[n].revision {
        var i :| 0 <= i < n && evs[i] == x;
      }
      InsertEventIncreasing(evs[n], sorted);
      forall x ensures x in InsertEvent(evs[n], sorted) <==> x == evs[n] || x in sorted { EventMembers(evs[n], sorted, x); }
      assert evs[..n + 1] == evs[..n] + [evs[n]];
      sorted := InsertEvent(evs[n], sorted);
    }
    assert evs[..|evs|] == evs;
  }

  /** The event of a record under `seen` with a revision in range. */
  ghost predicate Sighted(db: map<Slot, Record>, seen: set<Slot>, since: nat, upto: nat, e: Event)
  {
    exists k :: k in seen && k in db && since < RevOf(db[k]) <= upto && e == EventOf(db[k])
  }

  /** One event for each record under `seen` with a revision in range, revisions all different. */
  ghost predicate Gathered(db: map<Slot, Record>, seen: set<Slot>, since: nat, upto: nat, evs: seq<Event>)
  {
    && (forall e :: e in evs <==> Sighted(db, seen, since, upto, e))
    && (forall i, j :: 0 <= i < j < |evs| ==> evs[i].revision != evs[j].revision)
  }

  ghost function Bucket(db: map<Slot, Record>, kinds: set<Kind>): set<Slot>
  {
    set k | k in db && k.kind in kinds
  }

  ghost const DESIRED: set<Kind> := {KindCluster, KindNodePool, KindMachine, KindHost}
  ghost const SNAPSHOT: set<Kind> := DESIRED + {KindMachineRollout, KindClusterRollout, KindRolloutJob}

  lemma GatherOne(s: Store, seen: set<Slot>, k: Slot, since: nat, upto: nat, evs: seq<Event>)
    requires RevisionsDistinct(s) && k in s.db && k !in seen
    requires Gathered(s.db, seen, since, upto, evs)
    ensures Gathered(s.db, seen + {k}, since, upto,
                     if since < RevOf(s.db[k]) <= upto then evs + [EventOf(s.db[k])] else evs)
  {
    var r := s.db[k];
    forall e ensures Sighted(s.db, seen + {k}, since, upto, e) <==>
      Sighted(s.db, seen, since, upto, e) || (since < RevOf(r) <= upto && e == EventOf(r))
    {
      SightedOne(s.db, seen, k, since, upto, e);
    }
    forall e | e in evs ensures e.revision != RevOf(r) {
      assert Sighted(s.db, seen, since, upto, e);
      var l :| l in seen && l in s.db && since < RevOf(s.db[l]) <= upto && e == EventOf(s.db[l]);
    }
  }

  lemma SightedOne(db: map<Slot, Record>, seen: set<Slot>, k: Slot, since: nat, upto: nat, e: Event)
    requires k in db
    ensures Sighted(db, seen + {k}, since, upto, e) <==>
              Sighted(db, seen, since, upto, e) || (since < RevOf(db[k]) <= upto && e == EventOf(db[k]))
  {
    if Sighted(db, seen, since, upto, e) {
      var l :| l in seen && l in db && since < RevOf(db[l]) <= upto && e == EventOf(db[l]);
      assert l in seen + {k};
    }
    if since < RevOf(db[k]) <= upto && e == EventOf(db[k]) { assert k in seen + {k}; }
  }

  lemma SnapshotOf(s: Store, seen: set<Slot>, since: nat, upto: nat, raw: seq<Event>, evs: seq<Event>)
    requires Gathered(s.db, seen, since, upto, raw)
    requires forall k :: k in seen <==> k in s.db && k.kind != KindClusterBootstrap
    requires Increasing(evs) && forall e :: e in evs <==> e in raw
    ensures IsSnapshot(s, since, upto, evs)
  {
    forall e ensures e in evs <==>
      exists k :: k in s.db && InSnapshot(k, s.db[k], since, upto) && e == EventOf(s.db[k])
    {
      assert e in evs <==> e in raw;
      assert e in raw <==> Sighted(s.db, seen, since, upto, e);
    }
  }

  class Watcher {
    const store: BoltStore
    const since: nat
    const id: nat
    const snapRev: nat
    var phase: Phase
    var out: seq<Event>
    var readOk: bool
    ghost var replayed: nat

    /** The watcher beside its store, given the history of announcements it does not itself keep. */
    ghost function View(published: seq<Event>, drops: nat): Watch
      reads this, store
    {
      Watch(store.Model(), since, id, snapRev, phase, out, replayed, readOk, published, drops)
    }

    /** Captures the snapshot revision and joins the subscribers in one step. */
    constructor (store: BoltStore, since: nat)
      modifies store
      ensures this.store == store
      ensures View([], 0) == Register(old(store.Model()), since)
    {
      this.store := store;
      this.since := since;
      snapRev := store.lastRev;
      id := store.nextSub;
      phase, out, readOk, replayed := Subscribed, [], false, 0;
      new;
      store.subs := store.subs[store.nextSub := []];
      store.nextSub := store.nextSub + 1;
    }

    /** One event per record of one more bucket, unsorted. */
    method AddBucket(kind: Kind, ghost kinds: set<Kind>, evs0: seq<Event>) returns (evs: seq<Event>)
      requires Inv(store.Model())
      requires kind !in kinds && Gathered(store.db, Bucket(store.db, kinds), since, snapRev, evs0)
      ensures Gathered(store.db, Bucket(store.db, kinds + {kind}), since, snapRev, evs)
    {
      evs := evs0;
      ghost var s, all := store.Model(), Bucket(store.db, kinds + {kind});
      ghost var done := Bucket(store.db, kinds);
      var todo := set k | k in store.db && k.kind == kind;
      while todo != {}
        invariant done !! todo && done + todo == all
        invariant Gathered(s.db, done, since, snapRev, evs)
      {
        var k :| k in todo;
        var r := store.db[k];
        GatherOne(s, done, k, since, snapRev, evs);
        if since < RevOf(r) <= snapRev {
          evs := evs + [EventOf(r)];
        }
        todo := todo - {k};
        done := done + {k};
      }
    }

    /** The four desired buckets. */
    method DesiredEvents() returns (evs: seq<Event>)
      requires Inv(store.Model())
      ensures Gathered(store.db, Bucket(store.db, DESIRED), since, snapRev, evs)
    {
      evs := AddBucket(KindCluster, {}, []);
      evs := AddBucket(KindNodePool, {KindCluster}, evs);
      evs := AddBucket(KindMachine, {KindCluster} + {KindNodePool}, evs);
      evs := AddBucket(KindHost, {KindCluster} + {KindNodePool} + {KindMachine}, evs);
      assert {KindCluster} + {KindNodePool} + {KindMachine} + {KindHost} == DESIRED;
    }

    /** The rollout buckets, less the bootstrap one, on top of the desired ones. */
    method RolloutEvents(evs0: seq<Event>) returns (evs: seq<Event>)
      requires Inv(store.Model())
      requires Gathered(store.db, Bucket(store.db, DESIRED), since, snapRev, evs0)
      ensures Gathered(store.db, Bucket(store.db, SNAPSHOT), since, snapRev, evs)
    {
      evs := AddBucket(KindMachineRollout, DESIRED, evs0);
      evs := AddBucket(KindClusterRollout, DESIRED + {KindMachineRollout}, evs);
      evs := AddBucket(KindRolloutJob, DESIRED + {KindMachineRollout} + {KindClusterRollout}, evs);
      assert DESIRED + {KindMachineRollout} + {KindClusterRollout} + {KindRolloutJob} == SNAPSHOT;
    }

    method SnapshotEvents() returns (evs: seq<Event>)
      requires Inv(store.Model())
      ensures IsSnapshot(store.Model(), since, snapRev, evs)
    {
      var raw := DesiredEvents();
      raw := RolloutEvents(raw);
      evs := SortByRevision(raw);
      SnapshotOf(store.Model(), Bucket(store.db, SNAPSHOT), since, snapRev, raw, evs);
    }

    /** The snapshot read; when it fails the watcher goes live with nothing to replay. */
    method ReadSnapshot(fails: bool, ghost published: seq<Event>, ghost drops: nat) returns (ghost evs: seq<Event>)
      requires phase.Subscribed? && Inv(store.Model())
      modifies this
      ensures !fails ==> IsSnapshot(store.Model(), since, snapRev, evs)
      ensures View(published, drops) == Act(old(View(published, drops)), if fails then ReadFails else Action.ReadSnapshot(evs))
    {
      if fails {
        phase := Replaying([]);
        return [];
      }
      var snap := SnapshotEvents();
      phase := Replaying(snap);
      readOk := true;
      evs := snap;
    }

    /** Sends the next snapshot event, or the next live one once the replay is over. */
    method Send(ghost published: seq<Event>, ghost drops: nat)
      requires phase.Replaying? && id in store.subs
      modifies this, store
      ensures View(published, drops) ==
              Act(old(View(published, drops)), if old(phase).pending != [] then EmitReplay else Forward)
    {
      if phase.pending != [] {
        out := out + [phase.pending[0]];
        phase := Replaying(phase.pending[1..]);
        replayed := replayed + 1;
      } else if store.subs[id] != [] {
        var ev := store.subs[id][0];
        store.subs := store.subs[id := store.subs[id][1..]];
        if ev.revision <= snapRev {
          return;
        }
        out := out + [ev];
      }
    }
  }
}
