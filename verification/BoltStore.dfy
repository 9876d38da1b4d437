/** The store as the process holds it: a database file, an observed cache and a set of subscribers. */
module Bolt {
  import opened Basics
  import opened Keys
  import opened Records
  import opened StoreModel
  import opened Text

  class BoltStore {
    var counter: nat
    var db: map<Slot, Record>
    var lastRev: nat
    var obsCluster: map<string, Option<ClusterObserved>>
    var obsMachine: map<string, Option<MachineObserved>>
    var subs: map<nat, seq<Event>>
    var nextSub: nat

    function Model(): Store
      reads this
    {
      Store(counter, db, lastRev, obsCluster, obsMachine, subs, nextSub)
    }

    /** Opening a database file, fresh or left behind by a crash. */
    constructor Open(counter: nat, db: map<Slot, Record>)
      ensures Model() == Reopened(Store(counter, db, counter, map[], map[], map[], 0))
    {
      this.counter := counter;
      this.db := db;
      lastRev := counter;
      obsCluster, obsMachine, subs, nextSub := map[], map[], map[], 0;
    }

    method Publish(ev: Event)
      modifies this`subs
      ensures subs == Published(old(subs), ev)
    {
      var todo := subs.Keys;
      while todo != {}
        invariant todo <= subs.Keys == old(subs).Keys
        invariant forall id :: id in todo ==> subs[id] == old(subs)[id]
        invariant forall id :: id in subs && id !in todo ==> subs[id] == Published(old(subs), ev)[id]
      {
        var id :| id in todo;
        if |subs[id]| < SUB_BUFFER {
          subs := subs[id := subs[id] + [ev]];
        }
        todo := todo - {id};
      }
    }

    /** The bump inside a write transaction. */
    method BumpRev() returns (next: nat)
      modifies this`counter
      ensures next == counter == old(counter) + 1
    {
      next := counter + 1;
      counter := next;
    }

    /** Compare-and-swap write of a desired record. */
    method PutCAS(rec: Record, expected: nat) returns (r: Result<nat, StoreError>)
      requires IsDesired(KindOf(rec))
      modifies this
      ensures (Model(), r) == PutDesired(old(Model()), rec, expected)
    {
      if !Named(rec) {
        return Err(Invalid);
      }
      var slot := SlotOf(rec);
      if slot in db {
        if RevOf(db[slot]) != expected {
          return Err(Conflict);
        }
      } else if expected != 0 {
        return Err(Conflict);
      }
      var newRev := BumpRev();
      db := db[slot := Stamp(rec, newRev)];
      lastRev := newRev;
      Publish(Event(KindOf(rec), EventKey(rec), newRev));
      return Ok(newRev);
    }

    /** Last-writer-wins write of a rollout record. */
    method PutLWW(rec: Record) returns (r: Result<nat, StoreError>)
      requires !IsDesired(KindOf(rec))
      modifies this
      ensures (Model(), r) == PutRollout(old(Model()), rec)
    {
      if !Named(rec) {
        return Err(Invalid);
      }
      var newRev := BumpRev();
      db := db[SlotOf(rec) := Stamp(rec, newRev)];
      lastRev := newRev;
      Publish(Event(KindOf(rec), EventKey(rec), newRev));
      return Ok(newRev);
    }

    /** Bump, delete one key and announce it. */
    method DeleteKey(slot: Slot, eventKey: string)
      modifies this
      ensures Model() == Committed(old(Model()), old(db) - {slot}, slot.kind, eventKey)
    {
      var newRev := BumpRev();
      db := db - {slot};
      lastRev := newRev;
      Publish(Event(slot.kind, eventKey, newRev));
    }

    method DeleteHost(cluster: string, mac: string) returns (ok: bool)
      modifies this
      ensures Model() == DeleteOne(old(Model()), KindHost, cluster, mac)
      ensures ok <==> cluster != "" && mac != ""
    {
      if cluster == "" || mac == "" {
        return false;
      }
      DeleteKey(SlotFor(KindHost, cluster, mac), cluster + "/" + mac);
      return true;
    }

    method DeleteMachine(cluster: string, addr: string) returns (ok: bool)
      modifies this
      ensures Model() == DeleteOne(old(Model()), KindMachine, cluster, addr)
      ensures ok <==> cluster != "" && addr != ""
    {
      if cluster == "" || addr == "" {
        return false;
      }
      DeleteKey(SlotFor(KindMachine, cluster, addr), cluster + "/" + addr);
      obsMachine := obsMachine - {CKey(cluster, addr)};
      return true;
    }

    /** Collects the keys under the cluster's prefix, then deletes them one by one. */
    method DeleteByClusterPrefix(kind: Kind, cluster: string)
      modifies this`db
      ensures db == map k | k in old(db) && !(k.kind == kind && Scanned(k.key, cluster)) :: old(db)[k]
    {
      var todo, keys := db.Keys, {};
      while todo != {}
        invariant todo <= db.Keys && db == old(db)
        invariant forall k :: k in keys <==> k in db && k !in todo && k.kind == kind && Scanned(k.key, cluster)
      {
        var k :| k in todo;
        var hit := HasPrefix(k.key, cluster + [NUL]);
        if k.kind == kind && hit {
          keys := keys + {k};
        }
        todo := todo - {k};
      }
      ghost var all := keys;
      while keys != {}
        invariant keys <= all
        invariant forall k :: k in db <==> k in old(db) && (k in keys || k !in all)
        invariant forall k :: k in db ==> db[k] == old(db)[k]
      {
        var k :| k in keys;
        db := db - {k};
        keys := keys - {k};
      }
    }

    method DropObserved(cluster: string)
      modifies this`obsCluster, this`obsMachine
      ensures obsCluster == old(obsCluster) - {cluster}
      ensures obsMachine == WithoutPrefix(old(obsMachine), cluster)
    {
      obsCluster := obsCluster - {cluster};
      var todo := obsMachine.Keys;
      while todo != {}
        invariant todo <= obsMachine.Keys
        invariant obsCluster == old(obsCluster) - {cluster}
        invariant forall k :: k in obsMachine <==> k in old(obsMachine) && (k in todo || !Scanned(k, cluster))
        invariant forall k :: k in obsMachine ==> obsMachine[k] == old(obsMachine)[k]
      {
        var k :| k in todo;
        todo := todo - {k};
        if cluster + [NUL] <= k {
          obsMachine := obsMachine - {k};
        }
      }
    }

    /** The cluster's keys in all eight buckets. */
    method ClearBuckets(cluster: string)
      modifies this`db
      ensures db == WithoutCluster(old(db), cluster)
    {
      db := db - {Slot(KindCluster, cluster), Slot(KindClusterRollout, cluster), Slot(KindClusterBootstrap, cluster)};
      DeleteByClusterPrefix(KindNodePool, cluster);
      DeleteByClusterPrefix(KindMachine, cluster);
      DeleteByClusterPrefix(KindHost, cluster);
      DeleteByClusterPrefix(KindMachineRollout, cluster);
      DeleteByClusterPrefix(KindRolloutJob, cluster);
      forall k | k in old(db) ensures k in db <==> !TornDown(k, cluster) {
        if BareKeyed(k.kind) { assert k in db <==> k.key != cluster; }
      }
    }

    /** Everything the store knows about a cluster, in one transaction. */
    method DeleteCluster(cluster: string) returns (ok: bool)
      modifies this
      ensures Model() == StoreModel.DeleteCluster(old(Model()), cluster)
      ensures ok <==> cluster != ""
    {
      if cluster == "" {
        return false;
      }
      var newRev := BumpRev();
      ClearBuckets(cluster);
      DropObserved(cluster);
      lastRev := newRev;
      Publish(Event(KindCluster, cluster, newRev));
      return true;
    }

    method Read(slot: Slot) returns (r: Option<Record>, rev: nat)
      ensures r == Get(Model(), slot) && rev == GetRev(Model(), slot)
    {
      if slot !in db {
        return None, 0;
      }
      return Some(Overlay(Model(), slot, db[slot])), RevOf(db[slot]);
    }

    /** Walks a bucket in key order, keeping the cluster's keys (or all of them). */
    method List(kind: Kind, cluster: Option<string>) returns (recs: seq<Record>)
      ensures recs == ListOf(Model(), kind, cluster)
    {
      var keys := SortedKeys(kind, cluster);
      recs := Collect(kind, keys);
    }

    method Collect(kind: Kind, keys: seq<string>) returns (recs: seq<Record>)
      requires forall x :: x in keys ==> Slot(kind, x) in db
      ensures recs == ListKeys(Model(), kind, keys)
    {
      recs := [];
      for i := 0 to |keys|
        invariant |recs| == i && forall j :: 0 <= j < i ==> Get(Model(), Slot(kind, keys[j])) == Some(recs[j])
      {
        assert keys[i] in keys;
        recs := recs + [Overlay(Model(), Slot(kind, keys[i]), db[Slot(kind, keys[i])])];
      }
    }

    method SortedKeys(kind: Kind, cluster: Option<string>) returns (keys: seq<string>)
      ensures keys == Listed(ScanKeys(Model(), kind, cluster))
    {
      var todo := db.Keys;
      keys := [];
      while todo != {}
        invariant todo <= db.Keys
        invariant Ascending(keys)
        invariant forall x :: x in keys <==>
                    Slot(kind, x) in db && Slot(kind, x) !in todo && (cluster.None? || Scanned(x, cluster.value))
      {
        var k :| k in todo;
        if k.kind == kind && (cluster.None? || cluster.value + [NUL] <= k.key) {
          InsertAscending(k.key, keys);
          forall x ensures x in Insert(k.key, keys) <==> x == k.key || x in keys { InsertMembers(k.key, keys, x); }
          keys := Insert(k.key, keys);
        }
        todo := todo - {k};
      }
      assert forall x :: x in ScanKeys(Model(), kind, cluster) <==>
        Slot(kind, x) in db && (cluster.None? || Scanned(x, cluster.value));
      AscendingUnique(keys, Listed(ScanKeys(Model(), kind, cluster)));
    }

    method SetClusterObserved(cluster: string, o: Option<ClusterObserved>)
      modifies this`obsCluster
      ensures Model() == Step(old(Model()), OpSetClusterObserved(cluster, o))
    {
      obsCluster := obsCluster[cluster := o];
    }

    method SetMachineObserved(cluster: string, addr: string, o: Option<MachineObserved>)
      modifies this`obsMachine
      ensures Model() == Step(old(Model()), OpSetMachineObserved(cluster, addr, o))
    {
      obsMachine := obsMachine[CKey(cluster, addr) := o];
    }
  }
}
