/** Desired-state export and import. */
module Backup {
  import opened Basics
  import opened Bolt
  import opened Keys
  import opened Records
  import opened StoreModel
  import opened Text

  datatype Doc = Doc(clusters: seq<Record>, pools: seq<Record>, machines: seq<Record>, hosts: seq<Record>)

  function Contents(d: Doc): seq<Record>
  {
    d.clusters + d.pools + d.machines + d.hosts
  }

  /** The record without its observed cache. */
  function Cleared(r: Record): Record
  {
    Stamp(r, RevOf(r))
  }

  function ClearedAll(rs: seq<Record>): seq<Record>
  {
    seq(|rs|, i requires 0 <= i < |rs| => Cleared(rs[i]))
  }

  /** Equal in everything but the revision. */
  predicate SameUpToRevision(a: Record, b: Record)
  {
    Stamp(a, 0) == Stamp(b, 0)
  }

  // ----- export -----

  function Joined(parts: seq<seq<Record>>): seq<Record>
  {
    if parts == [] then [] else Joined(parts[..|parts| - 1]) + parts[|parts| - 1]
  }

  ghost function Parts(s: Store, kind: Kind, clusters: seq<Record>): seq<seq<Record>>
  {
    seq(|clusters|, i requires 0 <= i < |clusters| => ClearedAll(ListOf(s, kind, Some(ClusterOf(clusters[i])))))
  }

  /** One kind's records, cluster by cluster. */
  ghost function Exported(s: Store, kind: Kind, clusters: seq<Record>): seq<Record>
  {
    Joined(Parts(s, kind, clusters))
  }

  ghost function ExportOf(s: Store): Doc
  {
    var cs := ListOf(s, KindCluster, None);
    Doc(ClearedAll(cs), Exported(s, KindNodePool, cs), Exported(s, KindMachine, cs), Exported(s, KindHost, cs))
  }

  method ClearAll(rs: seq<Record>) returns (out: seq<Record>)
    ensures out == ClearedAll(rs)
  {
    out := [];
    for i := 0 to |rs|
      invariant out == ClearedAll(rs)[..i]
    {
      out := out + [Cleared(rs[i])];
    }
  }

  /** One cluster's records of one kind, cleared and appended. */
  method AppendListed(store: BoltStore, kind: Kind, ghost cs: seq<Record>, c: Record, acc: seq<Record>)
      returns (out: seq<Record>)
    requires acc == Exported(store.Model(), kind, cs)
    ensures out == Exported(store.Model(), kind, cs + [c])
  {
    var rs := store.List(kind, Some(ClusterOf(c)));
    rs := ClearAll(rs);
    ghost var parts := Parts(store.Model(), kind, cs + [c]);
    assert parts[..|cs|] == Parts(store.Model(), kind, cs) && parts[|cs|] == rs;
    out := acc + rs;
  }

  /** Walks the clusters and appends each one's pools, machines and hosts. */
  method Export(store: BoltStore) returns (d: Doc)
    ensures d == ExportOf(store.Model())
  {
    var cs := store.List(KindCluster, None);
    var pools, machines, hosts := Owneds(store, cs);
    var cleared := ClearAll(cs);
    d := Doc(cleared, pools, machines, hosts);
  }

  method Owneds(store: BoltStore, cs: seq<Record>) returns (pools: seq<Record>, machines: seq<Record>, hosts: seq<Record>)
    ensures pools == Exported(store.Model(), KindNodePool, cs)
    ensures machines == Exported(store.Model(), KindMachine, cs)
    ensures hosts == Exported(store.Model(), KindHost, cs)
  {
    pools, machines, hosts := [], [], [];
    for i := 0 to |cs|
      invariant pools == Exported(store.Model(), KindNodePool, cs[..i])
      invariant machines == Exported(store.Model(), KindMachine, cs[..i])
      invariant hosts == Exported(store.Model(), KindHost, cs[..i])
    {
      assert cs[..i + 1] == cs[..i] + [cs[i]];
      pools := AppendListed(store, KindNodePool, cs[..i], cs[i], pools);
      machines := AppendListed(store, KindMachine, cs[..i], cs[i], machines);
      hosts := AppendListed(store, KindHost, cs[..i], cs[i], hosts);
    }
    assert cs[..|cs|] == cs;
  }

  /** A desired record an export reaches: a cluster, or a record under some stored cluster's prefix. */
  ghost predicate Reached(s: Store, k: Slot)
  {
    k in s.db && IsDesired(k.kind) &&
    (k.kind == KindCluster || exists c :: Slot(KindCluster, c) in s.db && Scanned(k.key, c))
  }

  lemma ClearedAt(s: Store, kind: Kind, cluster: Option<string>, i: nat)
    requires Inv(s) && i < |Listed(ScanKeys(s, kind, cluster))|
    ensures var keys := Listed(ScanKeys(s, kind, cluster));
            && |ClearedAll(ListOf(s, kind, cluster))| == |keys|
            && Slot(kind, keys[i]) in s.db
            && ClearedAll(ListOf(s, kind, cluster))[i] == s.db[Slot(kind, keys[i])]
  {
    var keys := Listed(ScanKeys(s, kind, cluster));
    assert keys[i] in keys;
    ClearedOverlay(s, Slot(kind, keys[i]));
  }

  lemma ClearedListed(s: Store, kind: Kind, cluster: Option<string>, r: Record)
    requires Inv(s)
    ensures r in ClearedAll(ListOf(s, kind, cluster)) <==>
              exists key :: key in ScanKeys(s, kind, cluster) && s.db[Slot(kind, key)] == r
  {
    var keys, rs := Listed(ScanKeys(s, kind, cluster)), ClearedAll(ListOf(s, kind, cluster));
    if r in rs {
      var i :| 0 <= i < |rs| && rs[i] == r;
      ClearedAt(s, kind, cluster, i);
      assert keys[i] in keys;
    }
    if key :| key in ScanKeys(s, kind, cluster) && s.db[Slot(kind, key)] == r {
      assert key in keys;
      var i :| 0 <= i < |keys| && keys[i] == key;
      ClearedAt(s, kind, cluster, i);
    }
  }

  /** Clearing undoes the overlay. */
  lemma ClearedOverlay(s: Store, k: Slot)
    requires Inv(s) && k in s.db
    ensures Cleared(Overlay(s, k, s.db[k])) == s.db[k]
  {
  }

  lemma {:induction false} JoinedMembers(parts: seq<seq<Record>>, r: Record)
    ensures r in Joined(parts) <==> exists i :: 0 <= i < |parts| && r in parts[i]
    decreases |parts|
  {
    if parts != [] {
      var init := parts[..|parts| - 1];
      JoinedMembers(init, r);
      assert forall i :: 0 <= i < |init| ==> parts[i] == init[i];
    }
  }

  /** Some key the scan for cluster `c` visits holds `r`. */
  ghost predicate FoundFor(s: Store, kind: Kind, c: Record, r: Record)
  {
    exists key :: key in ScanKeys(s, kind, Some(ClusterOf(c))) && s.db[Slot(kind, key)] == r
  }

  lemma ExportedMembers(s: Store, kind: Kind, clusters: seq<Record>, r: Record)
    requires Inv(s)
    ensures r in Exported(s, kind, clusters) <==> exists c :: c in clusters && FoundFor(s, kind, c, r)
  {
    var parts := Parts(s, kind, clusters);
    JoinedMembers(parts, r);
    forall i | 0 <= i < |clusters| ensures r in parts[i] <==> FoundFor(s, kind, clusters[i], r) {
      ClearedListed(s, kind, Some(ClusterOf(clusters[i])), r);
    }
  }

  lemma FoundIsReached(s: Store, kind: Kind, c: Record, r: Record)
    requires Inv(s) && IsDesired(kind) && kind != KindCluster && Slot(KindCluster, ClusterOf(c)) in s.db && FoundFor(s, kind, c, r)
    ensures KindOf(r) == kind && Reached(s, SlotOf(r)) && s.db[SlotOf(r)] == r
  {
    var key :| key in ScanKeys(s, kind, Some(ClusterOf(c))) && s.db[Slot(kind, key)] == r;
    assert SlotOf(r) == Slot(kind, key);
  }

  lemma ReachedIsFound(s: Store, r: Record) returns (c: Record)
    requires Inv(s) && Reached(s, SlotOf(r)) && s.db[SlotOf(r)] == r && KindOf(r) != KindCluster
    ensures c in ListOf(s, KindCluster, None) && FoundFor(s, KindOf(r), c, r)
  {
    var k := SlotOf(r);
    var name :| Slot(KindCluster, name) in s.db && Scanned(k.key, name);
    c := Overlay(s, Slot(KindCluster, name), s.db[Slot(KindCluster, name)]);
    ListedRecords(s, KindCluster, None, c);
    assert name in ScanKeys(s, KindCluster, None);
    assert ClusterOf(c) == name;
    assert k.key in ScanKeys(s, k.kind, Some(ClusterOf(c)));
  }

  /** Export of one compound-keyed kind: the stored records whose key some stored cluster's scan reaches. */
  lemma ExportedKind(s: Store, kind: Kind, r: Record)
    requires Inv(s) && IsDesired(kind) && kind != KindCluster
    ensures r in Exported(s, kind, ListOf(s, KindCluster, None)) <==>
              KindOf(r) == kind && Reached(s, SlotOf(r)) && s.db[SlotOf(r)] == r
  {
    var cs := ListOf(s, KindCluster, None);
    ExportedMembers(s, kind, cs, r);
    if c :| c in cs && FoundFor(s, kind, c, r) {
      ListedCluster(s, c);
      FoundIsReached(s, kind, c, r);
    }
    if KindOf(r) == kind && Reached(s, SlotOf(r)) && s.db[SlotOf(r)] == r {
      var c := ReachedIsFound(s, r);
    }
  }

  lemma ExportedClusters(s: Store, r: Record)
    requires Inv(s)
    ensures r in ClearedAll(ListOf(s, KindCluster, None)) <==>
              KindOf(r) == KindCluster && SlotOf(r) in s.db && s.db[SlotOf(r)] == r
  {
    ClearedListed(s, KindCluster, None, r);
    if key :| key in ScanKeys(s, KindCluster, None) && s.db[Slot(KindCluster, key)] == r {
      assert SlotOf(r) == Slot(KindCluster, key);
    }
    if KindOf(r) == KindCluster && SlotOf(r) in s.db && s.db[SlotOf(r)] == r {
      assert SlotOf(r).key in ScanKeys(s, KindCluster, None);
    }
  }

  /** The document holds exactly the reached records, as stored. */
  lemma ExportContents(s: Store, r: Record)
    requires Inv(s)
    ensures r in Contents(ExportOf(s)) <==> Reached(s, SlotOf(r)) && s.db[SlotOf(r)] == r
  {
    ExportedClusters(s, r);
    ExportedKind(s, KindNodePool, r);
    ExportedKind(s, KindMachine, r);
    ExportedKind(s, KindHost, r);
  }

  lemma ListedCluster(s: Store, c: Record)
    requires Inv(s) && c in ListOf(s, KindCluster, None)
    ensures Slot(KindCluster, ClusterOf(c)) in s.db
  {
    ListedRecords(s, KindCluster, None, c);
  }

  // ----- import -----

  function ImportOne(s: Store, r: Record): (Store, Result<nat, StoreError>)
  {
    PutDesired(s, r, GetRev(s, SlotOf(r)))
  }

  /** Reads each record's current revision and puts over it, stopping at the first refusal. */
  function ImportAll(s: Store, rs: seq<Record>): (Store, bool)
    decreases |rs|
  {
    if rs == [] then (s, true)
    else
      var (s', r) := ImportOne(s, rs[0]);
      if r.Err? then (s', false) else ImportAll(s', rs[1..])
  }

  lemma {:induction false} ImportAppend(s: Store, a: seq<Record>, b: seq<Record>)
    ensures ImportAll(s, a + b) == if ImportAll(s, a).1 then ImportAll(ImportAll(s, a).0, b) else ImportAll(s, a)
    decreases |a|
  {
    if a == [] {
      assert a + b == b;
    } else {
      assert (a + b)[0] == a[0] && (a + b)[1..] == a[1..] + b;
      ImportAppend(ImportOne(s, a[0]).0, a[1..], b);
    }
  }

  method ImportList(store: BoltStore, rs: seq<Record>) returns (ok: bool)
    requires forall r :: r in rs ==> IsDesired(KindOf(r))
    modifies store
    ensures (store.Model(), ok) == ImportAll(old(store.Model()), rs)
  {
    for i := 0 to |rs|
      invariant ImportAll(store.Model(), rs[i..]) == ImportAll(old(store.Model()), rs)
    {
      assert rs[i..][0] == rs[i] && rs[i..][1..] == rs[i + 1..];
      assert rs[i] in rs;
      var _, rev := store.Read(SlotOf(rs[i]));
      var r := store.PutCAS(rs[i], rev);
      if r.Err? {
        return false;
      }
    }
    assert rs[|rs|..] == [];
    return true;
  }

  ghost predicate TypedDoc(d: Doc)
  {
    && (forall r :: r in d.clusters ==> r.ClusterRec?) && (forall r :: r in d.pools ==> r.PoolRec?)
    && (forall r :: r in d.machines ==> r.MachineRec?) && (forall r :: r in d.hosts ==> r.HostRec?)
  }

  method Import(store: BoltStore, d: Doc) returns (ok: bool)
    requires TypedDoc(d)
    modifies store
    ensures (store.Model(), ok) == ImportAll(old(store.Model()), Contents(d))
  {
    ghost var s := store.Model();
    ImportAppend(s, d.clusters + d.pools + d.machines, d.hosts);
    ImportAppend(s, d.clusters + d.pools, d.machines);
    ImportAppend(s, d.clusters, d.pools);
    ok := ImportList(store, d.clusters);
    if !ok { return; }
    ok := ImportList(store, d.pools);
    if !ok { return; }
    ok := ImportList(store, d.machines);
    if !ok { return; }
    ok := ImportList(store, d.hosts);
  }

  /** The identities a list of records names. */
  ghost predicate Identifies(rs: seq<Record>, k: Slot)
  {
    exists r :: r in rs && SlotOf(r) == k
  }

  /** What a list of records leaves at one key. */
  ghost predicate Imported(s: Store, t: Store, rs: seq<Record>, k: Slot)
  {
    if Identifies(rs, k)
    then k in t.db && exists r :: r in rs && SlotOf(r) == k && SameUpToRevision(t.db[k], r)
    else (k in t.db <==> k in s.db) && (k in t.db ==> t.db[k] == s.db[k])
  }

  lemma ImportOneEffect(s: Store, r: Record)
    requires Inv(s) && Named(r)
    ensures ImportOne(s, r).1.Ok? && Inv(ImportOne(s, r).0)
    ensures ImportOne(s, r).0.db == s.db[SlotOf(r) := Stamp(r, s.counter + 1)]
    ensures SameUpToRevision(Stamp(r, s.counter + 1), r)
  {
    WriteInv(s, r);
    StampTwice(r, s.counter + 1, 0);
  }

  lemma ImportStep(s: Store, s': Store, t: Store, rs: seq<Record>, st: Record, k: Slot)
    requires rs != [] && s'.db == s.db[SlotOf(rs[0]) := st] && SameUpToRevision(st, rs[0])
    requires Imported(s', t, rs[1..], k)
    ensures Imported(s, t, rs, k)
  {
    assert rs == [rs[0]] + rs[1..];
    if Identifies(rs[1..], k) {
      var r :| r in rs[1..] && SlotOf(r) == k && SameUpToRevision(t.db[k], r);
      assert r in rs;
    } else if k == SlotOf(rs[0]) {
      assert rs[0] in rs && SlotOf(rs[0]) == k && SameUpToRevision(t.db[k], rs[0]);
    } else {
      assert !Identifies(rs, k);
    }
  }

  /** Import overwrites exactly the named identities, with the named contents, and leaves the rest alone. */
  lemma {:induction false} ImportEffect(s: Store, rs: seq<Record>)
    requires Inv(s) && forall r :: r in rs ==> Named(r)
    ensures ImportAll(s, rs).1 && Inv(ImportAll(s, rs).0)
    ensures forall k :: Imported(s, ImportAll(s, rs).0, rs, k)
    decreases |rs|
  {
    if rs != [] {
      assert rs[0] in rs;
      var s' := ImportOne(s, rs[0]).0;
      ImportOneEffect(s, rs[0]);
      forall r | r in rs[1..] ensures Named(r) { assert r in rs; }
      ImportEffect(s', rs[1..]);
      var t := ImportAll(s', rs[1..]).0;
      forall k ensures Imported(s, t, rs, k) {
        ImportStep(s, s', t, rs, Stamp(rs[0], s.counter + 1), k);
      }
    }
  }

  // ----- round trip -----

  ghost function Restored(s: Store, t: Store): Store
  {
    ImportAll(t, Contents(ExportOf(s))).0
  }

  lemma ExportIdentities(s: Store, k: Slot)
    requires Inv(s)
    ensures Identifies(Contents(ExportOf(s)), k) <==> Reached(s, k)
  {
    var rs := Contents(ExportOf(s));
    if Identifies(rs, k) {
      var r :| r in rs && SlotOf(r) == k;
      ExportContents(s, r);
    }
    if Reached(s, k) {
      ExportContents(s, s.db[k]);
      assert s.db[k] in rs && SlotOf(s.db[k]) == k;
    }
  }

  /** What restoring `s` over `t` leaves at one key. */
  ghost predicate RestoredAt(s: Store, t: Store, u: Store, k: Slot)
  {
    if Reached(s, k)
    then k in u.db && SameUpToRevision(u.db[k], s.db[k])
    else (k in u.db <==> k in t.db) && (k in u.db ==> u.db[k] == t.db[k])
  }

  lemma RestoreAt(s: Store, t: Store, u: Store, k: Slot)
    requires Inv(s) && Imported(t, u, Contents(ExportOf(s)), k)
    ensures RestoredAt(s, t, u, k)
  {
    var rs := Contents(ExportOf(s));
    ExportIdentities(s, k);
    if Reached(s, k) {
      var r :| r in rs && SlotOf(r) == k && SameUpToRevision(u.db[k], r);
      ExportContents(s, r);
    }
  }

  /** Restoring an export of `s` over any store `t`: the reached records of `s`, and everything else as in `t`. */
  lemma RestoreOver(s: Store, t: Store)
    requires Inv(s) && Inv(t)
    ensures ImportAll(t, Contents(ExportOf(s))).1 && Inv(Restored(s, t))
    ensures forall k :: RestoredAt(s, t, Restored(s, t), k)
  {
    var rs := Contents(ExportOf(s));
    forall r | r in rs ensures Named(r) { ExportContents(s, r); }
    ImportEffect(t, rs);
    forall k ensures RestoredAt(s, t, Restored(s, t), k) { RestoreAt(s, t, Restored(s, t), k); }
  }

  ghost predicate SameDesired(s: Store, t: Store)
  {
    forall k: Slot :: IsDesired(k.kind) ==>
      (k in s.db <==> k in t.db) && (k in s.db ==> SameUpToRevision(s.db[k], t.db[k]))
  }

  /** Every pool, machine and host names a cluster that has a record. */
  ghost predicate Owned(s: Store)
  {
    forall k :: k in s.db && IsDesired(k.kind) && k.kind != KindCluster ==>
      Slot(KindCluster, ClusterOf(s.db[k])) in s.db
  }

  ghost predicate NulFreeNames(s: Store)
  {
    forall k :: k in s.db ==> NulFree(ClusterOf(s.db[k]))
  }

  lemma ReachedIff(s: Store, k: Slot)
    requires Inv(s) && NulFreeNames(s) && k in s.db && IsDesired(k.kind)
    ensures Reached(s, k) <==> k.kind == KindCluster || Slot(KindCluster, ClusterOf(s.db[k])) in s.db
  {
    var r := s.db[k];
    if k.kind != KindCluster {
      if Slot(KindCluster, ClusterOf(r)) in s.db { assert Scanned(k.key, ClusterOf(r)); }
      if c :| Slot(KindCluster, c) in s.db && Scanned(k.key, c) {
        assert ClusterOf(s.db[Slot(KindCluster, c)]) == c;
        ScanExact(c, ClusterOf(r), NameOf(r));
      }
    }
  }

  /** A backup restored into an empty store reproduces the desired state if and only if no record is orphaned. */
  lemma RoundTripIff(s: Store)
    requires Inv(s) && NulFreeNames(s)
    ensures SameDesired(s, Restored(s, EMPTY)) <==> Owned(s)
  {
    var t := Restored(s, EMPTY);
    RestoreOver(s, EMPTY);
    if SameDesired(s, t) {
      forall k | k in s.db && IsDesired(k.kind) && k.kind != KindCluster
        ensures Slot(KindCluster, ClusterOf(s.db[k])) in s.db
      {
        assert RestoredAt(s, EMPTY, t, k);
        ReachedIff(s, k);
      }
    }
    if Owned(s) {
      RoundTrip(s);
    }
  }

  /** Without the naming restriction, the same holds one way: an owned store survives the round trip. */
  lemma RoundTrip(s: Store)
    requires Inv(s) && Owned(s)
    ensures SameDesired(s, Restored(s, EMPTY))
  {
    var t := Restored(s, EMPTY);
    RestoreOver(s, EMPTY);
    forall k: Slot | IsDesired(k.kind)
      ensures (k in s.db <==> k in t.db) && (k in s.db ==> SameUpToRevision(s.db[k], t.db[k]))
    {
      assert RestoredAt(s, EMPTY, t, k);
      if k in s.db && k.kind != KindCluster { assert Scanned(k.key, ClusterOf(s.db[k])); }
    }
  }

  /** A confirmed create registers its host before any Cluster record exists; a backup taken then loses it. */
  lemma ArmedHostIsLost(name: string, mac: string)
    requires name != "" && mac != "" && NulFree(name)
    ensures var h := Host(name, mac, "controlplane", map[], "", ControlPlane, Registered, "", 0, None);
            var s := PutDesired(EMPTY, HostRec(h), 0).0;
            SlotOf(HostRec(h)) in s.db && SlotOf(HostRec(h)) !in Restored(s, EMPTY).db
  {
    var h := Host(name, mac, "controlplane", map[], "", ControlPlane, Registered, "", 0, None);
    var s := PutDesired(EMPTY, HostRec(h), 0).0;
    WriteInv(EMPTY, HostRec(h));
    RestoreOver(s, EMPTY);
    assert RestoredAt(s, EMPTY, Restored(s, EMPTY), SlotOf(HostRec(h)));
    assert !Reached(s, SlotOf(HostRec(h)));
  }
}
