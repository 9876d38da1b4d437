/** Optional values, results, and Go's string order. */
module Basics {
  datatype Option<+T> = None | Some(value: T)

  datatype Result<+T, +E> = Ok(value: T) | Err(error: E)
}

/** Strings as Go compares and sorts them. */
module Text {

  /** `a < b` on Go strings: the first difference decides, a proper prefix comes first. */
  predicate Less(a: string, b: string)
  {
    |b| > 0 && (|a| == 0 || a[0] < b[0] || (a[0] == b[0] && Less(a[1..], b[1..])))
  }

  /** The first place where two strings differ. */
  predicate DiffersAt(a: string, b: string, i: nat)
  {
    i < |a| && i < |b| && a[..i] == b[..i] && a[i] != b[i]
  }

  /** `a` comes before `b` exactly when it is a proper prefix of it, or has the lower character where they first differ. */
  lemma {:induction false} LessIff(a: string, b: string)
    ensures Less(a, b) <==> (a <= b && a != b) || exists i: nat :: DiffersAt(a, b, i) && a[i] < b[i]
  {
    if a != [] && b != [] {
      var x, y := a[1..], b[1..];
      assert a == [a[0]] + x && b == [b[0]] + y;
      if a[0] == b[0] {
        LessIff(x, y);
        forall i: nat | DiffersAt(x, y, i) ensures DiffersAt(a, b, i + 1) { assert a[..i + 1] == [a[0]] + x[..i] && b[..i + 1] == [b[0]] + y[..i]; }
        forall i: nat | DiffersAt(a, b, i) ensures i > 0 && DiffersAt(x, y, i - 1) {
          assert a[..i][1..] == x[..i - 1] && b[..i][1..] == y[..i - 1];
        }
        if Less(x, y) && !(x <= y) {
          var i: nat :| DiffersAt(x, y, i) && x[i] < y[i];
          assert DiffersAt(a, b, i + 1) && a[i + 1] < b[i + 1];
        }
      } else {
        assert DiffersAt(a, b, 0);
        forall i: nat | i > 0 && i < |a| && i < |b| ensures a[..i] != b[..i] { assert a[..i][0] != b[..i][0]; }
      }
    }
  }

  lemma {:induction false} LessTotal(a: string, b: string)
    ensures Less(a, b) || a == b || Less(b, a)
  {
    if a != [] && b != [] && a[0] == b[0] {
      LessTotal(a[1..], b[1..]);
      assert a == [a[0]] + a[1..] && b == [b[0]] + b[1..];
    }
  }

  lemma {:induction false} LessAsymmetric(a: string, b: string)
    requires Less(a, b)
    ensures !Less(b, a) && a != b
  {
    if a != [] && a[0] == b[0] {
      LessAsymmetric(a[1..], b[1..]);
    }
  }

  lemma {:induction false} LessTransitive(a: string, b: string, c: string)
    requires Less(a, b) && Less(b, c)
    ensures Less(a, c)
  {
    if a != [] && a[0] == b[0] && b[0] == c[0] {
      LessTransitive(a[1..], b[1..], c[1..]);
    }
  }

  /** Strictly increasing: sorted and free of duplicates. */
  ghost predicate Ascending(s: seq<string>)
  {
    forall i, j :: 0 <= i < j < |s| ==> Less(s[i], s[j])
  }

  ghost predicate Distinct(s: seq<string>)
  {
    forall i, j :: 0 <= i < j < |s| ==> s[i] != s[j]
  }

  /** `x` placed before the first element that is not below it. */
  function Insert(x: string, s: seq<string>): (r: seq<string>)
    ensures multiset(r) == multiset(s) + multiset{x}
  {
    if s == [] then [x]
    else if Less(s[0], x) then
      assert s == [s[0]] + s[1..];
      [s[0]] + Insert(x, s[1..])
    else [x] + s
  }

  /** What `sort.Strings` leaves in the slice. */
  function Sort(s: seq<string>): (r: seq<string>)
    ensures multiset(r) == multiset(s)
  {
    if s == [] then []
    else
      assert s == [s[0]] + s[1..];
      Insert(s[0], Sort(s[1..]))
  }

  lemma InSameMultiset(a: seq<string>, b: seq<string>, x: string)
    requires multiset(a) == multiset(b)
    ensures x in a <==> x in b
  {
    assert x in a <==> x in multiset(a);
    assert x in b <==> x in multiset(b);
  }

  lemma {:induction false} InsertMembers(x: string, s: seq<string>, y: string)
    ensures y in Insert(x, s) <==> y == x || y in s
  {
    assert y in Insert(x, s) <==> y in multiset(Insert(x, s));
    assert y in s <==> y in multiset(s);
  }

  lemma {:induction false} InsertAscending(x: string, s: seq<string>)
    requires Ascending(s) && x !in s
    ensures Ascending(Insert(x, s))
  {
    if s != [] {
      var r := Insert(x, s);
      LessTotal(s[0], x);
      if Less(s[0], x) {
        InsertAscending(x, s[1..]);
        var t := Insert(x, s[1..]);
        forall j | 0 < j < |r| ensures Less(r[0], r[j]) {
          assert r[j] == t[j - 1];
          assert t[j - 1] in t;
          InsertMembers(x, s[1..], t[j - 1]);
          assert r[j] == x || r[j] in s[1..];
        }
      } else {
        forall j | 0 < j < |r| ensures Less(r[0], r[j]) {
          if j > 1 { LessTransitive(x, s[0], s[j - 1]); }
        }
      }
    }
  }

  /** Sorting a list without repeats gives the one ascending list of its elements. */
  lemma {:induction false} SortAscending(s: seq<string>)
    requires Distinct(s)
    ensures Ascending(Sort(s))
  {
    if s != [] {
      SortAscending(s[1..]);
      InSameMultiset(Sort(s[1..]), s[1..], s[0]);
      InsertAscending(s[0], Sort(s[1..]));
    }
  }

  lemma SortMembers(s: seq<string>, x: string)
    ensures x in Sort(s) <==> x in s
  {
    InSameMultiset(Sort(s), s, x);
  }

  /** Sorting an ascending list with one new element at the end inserts it in place. */
  lemma {:induction false} SortAppended(s: seq<string>, x: string)
    requires Ascending(s) && x !in s
    ensures Ascending(Sort(s + [x]))
    ensures forall y :: y in Sort(s + [x]) <==> y in s || y == x
  {
    var t := s + [x];
    forall i, j | 0 <= i < j < |t| ensures t[i] != t[j] {
      if j < |s| { LessAsymmetric(s[i], s[j]); }
    }
    SortAscending(t);
    forall y ensures y in Sort(t) <==> y in s || y == x { SortMembers(t, y); }
  }

  /** Two ascending lists with the same elements are the same list. */
  lemma {:induction false} AscendingUnique(s: seq<string>, t: seq<string>)
    requires Ascending(s) && Ascending(t)
    requires forall x :: x in s <==> x in t
    ensures s == t
  {
    SameEmptiness(s, t);
    if s != [] {
      assert s[0] in s;
      assert t[0] in t;
      AscendingHead(s, t[0]);
      AscendingHead(t, s[0]);
      if s[0] != t[0] { LessAsymmetric(s[0], t[0]); }
      forall x ensures x in s[1..] <==> x in t[1..] {
        AscendingTail(s, x);
        AscendingTail(t, x);
      }
      AscendingUnique(s[1..], t[1..]);
      assert s == [s[0]] + s[1..] && t == [t[0]] + t[1..];
    }
  }

  lemma SameEmptiness(s: seq<string>, t: seq<string>)
    requires forall x :: x in s <==> x in t
    ensures s == [] <==> t == []
  {
    if s != [] { assert s[0] in t; }
    if t != [] { assert t[0] in s; }
  }

  lemma AscendingHead(s: seq<string>, x: string)
    requires Ascending(s) && x in s
    ensures x == s[0] || Less(s[0], x)
  {
    var i :| 0 <= i < |s| && s[i] == x;
    if i > 0 { assert Less(s[0], s[i]); }
  }

  lemma AscendingTail(s: seq<string>, x: string)
    requires Ascending(s) && s != []
    ensures x in s[1..] <==> x in s && x != s[0]
  {
    if x in s[1..] {
      var i :| 0 <= i < |s| - 1 && s[1..][i] == x;
      assert s[i + 1] == x;
      LessAsymmetric(s[0], s[i + 1]);
    }
    if x in s && x != s[0] {
      var i :| 0 <= i < |s| && s[i] == x;
      assert s[1..][i - 1] == x;
    }
  }

  /** The keys of a bucket in the order bbolt walks them. */
  ghost function Listed(keys: set<string>): (r: seq<string>)
    ensures Ascending(r)
    ensures forall k :: k in r <==> k in keys
  {
    if keys == {} then []
    else
      var k :| k in keys;
      var rest := Listed(keys - {k});
      InsertAscending(k, rest);
      assert forall y :: y in Insert(k, rest) <==> y == k || y in rest by {
        forall y ensures y in Insert(k, rest) <==> y == k || y in rest { InsertMembers(k, rest, y); }
      }
      Insert(k, rest)
  }
}
