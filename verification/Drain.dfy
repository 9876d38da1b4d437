/** Cordon a node, then evict its pods round by round until none is left or the deadline passes. */
module Drain {
  import opened Basics

  datatype PodPhase = PodPending | PodRunning | PodSucceeded | PodFailed | PodUnknown
  datatype Pod = Pod(
    namespace: string, name: string, phase: PodPhase, terminating: bool,
    annotations: map<string, string>, owners: seq<string>)  // owners: the kinds of the owner references

  const MIRROR_KEY := "kubernetes.io/config.mirror"

  /** Neither finished, nor on its way out, nor a static or DaemonSet pod. */
  predicate Evictable(p: Pod)
  {
    !p.phase.PodSucceeded? && !p.phase.PodFailed? && !p.terminating && MIRROR_KEY !in p.annotations && "DaemonSet" !in p.owners
  }

  method IsEvictable(p: Pod) returns (r: bool)
    ensures r <==> Evictable(p)
  {
    if p.phase == PodSucceeded || p.phase == PodFailed || p.terminating || MIRROR_KEY in p.annotations {
      return false;
    }
    for i := 0 to |p.owners|
      invariant "DaemonSet" !in p.owners[..i]
    {
      if p.owners[i] == "DaemonSet" {
        return false;
      }
    }
    return true;
  }

  function Evictables(pods: seq<Pod>): seq<Pod>
  {
    if pods == [] then [] else (if Evictable(pods[0]) then [pods[0]] else []) + Evictables(pods[1..])
  }

  function NameOf(p: Pod): string
  {
    p.namespace + "/" + p.name
  }

  function Names(pods: seq<Pod>): seq<string>
  {
    seq(|pods|, i requires 0 <= i < |pods| => NameOf(pods[i]))
  }

  // ----- the cluster's answers, one round at a time; when they run out the deadline has passed -----

  datatype Listing = Listed(pods: seq<Pod>) | ListError(deadline: bool)
  datatype EvictReply = Accepted | NotFound | TooManyRequests | EvictError(deadline: bool)

  /** `expires`: the deadline passes in the wait after the evictions. */
  datatype Round = Round(listing: Listing, replies: seq<EvictReply>, expires: bool)

  datatype Call = Cordon | List | Evict(namespace: string, name: string)
  datatype Outcome = Drained | CordonFailed | ListFailed | EvictFailed(pod: string) | TimedOut(remaining: seq<string>)
  datatype Report = Report(calls: seq<Call>, outcome: Outcome)
  datatype Attempted = Attempted(calls: seq<Call>, failed: Option<Pod>)

  /** The evictions of one round, up to the first one that fails for good. */
  function Attempt(todo: seq<Pod>, replies: seq<EvictReply>): Attempted
    decreases |todo|
  {
    if todo == [] then Attempted([], None)
    else
      var call := Evict(todo[0].namespace, todo[0].name);
      if replies != [] && replies[0].EvictError? then Attempted([call], Some(todo[0]))
      else
        var rest := Attempt(todo[1..], if replies == [] then [] else replies[1..]);
        Attempted([call] + rest.calls, rest.failed)
  }

  function Rounds(rounds: seq<Round>, remaining: seq<string>): Report
    decreases |rounds|
  {
    if rounds == [] then Report([List], TimedOut(remaining))
    else match rounds[0].listing
      case ListError(deadline) => Report([List], if deadline then TimedOut(remaining) else ListFailed)
      case Listed(pods) =>
        var todo := Evictables(pods);
        if todo == [] then Report([List], Drained)
        else
          var a := Attempt(todo, rounds[0].replies);
          if a.failed.Some? then Report([List] + a.calls, EvictFailed(NameOf(a.failed.value)))
          else if rounds[0].expires then Report([List] + a.calls, TimedOut(Names(todo)))
          else
            var rest := Rounds(rounds[1..], Names(todo));
            Report([List] + a.calls + rest.calls, rest.outcome)
  }

  function DrainNode(cordoned: bool, rounds: seq<Round>): Report
  {
    if !cordoned then Report([Cordon], CordonFailed)
    else var r := Rounds(rounds, []); Report([Cordon] + r.calls, r.outcome)
  }

  // ----- the loops -----

  method Select(pods: seq<Pod>) returns (toEvict: seq<Pod>, remaining: seq<string>)
    ensures toEvict == Evictables(pods) && remaining == Names(toEvict)
  {
    toEvict, remaining := [], [];
    for i := 0 to |pods|
      invariant toEvict == Evictables(pods[..i])
      invariant remaining == Names(toEvict)
    {
      EvictablesUpTo(pods, i);
      var e := IsEvictable(pods[i]);
      if e {
        NamesSnoc(toEvict, pods[i]);
        toEvict, remaining := toEvict + [pods[i]], remaining + [NameOf(pods[i])];
      }
    }
    assert pods[..|pods|] == pods;
  }

  lemma EvictablesUpTo(pods: seq<Pod>, i: nat)
    requires i < |pods|
    ensures Evictables(pods[..i + 1]) == if Evictable(pods[i]) then Evictables(pods[..i]) + [pods[i]] else Evictables(pods[..i])
  {
    assert pods[..i + 1] == pods[..i] + [pods[i]];
    EvictablesSnoc(pods[..i], pods[i]);
  }

  lemma {:induction false} EvictablesSnoc(pods: seq<Pod>, p: Pod)
    ensures Evictables(pods + [p]) == if Evictable(p) then Evictables(pods) + [p] else Evictables(pods)
    decreases |pods|
  {
    if pods == [] {
      assert (pods + [p])[1..] == [];
    } else {
      var all, rest := pods + [p], pods[1..];
      var head := if Evictable(pods[0]) then [pods[0]] else [];
      assert all[0] == pods[0] && all[1..] == rest + [p];
      EvictablesSnoc(rest, p);
      assert Evictables(all) == head + Evictables(rest + [p]) && Evictables(pods) == head + Evictables(rest);
    }
  }

  lemma NamesSnoc(pods: seq<Pod>, p: Pod)
    ensures Names(pods + [p]) == Names(pods) + [NameOf(p)]
  {
  }

  method EvictAll(toEvict: seq<Pod>, replies: seq<EvictReply>) returns (calls: seq<Call>, failed: Option<Pod>)
    ensures Attempted(calls, failed) == Attempt(toEvict, replies)
  {
    calls, failed := [], None;
    var left := replies;
    for i := 0 to |toEvict|
      invariant var rest := Attempt(toEvict[i..], left);
                Attempt(toEvict, replies) == Attempted(calls + rest.calls, rest.failed)
    {
      assert toEvict[i..][1..] == toEvict[i + 1..];
      calls := calls + [Evict(toEvict[i].namespace, toEvict[i].name)];
      if left != [] && left[0].EvictError? {
        return calls, Some(toEvict[i]);
      }
      left := if left == [] then [] else left[1..];
    }
  }

  method Run(cordoned: bool, rounds: seq<Round>) returns (calls: seq<Call>, outcome: Outcome)
    ensures Report(calls, outcome) == DrainNode(cordoned, rounds)
  {
    calls := [Cordon];
    if !cordoned {
      return calls, CordonFailed;
    }
    var remaining: seq<string> := [];
    var i := 0;
    while true
      invariant 0 <= i <= |rounds|
      invariant var rest := Rounds(rounds[i..], remaining);
                DrainNode(cordoned, rounds) == Report(calls + rest.calls, rest.outcome)
      decreases |rounds| - i
    {
      ghost var before := calls;
      calls := calls + [List];
      if i == |rounds| {
        return calls, TimedOut(remaining);
      }
      assert rounds[i..][0] == rounds[i] && rounds[i..][1..] == rounds[i + 1..];
      if rounds[i].listing.ListError? {
        return calls, if rounds[i].listing.deadline then TimedOut(remaining) else ListFailed;
      }
      var toEvict;
      toEvict, remaining := Select(rounds[i].listing.pods);
      if toEvict == [] {
        return calls, Drained;
      }
      var evictions, failed := EvictAll(toEvict, rounds[i].replies);
      calls := calls + evictions;
      assert before + ([List] + evictions) == calls;
      if failed.Some? {
        return calls, EvictFailed(NameOf(failed.value));
      }
      if rounds[i].expires {
        return calls, TimedOut(remaining);
      }
      ghost var tail := Rounds(rounds[i + 1..], remaining).calls;
      assert before + ([List] + evictions + tail) == calls + tail;
      i := i + 1;
    }
  }

  // ----- what a drain promises -----

  lemma {:induction false} EvictablesExact(pods: seq<Pod>)
    ensures forall p :: p in Evictables(pods) <==> p in pods && Evictable(p)
  {
    if pods != [] { EvictablesExact(pods[1..]); }
  }

  function Lists(calls: seq<Call>): nat
  {
    if calls == [] then 0 else Lists(calls[..|calls| - 1]) + (if calls[|calls| - 1].List? then 1 else 0)
  }

  lemma {:induction false} ListsConcat(a: seq<Call>, b: seq<Call>)
    ensures Lists(a + b) == Lists(a) + Lists(b)
    decreases |b|
  {
    if b == [] {
      assert a + b == a;
    } else {
      assert (a + b)[..|a + b| - 1] == a + b[..|b| - 1];
      ListsConcat(a, b[..|b| - 1]);
    }
  }

  /** The eviction names an evictable pod of the `n`-th listing. */
  ghost predicate Sanctioned(c: Call, rounds: seq<Round>, n: nat)
  {
    c.Evict? ==>
      && 1 <= n <= |rounds| && rounds[n - 1].listing.Listed?
      && exists p :: p in rounds[n - 1].listing.pods && MayGo(p) && p.namespace == c.namespace && p.name == c.name
  }

  /** The pod is at work, not leaving, not the mirror of a static pod, and no DaemonSet would bring it back. */
  ghost predicate MayGo(p: Pod)
  {
    && p.phase in {PodPending, PodRunning, PodUnknown} && !p.terminating
    && "kubernetes.io/config.mirror" !in p.annotations
    && forall i :: 0 <= i < |p.owners| ==> p.owners[i] != "DaemonSet"
  }

  lemma EvictableIff(p: Pod)
    ensures Evictable(p) <==> MayGo(p)
  {
  }

  /** The evictions of a round are evictions, of pods to evict. */
  lemma {:induction false} AttemptNames(todo: seq<Pod>, replies: seq<EvictReply>)
    ensures var a := Attempt(todo, replies);
            forall c :: c in a.calls ==> c.Evict? && exists p :: p in todo && p.namespace == c.namespace && p.name == c.name
    decreases |todo|
  {
    if todo != [] {
      AttemptNames(todo[1..], if replies == [] then [] else replies[1..]);
      assert todo[0] in todo;
    }
  }

  lemma {:induction false} NoLists(calls: seq<Call>)
    requires forall c :: c in calls ==> c.Evict?
    ensures Lists(calls) == 0
    decreases |calls|
  {
    if calls != [] {
      assert calls[|calls| - 1] in calls;
      NoLists(calls[..|calls| - 1]);
    }
  }

  /** A listing and then evictions: the listing is the only one, and is the latest for each of them. */
  lemma WordLists(calls: seq<Call>, i: nat)
    requires (forall c :: c in calls ==> c.Evict?) && i <= |calls|
    ensures Lists([List] + calls) == 1 && Lists(([List] + calls)[..i + 1]) == 1
  {
    assert [List][..0] == [];
    assert ([List] + calls)[..i + 1] == [List] + calls[..i];
    NoLists(calls);
    NoLists(calls[..i]);
    ListsConcat([List], calls);
    ListsConcat([List], calls[..i]);
  }

  /** One round's word is a listing and then sanctioned evictions. */
  lemma RoundSanctioned(rounds: seq<Round>, pods: seq<Pod>, replies: seq<EvictReply>, i: nat)
    requires rounds != [] && rounds[0].listing == Listed(pods)
    requires i < 1 + |Attempt(Evictables(pods), replies).calls|
    ensures var word := [List] + Attempt(Evictables(pods), replies).calls;
            Lists(word) == 1 && Sanctioned(word[i], rounds, Lists(word[..i]))
  {
    var calls := Attempt(Evictables(pods), replies).calls;
    AttemptNames(Evictables(pods), replies);
    WordLists(calls, if i > 0 then i - 1 else 0);
    if i > 0 {
      var c := calls[i - 1];
      assert c in calls;
      PodToEvict(pods, c);
    }
  }

  lemma PodToEvict(pods: seq<Pod>, c: Call)
    requires c.Evict? && exists p :: p in Evictables(pods) && p.namespace == c.namespace && p.name == c.name
    ensures exists p :: p in pods && MayGo(p) && p.namespace == c.namespace && p.name == c.name
  {
    var p :| p in Evictables(pods) && p.namespace == c.namespace && p.name == c.name;
    EvictablesExact(pods);
    EvictableIff(p);
    assert p in pods && MayGo(p);
  }

  lemma {:induction false} RoundsSanctioned(rounds: seq<Round>, remaining: seq<string>, i: nat)
    requires i < |Rounds(rounds, remaining).calls|
    ensures var calls := Rounds(rounds, remaining).calls; Sanctioned(calls[i], rounds, Lists(calls[..i]))
    decreases |rounds|
  {
    var r := Rounds(rounds, remaining);
    if rounds != [] && rounds[0].listing.Listed? && Evictables(rounds[0].listing.pods) != [] {
      var pods, replies := rounds[0].listing.pods, rounds[0].replies;
      var word := [List] + Attempt(Evictables(pods), replies).calls;
      if i < |word| {
        RoundSanctioned(rounds, pods, replies, i);
        assert r.calls[..i] == word[..i] && r.calls[i] == word[i];
      } else {
        RoundSanctioned(rounds, pods, replies, 0);
        var rest := Rounds(rounds[1..], Names(Evictables(pods)));
        RoundsSanctioned(rounds[1..], Names(Evictables(pods)), i - |word|);
        assert r.calls[..i] == word + rest.calls[..i - |word|];
        ListsConcat(word, rest.calls[..i - |word|]);
      }
    }
  }

  /** Every eviction is of an evictable pod of the latest listing. */
  lemma EvictsOnlyEvictable(cordoned: bool, rounds: seq<Round>, i: nat)
    requires i < |DrainNode(cordoned, rounds).calls|
    ensures var calls := DrainNode(cordoned, rounds).calls;
            && calls[0] == Cordon && (!cordoned ==> |calls| == 1)
            && Sanctioned(calls[i], rounds, Lists(calls[..i]))
  {
    if cordoned && i > 0 {
      var calls := Rounds(rounds, []).calls;
      RoundsSanctioned(rounds, [], i - 1);
      assert ([Cordon] + calls)[..i] == [Cordon] + calls[..i - 1];
      assert [Cordon][..0] == [];
      ListsConcat([Cordon], calls[..i - 1]);
    }
  }

  // ----- outcomes -----

  predicate Clear(r: Round)
  {
    r.listing.Listed? && forall p :: p in r.listing.pods ==> !Evictable(p)
  }

  /** The drain goes on to another round: something to evict, no eviction refused for good, time left. */
  predicate GoesOn(r: Round)
  {
    && r.listing.Listed? && !Clear(r) && !r.expires
    && forall i :: 0 <= i < |r.replies| && i < |Evictables(r.listing.pods)| ==> !r.replies[i].EvictError?
  }

  /** The deadline ends the drain in this round: at its listing, or in the wait after its evictions. */
  predicate Expires(r: Round)
  {
    r.listing == ListError(true) || (r.expires && GoesOn(r.(expires := false)))
  }

  lemma {:induction false} AttemptFails(todo: seq<Pod>, replies: seq<EvictReply>)
    ensures Attempt(todo, replies).failed.Some? <==> exists i :: 0 <= i < |replies| && i < |todo| && replies[i].EvictError?
    decreases |todo|
  {
    if todo != [] && replies != [] && !replies[0].EvictError? {
      AttemptFails(todo[1..], replies[1..]);
      if exists i :: 0 <= i < |replies| && i < |todo| && replies[i].EvictError? {
        var i :| 0 <= i < |replies| && i < |todo| && replies[i].EvictError?;
        assert replies[1..][i - 1] == replies[i];
      }
    } else if todo != [] && replies == [] {
      AttemptFails(todo[1..], []);
    }
  }

  lemma RoundGoesOn(r: Round)
    ensures r.listing.Listed? ==> (Clear(r) <==> Evictables(r.listing.pods) == [])
    ensures GoesOn(r) <==>
              r.listing.Listed? && Evictables(r.listing.pods) != [] && Attempt(Evictables(r.listing.pods), r.replies).failed.None? && !r.expires
  {
    if r.listing.Listed? {
      var todo := Evictables(r.listing.pods);
      EvictablesExact(r.listing.pods);
      AttemptFails(todo, r.replies);
      if todo != [] { assert todo[0] in todo; }
    }
  }

  /** The `i`-th eviction of the round is the first to fail for good. */
  predicate FailsAt(r: Round, i: nat)
  {
    && r.listing.Listed? && i < |r.replies| && i < |Evictables(r.listing.pods)| && r.replies[i].EvictError?
    && forall j :: 0 <= j < i ==> !r.replies[j].EvictError?
  }

  /** The deadline ends the drain in this round, at an eviction call. */
  ghost predicate ExpiresAtEviction(r: Round)
  {
    exists i: nat :: FailsAt(r, i) && r.replies[i].deadline
  }

  lemma {:induction false} FirstFailure(todo: seq<Pod>, replies: seq<EvictReply>, i: nat)
    requires i < |replies| && i < |todo| && replies[i].EvictError? && forall j :: 0 <= j < i ==> !replies[j].EvictError?
    ensures Attempt(todo, replies).failed == Some(todo[i])
    decreases |todo|
  {
    if i > 0 {
      assert !replies[0].EvictError?;
      FirstFailure(todo[1..], replies[1..], i - 1);
    }
  }

  lemma {:induction false} EvictionOutcome(rounds: seq<Round>, remaining: seq<string>, i: nat)
    requires Stop(rounds) < |rounds| && FailsAt(rounds[Stop(rounds)], i)
    ensures Rounds(rounds, remaining).outcome == EvictFailed(NameOf(Evictables(rounds[Stop(rounds)].listing.pods)[i]))
    decreases |rounds|
  {
    var r := rounds[0];
    RoundGoesOn(r);
    if GoesOn(r) {
      EvictionOutcome(rounds[1..], Names(Evictables(r.listing.pods)), i);
    } else {
      FirstFailure(Evictables(r.listing.pods), r.replies, i);
    }
  }

  /** What the drain last saw: the evictable pods of the last successful listing among the first `n`. */
  function LastSeen(rounds: seq<Round>, n: nat, before: seq<string>): seq<string>
    requires n <= |rounds|
  {
    if n == 0 then before
    else if rounds[n - 1].listing.Listed? then Names(Evictables(rounds[n - 1].listing.pods))
    else LastSeen(rounds, n - 1, before)
  }

  lemma {:induction false} LastSeenShift(rounds: seq<Round>, n: nat, before: seq<string>)
    requires rounds != [] && n < |rounds| && rounds[0].listing.Listed?
    ensures LastSeen(rounds, n + 1, before) == LastSeen(rounds[1..], n, Names(Evictables(rounds[0].listing.pods)))
  {
    if n > 0 { LastSeenShift(rounds, n - 1, before); }
  }

  /** How many listings a drain makes: one per round that goes on, and one more. */
  function Stop(rounds: seq<Round>): (k: nat)
    ensures k <= |rounds| && (forall j :: 0 <= j < k ==> GoesOn(rounds[j])) && (k < |rounds| ==> !GoesOn(rounds[k]))
  {
    if rounds == [] || !GoesOn(rounds[0]) then 0 else Stop(rounds[1..]) + 1
  }

  lemma {:induction false} RoundsLists(rounds: seq<Round>, remaining: seq<string>)
    ensures Lists(Rounds(rounds, remaining).calls) == Stop(rounds) + 1
    decreases |rounds|
  {
    assert [List][..0] == [];
    if rounds != [] && rounds[0].listing.Listed? {
      var todo, replies := Evictables(rounds[0].listing.pods), rounds[0].replies;
      RoundGoesOn(rounds[0]);
      AttemptNames(todo, replies);
      var word := [List] + Attempt(todo, replies).calls;
      WordLists(Attempt(todo, replies).calls, 0);
      if GoesOn(rounds[0]) {
        RoundsLists(rounds[1..], Names(todo));
        ListsConcat(word, Rounds(rounds[1..], Names(todo)).calls);
      }
    }
  }

  lemma {:induction false} RoundsOutcome(rounds: seq<Round>, remaining: seq<string>)
    ensures var k, r := Stop(rounds), Rounds(rounds, remaining);
            && (r.outcome.Drained? <==> k < |rounds| && Clear(rounds[k]))
            && (r.outcome.TimedOut? ==> r.outcome.remaining == LastSeen(rounds, if k < |rounds| then k + 1 else k, remaining))
            && (r.outcome.TimedOut? <==> k == |rounds| || Expires(rounds[k]))
            && r.outcome != CordonFailed
    decreases |rounds|
  {
    if rounds != [] && rounds[0].listing.Listed? {
      RoundGoesOn(rounds[0]);
      RoundGoesOn(rounds[0].(expires := false));
      if GoesOn(rounds[0]) {
        RoundsOutcome(rounds[1..], Names(Evictables(rounds[0].listing.pods)));
        var k := Stop(rounds[1..]);
        LastSeenShift(rounds, if k + 1 < |rounds| then k + 1 else k, remaining);
      }
    }
  }

  /**
   * A drain succeeds exactly when the node was cordoned and some listing showed nothing evictable, every
   * round before it having gone on.
   */
  lemma DrainedIff(cordoned: bool, rounds: seq<Round>)
    ensures DrainNode(cordoned, rounds).outcome.Drained? <==>
              cordoned && exists k :: 0 <= k < |rounds| && Clear(rounds[k]) && forall j :: 0 <= j < k ==> GoesOn(rounds[j])
  {
    RoundsOutcome(rounds, []);
    var stop := Stop(rounds);
    if exists k :: 0 <= k < |rounds| && Clear(rounds[k]) && forall j :: 0 <= j < k ==> GoesOn(rounds[j]) {
      var k :| 0 <= k < |rounds| && Clear(rounds[k]) && forall j :: 0 <= j < k ==> GoesOn(rounds[j]);
      assert !GoesOn(rounds[k]);
      assert stop == k;
    }
  }

  /** Listings made: one per round that goes on, and one more. */
  lemma ListingsMade(rounds: seq<Round>)
    ensures Lists(DrainNode(true, rounds).calls) == Stop(rounds) + 1
  {
    var calls := Rounds(rounds, []).calls;
    RoundsLists(rounds, []);
    assert [Cordon][..0] == [];
    ListsConcat([Cordon], calls);
  }

  /** A drain times out exactly when the deadline ends the first round that does not go on, or the answers run out. */
  lemma TimedOutIff(cordoned: bool, rounds: seq<Round>)
    ensures DrainNode(cordoned, rounds).outcome.TimedOut? <==>
              cordoned && (Stop(rounds) == |rounds| || Expires(rounds[Stop(rounds)]))
  {
    RoundsOutcome(rounds, []);
  }

  /** These are the evictable pods, each as its namespace, a slash and its name. */
  ghost predicate Spelled(pods: seq<Pod>, names: seq<string>)
  {
    forall x :: x in names <==> exists p :: p in pods && MayGo(p) && x == p.namespace + "/" + p.name
  }

  lemma NamesSpelled(pods: seq<Pod>)
    ensures Spelled(pods, Names(Evictables(pods)))
  {
    var todo := Evictables(pods);
    var names := Names(todo);
    EvictablesExact(pods);
    forall p ensures p in todo <==> p in pods && MayGo(p) { EvictableIff(p); }
    forall x ensures x in names <==> exists p :: p in pods && MayGo(p) && x == p.namespace + "/" + p.name {
      if x in names {
        var i :| 0 <= i < |names| && names[i] == x;
        assert todo[i] in todo;
      }
      if p :| p in pods && MayGo(p) && x == p.namespace + "/" + p.name {
        assert p in todo;
        var i :| 0 <= i < |todo| && todo[i] == p;
        assert names[i] == x;
      }
    }
  }

  lemma {:induction false} LastSeenIs(rounds: seq<Round>, n: nat, i: nat, before: seq<string>)
    requires i < n <= |rounds| && rounds[i].listing.Listed? && forall j :: i < j < n ==> !rounds[j].listing.Listed?
    ensures LastSeen(rounds, n, before) == Names(Evictables(rounds[i].listing.pods))
    decreases n
  {
    if i < n - 1 { LastSeenIs(rounds, n - 1, i, before); }
  }

  /** Round `i` is the last of the first `n` whose listing succeeded. */
  ghost predicate LastListing(rounds: seq<Round>, n: nat, i: nat)
  {
    i < n && i < |rounds| && rounds[i].listing.Listed? && forall j :: i < j < n && j < |rounds| ==> !rounds[j].listing.Listed?
  }

  /** A timeout names exactly the evictable pods of the last successful listing it made, in listing order. */
  lemma TimeoutNames(cordoned: bool, rounds: seq<Round>, n: nat)
    requires DrainNode(cordoned, rounds).outcome.TimedOut? && n == Lists(DrainNode(cordoned, rounds).calls)
    ensures var names := DrainNode(cordoned, rounds).outcome.remaining;
            && names == LastSeen(rounds, if n <= |rounds| then n else |rounds|, [])
            && (forall i: nat :: LastListing(rounds, n, i) ==> Spelled(rounds[i].listing.pods, names))
  {
    forall i: nat | LastListing(rounds, n, i)
      ensures Spelled(rounds[i].listing.pods, LastSeen(rounds, if n <= |rounds| then n else |rounds|, []))
    {
      LastSeenIs(rounds, if n <= |rounds| then n else |rounds|, i, []);
      NamesSpelled(rounds[i].listing.pods);
    }
    RoundsOutcome(rounds, []);
    ListingsMade(rounds);
  }

  /** The deadline is what ends the drain: at a listing, in a wait, or at an eviction call. */
  ghost predicate DeadlineEnds(rounds: seq<Round>)
  {
    var k := Stop(rounds);
    k == |rounds| || Expires(rounds[k]) || ExpiresAtEviction(rounds[k])
  }

  /**
   * When the deadline ends a cordoned drain, the error is the timeout naming the pods left if and only if
   * the deadline did not fall at an eviction call; there it is that one eviction's error.
   */
  lemma DeadlineNamesPodsIff(rounds: seq<Round>)
    requires DeadlineEnds(rounds)
    ensures var k, o := Stop(rounds), DrainNode(true, rounds).outcome;
            && (o == TimedOut(LastSeen(rounds, if k < |rounds| then k + 1 else k, [])) <==> !(k < |rounds| && ExpiresAtEviction(rounds[k])))
            && (k < |rounds| && ExpiresAtEviction(rounds[k]) ==> o.EvictFailed?)
  {
    var k := Stop(rounds);
    RoundsOutcome(rounds, []);
    if k < |rounds| && ExpiresAtEviction(rounds[k]) {
      var i: nat :| FailsAt(rounds[k], i) && rounds[k].replies[i].deadline;
      EvictionOutcome(rounds, [], i);
    }
  }

  /** One pod, and the deadline passes during its eviction: no timeout is reported and no list of pods. */
  lemma DeadlineDuringEviction()
    ensures var pod := Pod("default", "web", PodRunning, false, map[], []);
            var rounds := [Round(Listed([pod]), [EvictError(true)], false)];
            DeadlineEnds(rounds) && DrainNode(true, rounds).outcome == EvictFailed("default/web")
  {
    var pod := Pod("default", "web", PodRunning, false, map[], []);
    var r := Round(Listed([pod]), [EvictError(true)], false);
    assert [pod][1..] == [] && Evictables([pod]) == [pod] + Evictables([]);
    assert FailsAt(r, 0) && r.replies[0].deadline;
    assert !GoesOn(r);
    EvictionOutcome([r], [], 0);
    assert NameOf(pod) == "default/web";
  }

  /** Every listing comes back, no eviction is refused for good, and each listing shows fewer evictable pods. */
  ghost predicate Shrinking(rounds: seq<Round>)
  {
    && (forall j :: 0 <= j < |rounds| ==> GoesOn(rounds[j]) || Clear(rounds[j]))
    && (forall j :: 0 <= j < |rounds| - 1 ==>
          |Evictables(rounds[j + 1].listing.pods)| < |Evictables(rounds[j].listing.pods)| || Clear(rounds[j]))
  }

  lemma {:induction false} ShrinkingStops(rounds: seq<Round>)
    requires rounds != [] && Shrinking(rounds) && |rounds| > |Evictables(rounds[0].listing.pods)|
    ensures var k := Stop(rounds); k < |rounds| && Clear(rounds[k]) && k <= |Evictables(rounds[0].listing.pods)|
    decreases |rounds|
  {
    RoundGoesOn(rounds[0]);
    if GoesOn(rounds[0]) {
      var rest := rounds[1..];
      forall j | 0 <= j < |rest| ensures GoesOn(rest[j]) || Clear(rest[j]) { assert rest[j] == rounds[j + 1]; }
      forall j | 0 <= j < |rest| - 1
        ensures |Evictables(rest[j + 1].listing.pods)| < |Evictables(rest[j].listing.pods)| || Clear(rest[j])
      {
        assert rest[j] == rounds[j + 1] && rest[j + 1] == rounds[j + 1 + 1];
      }
      assert rest[0] == rounds[0 + 1];
      ShrinkingStops(rest);
    }
  }

  /** Then `n` evictable pods take at most `n + 1` listings, if the deadline leaves time for them. */
  lemma BoundedListings(rounds: seq<Round>)
    requires rounds != [] && Shrinking(rounds) && |rounds| > |Evictables(rounds[0].listing.pods)|
    ensures var r := DrainNode(true, rounds);
            r.outcome.Drained? && Lists(r.calls) <= |Evictables(rounds[0].listing.pods)| + 1
  {
    ShrinkingStops(rounds);
    RoundsOutcome(rounds, []);
    ListingsMade(rounds);
  }
}
