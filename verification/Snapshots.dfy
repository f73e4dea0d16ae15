/** VolumeSnapshots: pruning old ones and waiting for the one taken before an update. */
module Snapshots {

  /** A VolumeSnapshot: its server label, its creation time and what the driver reports. */
  datatype Snapshot = Snapshot(name: string, server: string, created: int, ready: bool, error: string)

  /** The snapshots of a namespace, by name. */
  type Store = map<string, Snapshot>

  ghost predicate Named(items: Store) {
    forall k :: k in items ==> items[k].name == k
  }

  function NamesOf(items: Store, server: string): set<string> {
    set k | k in items && items[k].server == server
  }

  // ------------------------------------------------------------ sorting

  ghost predicate Ascending(s: seq<Snapshot>) {
    forall p, q :: 0 <= p < q < |s| ==> s[p].created <= s[q].created
  }

  /** Sorts in place, oldest first. */
  method SortByAge(a: array<Snapshot>)
    modifies a
    ensures Ascending(a[..])
    ensures multiset(a[..]) == multiset(old(a[..]))
  {
    for i := 0 to a.Length
      invariant Ascending(a[..i])
      invariant multiset(a[..]) == multiset(old(a[..]))
    {
      Insert(a, i);
    }
    assert a[..a.Length] == a[..];
  }

  /** The first `n` are in order but for the one at `j`, which is no newer than those behind it. */
  ghost predicate AscendingBut(s: seq<Snapshot>, n: nat, j: nat)
    requires j < n <= |s|
  {
    && (forall p, q :: 0 <= p < q < n && p != j && q != j ==> s[p].created <= s[q].created)
    && (forall q :: j < q < n ==> s[j].created <= s[q].created)
  }

  function Swapped(s: seq<Snapshot>, j: nat): seq<Snapshot>
    requires 0 < j < |s|
  {
    s[j - 1 := s[j]][j := s[j - 1]]
  }

  lemma SwapKeeps(s: seq<Snapshot>, j: nat)
    requires 0 < j < |s|
    ensures multiset(Swapped(s, j)) == multiset(s)
  {
    var front, back := s[..j - 1], s[j + 1..];
    assert s == front + [s[j - 1], s[j]] + back;
    assert Swapped(s, j) == front + [s[j], s[j - 1]] + back;
    assert multiset([s[j - 1], s[j]]) == multiset([s[j], s[j - 1]]);
  }

  /** One exchange in the array. */
  method Exchange(a: array<Snapshot>, j: nat)
    requires 0 < j < a.Length
    modifies a
    ensures a[..] == Swapped(old(a[..]), j)
  {
    a[j - 1], a[j] := a[j], a[j - 1];
  }

  lemma SwapDown(s: seq<Snapshot>, n: nat, j: nat)
    requires 0 < j < n <= |s| && AscendingBut(s, n, j) && s[j].created < s[j - 1].created
    ensures AscendingBut(Swapped(s, j), n, j - 1)
  {
  }

  lemma InPlace(s: seq<Snapshot>, n: nat, j: nat)
    requires j < n <= |s| && AscendingBut(s, n, j) && (j > 0 ==> s[j - 1].created <= s[j].created)
    ensures Ascending(s[..n])
  {
    forall p, q | 0 <= p < q < n ensures s[p].created <= s[q].created {
      if q == j && p < j - 1 {
        assert s[p].created <= s[j - 1].created;
      }
    }
  }

  lemma StartsOut(s: seq<Snapshot>, i: nat)
    requires i < |s| && Ascending(s[..i])
    ensures AscendingBut(s, i + 1, i)
  {
    forall p, q | 0 <= p < q < i ensures s[p].created <= s[q].created {
      assert s[..i][p].created <= s[..i][q].created;
    }
  }

  /** Moves the element at `i` down to its place. */
  method Insert(a: array<Snapshot>, i: nat)
    requires i < a.Length && Ascending(a[..i])
    modifies a
    ensures Ascending(a[..i + 1])
    ensures multiset(a[..]) == multiset(old(a[..]))
  {
    var j := i;
    assert a[..][..i] == a[..i];
    StartsOut(a[..], i);
    while j > 0 && a[j].created < a[j - 1].created
      invariant 0 <= j <= i
      invariant AscendingBut(a[..], i + 1, j)
      invariant multiset(a[..]) == multiset(old(a[..]))
    {
      ghost var was := a[..];
      SwapDown(was, i + 1, j);
      SwapKeeps(was, j);
      Exchange(a, j);
      assert a[..] == Swapped(was, j);
      j := j - 1;
    }
    InPlace(a[..], i + 1, j);
    assert a[..][..i + 1] == a[..i + 1];
  }

  // ------------------------------------------------------------ pruning

  ghost predicate DistinctNames(s: seq<Snapshot>) {
    forall p, q :: 0 <= p < q < |s| ==> s[p].name != s[q].name
  }

  function Names(s: seq<Snapshot>): set<string> {
    if s == [] then {} else Names(s[..|s| - 1]) + {s[|s| - 1].name}
  }

  lemma {:induction false} InNames(s: seq<Snapshot>, name: string)
    ensures name in Names(s) <==> exists k :: 0 <= k < |s| && s[k].name == name
  {
    if s != [] {
      InNames(s[..|s| - 1], name);
      assert forall k :: 0 <= k < |s| - 1 ==> s[..|s| - 1][k] == s[k];
    }
  }

  lemma Added(names: set<string>, name: string)
    ensures |names + {name}| == if name in names then |names| else |names| + 1
  {
    if name in names {
      assert names + {name} == names;
    }
  }

  lemma NamesPush(s: seq<Snapshot>, x: Snapshot)
    ensures Names(s + [x]) == Names(s) + {x.name}
    ensures x.name !in Names(s) ==> |Names(s + [x])| == |Names(s)| + 1
  {
    assert (s + [x])[..|s|] == s;
    Added(Names(s), x.name);
  }

  lemma {:induction false} CountNames(s: seq<Snapshot>)
    ensures |Names(s)| <= |s|
    ensures |Names(s)| == |s| <==> DistinctNames(s)
  {
    if s != [] {
      var init, last := s[..|s| - 1], s[|s| - 1].name;
      CountNames(init);
      InNames(init, last);
      Added(Names(init), last);
      if DistinctNames(init) && last !in Names(init) {
        forall p, q | 0 <= p < q < |s| ensures s[p].name != s[q].name {
          assert init[p] == s[p];
        }
      }
    }
  }

  /** `s` holds every snapshot of the server exactly once. */
  ghost predicate Lists(s: seq<Snapshot>, items: Store, server: string) {
    && DistinctNames(s) && Names(s) == NamesOf(items, server)
    && forall k :: 0 <= k < |s| ==> s[k].name in items && items[s[k].name] == s[k]
  }

  lemma SameNames(s: seq<Snapshot>, t: seq<Snapshot>)
    requires forall k :: 0 <= k < |s| ==> s[k] in t
    ensures Names(s) <= Names(t)
  {
    forall n | n in Names(s) ensures n in Names(t) {
      InNames(s, n);
      InNames(t, n);
      var k :| 0 <= k < |s| && s[k].name == n;
      assert s[k] in t;
    }
  }

  lemma SameElements(s: seq<Snapshot>, t: seq<Snapshot>)
    requires multiset(s) == multiset(t)
    ensures |s| == |t| && forall k :: 0 <= k < |s| ==> s[k] in t
  {
    assert |multiset(s)| == |s| && |multiset(t)| == |t|;
    forall k | 0 <= k < |s| ensures s[k] in t {
      assert s[k] in multiset(s);
    }
  }

  /** Reordering a list keeps it a list of the same snapshots. */
  lemma ListsReordered(s: seq<Snapshot>, t: seq<Snapshot>, items: Store, server: string)
    requires multiset(s) == multiset(t) && Lists(s, items, server)
    ensures Lists(t, items, server) && |t| == |s|
  {
    SameElements(s, t);
    SameElements(t, s);
    SameNames(s, t);
    SameNames(t, s);
    assert Names(s) == Names(t);
    CountNames(s);
    CountNames(t);
    forall k | 0 <= k < |t| ensures t[k].name in items && items[t[k].name] == t[k] {
      assert t[k] in s;
    }
  }

  /** The list call: all snapshots of one server, each once, in no particular order. */
  method ListOf(items: Store, server: string) returns (r: seq<Snapshot>)
    requires Named(items)
    ensures Lists(r, items, server)
  {
    r := [];
    var mine := NamesOf(items, server);
    var left := mine;
    while left != {}
      invariant Names(r) + left == mine && Names(r) !! left && |Names(r)| == |r|
      invariant forall k :: 0 <= k < |r| ==> r[k].name in items && items[r[k].name] == r[k]
      decreases left
    {
      var k :| k in left;
      NamesPush(r, items[k]);
      left := left - {k};
      r := r + [items[k]];
    }
    CountNames(r);
  }

  /** Nothing is gone but snapshots of this server, and nothing that is left changed. */
  predicate OnlyOwnGone(items: Store, left: Store, server: string) {
    && left.Keys <= items.Keys && (forall k :: k in left ==> left[k] == items[k])
    && items.Keys - left.Keys <= NamesOf(items, server)
  }

  /** What pruning leaves: exactly `min(n, retain)` of the server's `n` snapshots if it works, and in any
      case nothing of others is gone and everything gone is no newer than anything left. */
  ghost predicate PrunedTo(items: Store, left: Store, server: string, retain: nat, ok: bool) {
    && OnlyOwnGone(items, left, server)
    && (forall d, k :: d in items.Keys - left.Keys && k in NamesOf(left, server) ==> items[d].created <= items[k].created)
    && (ok ==> var n := |NamesOf(items, server)|; |NamesOf(left, server)| == if n < retain then n else retain)
  }

  /** A snapshot newer than all others of its server survives, unless none is retained. */
  lemma NewestSurvives(items: Store, left: Store, server: string, retain: nat, name: string)
    requires PrunedTo(items, left, server, retain, true) && retain > 0 && name in NamesOf(items, server)
    requires forall k :: k in NamesOf(items, server) && k != name ==> items[k].created < items[name].created
    ensures name in left && left[name] == items[name]
  {
    var mine, kept := NamesOf(items, server), NamesOf(left, server);
    assert mine != {} && |mine| > 0;
    assert kept != {};
    var k :| k in kept;
    assert k in mine;
    assert name in left || name in items.Keys - left.Keys;
  }

  /** Deletes what exceeds `retainCount`, oldest first; the delete numbered `failAt` fails.

      On success exactly `min(n, retainCount)` of the server's `n` snapshots are left.
      Whether or not a delete fails: only snapshots of this server are deleted, nothing
      that is left changes, and everything deleted is no newer than anything left. */
  method Prune(items: Store, server: string, retainCount: nat, failAt: nat) returns (left: Store, ok: bool)
    requires Named(items)
    ensures PrunedTo(items, left, server, retainCount, ok)
    ensures var n := |NamesOf(items, server)|;
      ok <==> failAt >= (if n < retainCount then 0 else n - retainCount)
  {
    var listed := ListOf(items, server);
    CountNames(listed);
    if |listed| <= retainCount {
      return items, true;
    }
    var a := new Snapshot[|listed|](i requires 0 <= i < |listed| => listed[i]);
    assert a[..] == listed;
    SortByAge(a);
    ListsReordered(listed, a[..], items, server);
    left, ok := DeleteOldest(items, server, a[..], |listed| - retainCount, failAt);
  }

  /** The delete loop: removes the first `excess` entries one by one until one fails. */
  method DeleteOldest(items: Store, server: string, sorted: seq<Snapshot>, excess: nat, failAt: nat)
    returns (left: Store, ok: bool)
    requires Ascending(sorted) && Lists(sorted, items, server) && excess <= |sorted|
    ensures ok <==> failAt >= excess
    ensures OnlyOwnGone(items, left, server)
    ensures forall d, k :: d in items.Keys - left.Keys && k in NamesOf(left, server) ==>
              items[d].created <= items[k].created
    ensures ok ==> |NamesOf(left, server)| == |NamesOf(items, server)| - excess
  {
    left := items;
    var deleted := 0;
    while deleted < excess && deleted != failAt
      invariant deleted <= excess && deleted <= failAt
      invariant left == items - Names(sorted[..deleted])
    {
      assert sorted[..deleted + 1][..deleted] == sorted[..deleted];
      left := left - {sorted[deleted].name};
      deleted := deleted + 1;
    }
    PrunedFacts(items, server, sorted, deleted);
    ok := deleted == excess;
  }

  /** A name among the first `d` is not among the others. */
  lemma PrefixOrRest(sorted: seq<Snapshot>, d: nat, name: string)
    requires DistinctNames(sorted) && d <= |sorted| && name in Names(sorted)
    ensures name in Names(sorted[..d]) ==> exists p :: 0 <= p < d && sorted[p].name == name
    ensures name !in Names(sorted[..d]) ==> exists q :: d <= q < |sorted| && sorted[q].name == name
  {
    InNames(sorted, name);
    InNames(sorted[..d], name);
    var k :| 0 <= k < |sorted| && sorted[k].name == name;
    if k < d {
      assert sorted[..d][k].name == name;
    }
  }

  lemma {:induction false} PrefixNames(sorted: seq<Snapshot>, d: nat)
    requires DistinctNames(sorted) && d <= |sorted|
    ensures Names(sorted[..d]) <= Names(sorted) && |Names(sorted[..d])| == d
  {
    CountNames(sorted[..d]);
    forall n | n in Names(sorted[..d]) ensures n in Names(sorted) {
      InNames(sorted, n);
      InNames(sorted[..d], n);
      var k :| 0 <= k < d && sorted[..d][k].name == n;
      assert sorted[k].name == n;
    }
  }

  lemma Without(items: Store, server: string, gone: set<string>)
    requires gone <= NamesOf(items, server)
    ensures items.Keys - (items - gone).Keys == gone
    ensures NamesOf(items - gone, server) == NamesOf(items, server) - gone
    ensures |NamesOf(items - gone, server)| == |NamesOf(items, server)| - |gone|
  {
    assert NamesOf(items - gone, server) == NamesOf(items, server) - gone;
  }

  /** What is left after the first `d` of the sorted snapshots are gone. */
  lemma PrunedFacts(items: Store, server: string, sorted: seq<Snapshot>, d: nat)
    requires Ascending(sorted) && Lists(sorted, items, server) && d <= |sorted|
    ensures var left := items - Names(sorted[..d]);
      && items.Keys - left.Keys == Names(sorted[..d]) <= NamesOf(items, server)
      && |NamesOf(left, server)| == |NamesOf(items, server)| - d
      && forall x, k :: x in Names(sorted[..d]) && k in NamesOf(left, server) ==>
           items[x].created <= items[k].created
  {
    var gone := Names(sorted[..d]);
    var left := items - gone;
    PrefixNames(sorted, d);
    Without(items, server, gone);
    forall x, k | x in gone && k in NamesOf(left, server)
      ensures items[x].created <= items[k].created
    {
      PrefixIsOlder(items, server, sorted, d, x, k);
    }
  }

  lemma PrefixIsOlder(items: Store, server: string, sorted: seq<Snapshot>, d: nat, x: string, k: string)
    requires Ascending(sorted) && Lists(sorted, items, server) && d <= |sorted|
    requires x in Names(sorted[..d]) && k in NamesOf(items, server) && k !in Names(sorted[..d])
    ensures x in items && items[x].created <= items[k].created
  {
    PrefixNames(sorted, d);
    PrefixOrRest(sorted, d, x);
    PrefixOrRest(sorted, d, k);
    var p :| 0 <= p < d && sorted[p].name == x;
    var q :| d <= q < |sorted| && sorted[q].name == k;
    assert sorted[p].created <= sorted[q].created;
  }

  // ------------------------------------------------------------ waiting for a snapshot

  /** What one poll of the snapshot object returns. */
  datatype Poll = GetFailed | Observed(error: string, ready: bool) {
    predicate Good() { Observed? && error == "" && ready }
    predicate Undecided() { Observed? && error == "" && !ready }
  }

  const POLL_SECONDS: int := 10
  const TIMEOUT_SECONDS: int := 180

  /** Creates the pre-update snapshot and polls it until it is ready, broken or overdue.

      `created` is whether the create call was accepted, `observe(k)` what poll `k` sees,
      and `drift(i)` how long passes before the `i`-th reading of the clock beyond the
      sleeps.  The result says whether the update may go on. */
  method SnapshotBeforeUpdate(created: bool, observe: nat -> Poll, start: int, drift: nat -> nat, strict: bool)
    returns (proceed: bool, polls: nat)
    ensures polls <= 18
    ensures forall k :: 0 <= k < polls - 1 ==> observe(k).Undecided()
    ensures !strict ==> proceed
    ensures strict ==> (proceed <==> created && polls > 0 && observe(polls - 1).Good())
    ensures created && (forall i :: drift(i) == 0) && (forall k :: k < 18 ==> observe(k).Undecided()) ==> polls == 18
    ensures created && polls < 18 && (forall i :: drift(i) == 0) ==> polls > 0 && !observe(polls - 1).Undecided()
  {
    polls := 0;
    if !created {
      return !strict, polls;
    }
    var reading := 0;
    var now := start + drift(0);
    var deadline := now + TIMEOUT_SECONDS;
    now := now + drift(1);
    reading := 1;
    while now < deadline
      invariant reading == polls + 1
      invariant deadline - TIMEOUT_SECONDS + POLL_SECONDS * polls <= now
      invariant polls > 0 ==> deadline - TIMEOUT_SECONDS + POLL_SECONDS * (polls - 1) < deadline
      invariant (forall i :: drift(i) == 0) ==> now == deadline - TIMEOUT_SECONDS + POLL_SECONDS * polls
      invariant forall k :: 0 <= k < polls ==> observe(k).Undecided()
      decreases deadline - now
    {
      var seen := observe(polls);
      polls := polls + 1;
      if seen.GetFailed? {
        return !strict, polls;
      }
      if seen.error != "" {
        return !strict, polls;
      }
      if seen.ready {
        return true, polls;
      }
      now := now + POLL_SECONDS + drift(reading + 1);
      reading := reading + 1;
    }
    return !strict, polls;
  }
}
