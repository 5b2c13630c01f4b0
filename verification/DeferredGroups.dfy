/** groupDeferredEvents of server/internal/app/deferred_analysis.go: pending captures by frequency and
    location, and why its result is what the worker pool needs. */
module DeferredGroups {
  import opened Deferred

  // key: the frequency to the hertz and the location to a tenth of a degree, as one string.
  datatype Capture = Capture(id: nat, key: string, startedAt: int)

  // ---- the order of Go strings ----

  predicate Before(a: string, b: string) {
    |b| > 0 && (|a| == 0 || a[0] < b[0] || (a[0] == b[0] && Before(a[1..], b[1..])))
  }

  lemma {:induction false} BeforeIsTotal(a: string, b: string)
    ensures a == b || Before(a, b) || Before(b, a)
  {
    if |a| > 0 && |b| > 0 && a[0] == b[0] {
      BeforeIsTotal(a[1..], b[1..]);
      assert a == [a[0]] + a[1..] && b == [b[0]] + b[1..];
    }
  }

  lemma {:induction false} BeforeIsStrict(a: string, b: string)
    ensures Before(a, b) ==> a != b && !Before(b, a)
  {
    if |a| > 0 && |b| > 0 && a[0] == b[0] { BeforeIsStrict(a[1..], b[1..]); }
  }

  lemma {:induction false} BeforeChains(a: string, b: string, c: string)
    requires Before(a, b) && Before(b, c)
    ensures Before(a, c)
  {
    if |a| > 0 && a[0] == b[0] == c[0] { BeforeChains(a[1..], b[1..], c[1..]); }
  }

  ghost predicate Increasing(keys: seq<string>) { forall i, j | 0 <= i < j < |keys| :: Before(keys[i], keys[j]) }

  function InsertKey(keys: seq<string>, key: string): seq<string> {
    if |keys| == 0 then [key]
    else if Before(key, keys[0]) then [key] + keys
    else [keys[0]] + InsertKey(keys[1..], key)
  }

  lemma {:induction false} InsertKeyMembers(keys: seq<string>, key: string)
    ensures forall k :: k in InsertKey(keys, key) <==> k == key || k in keys
  {
    if |keys| > 0 {
      InsertKeyMembers(keys[1..], key);
      assert keys == [keys[0]] + keys[1..];
    }
  }

  lemma IncreasingFront(first: string, rest: seq<string>)
    requires Increasing(rest) && forall k | k in rest :: Before(first, k)
    ensures Increasing([first] + rest)
  {
  }

  lemma IncreasingRest(keys: seq<string>)
    requires Increasing(keys) && |keys| > 0
    ensures Increasing(keys[1..]) && forall k | k in keys[1..] :: Before(keys[0], k)
  {
  }

  lemma {:induction false} InsertKeyIncreasing(keys: seq<string>, key: string)
    requires Increasing(keys) && key !in keys
    ensures Increasing(InsertKey(keys, key))
  {
    hide Increasing, Before;
    if |keys| == 0 {
      IncreasingOne(key);
    } else {
      IncreasingRest(keys);
      BeforeIsTotal(key, keys[0]);
      if Before(key, keys[0]) {
        forall k | k in keys ensures Before(key, k) {
          if k != keys[0] { BeforeChains(key, keys[0], k); }
        }
        IncreasingFront(key, keys);
      } else {
        InsertKeyIncreasing(keys[1..], key);
        InsertKeyMembers(keys[1..], key);
        IncreasingFront(keys[0], InsertKey(keys[1..], key));
      }
    }
  }

  lemma IncreasingOne(key: string)
    ensures Increasing([key])
  {
  }

  /** sort.Strings over the keys of a map. */
  method SortedKeys(keys: set<string>) returns (sorted: seq<string>)
    ensures Increasing(sorted) && forall k :: k in sorted <==> k in keys
  {
    hide Increasing, InsertKey;
    sorted := [];
    var left := keys;
    assert Increasing([]) by { NoKeys(); }
    while left != {}
      invariant left <= keys && Increasing(sorted)
      invariant forall k :: k in sorted <==> k in keys && k !in left
      decreases |left|
    {
      var key :| key in left;
      InsertKeyMembers(sorted, key);
      InsertKeyIncreasing(sorted, key);
      sorted := InsertKey(sorted, key);
      left := left - {key};
    }
  }

  lemma NoKeys()
    ensures Increasing([])
  {
  }

  // ---- by start time ----

  ghost predicate ByStart(es: seq<Capture>) { forall i, j | 0 <= i < j < |es| :: es[i].startedAt <= es[j].startedAt }

  function InsertByStart(es: seq<Capture>, e: Capture): seq<Capture> {
    if |es| == 0 then [e]
    else if e.startedAt < es[0].startedAt then [e] + es
    else [es[0]] + InsertByStart(es[1..], e)
  }

  function SortByStart(es: seq<Capture>): seq<Capture> {
    if |es| == 0 then [] else InsertByStart(SortByStart(es[..|es| - 1]), es[|es| - 1])
  }

  lemma {:induction false} InsertByStartAll(es: seq<Capture>, e: Capture)
    ensures multiset(InsertByStart(es, e)) == multiset(es) + multiset{e}
  {
    if |es| > 0 {
      InsertByStartAll(es[1..], e);
      assert es == [es[0]] + es[1..];
    }
  }

  lemma ByStartFront(first: Capture, rest: seq<Capture>)
    requires ByStart(rest) && forall e | e in rest :: first.startedAt <= e.startedAt
    ensures ByStart([first] + rest)
  {
  }

  lemma ByStartRest(es: seq<Capture>)
    requires ByStart(es) && |es| > 0
    ensures ByStart(es[1..]) && forall e | e in es :: es[0].startedAt <= e.startedAt
  {
  }

  lemma {:induction false} InsertByStartOrders(es: seq<Capture>, e: Capture)
    requires ByStart(es)
    ensures ByStart(InsertByStart(es, e))
  {
    hide ByStart;
    if |es| == 0 {
      NoCaptures();
      ByStartFront(e, []);
      assert [e] + [] == [e];
    } else {
      ByStartRest(es);
      if e.startedAt < es[0].startedAt {
        ByStartFront(e, es);
      } else {
        InsertByStartOrders(es[1..], e);
        InsertByStartAll(es[1..], e);
        forall x | x in InsertByStart(es[1..], e) ensures es[0].startedAt <= x.startedAt {
          assert x in multiset(InsertByStart(es[1..], e));
        }
        ByStartFront(es[0], InsertByStart(es[1..], e));
      }
    }
  }

  lemma NoCaptures()
    ensures ByStart([])
  {
  }

  lemma {:induction false} SortByStartCorrect(es: seq<Capture>)
    ensures ByStart(SortByStart(es)) && multiset(SortByStart(es)) == multiset(es)
  {
    hide ByStart, InsertByStart;
    if |es| == 0 {
      NoCaptures();
    } else {
      SortByStartCorrect(es[..|es| - 1]);
      InsertByStartAll(SortByStart(es[..|es| - 1]), es[|es| - 1]);
      InsertByStartOrders(SortByStart(es[..|es| - 1]), es[|es| - 1]);
      assert es == es[..|es| - 1] + [es[|es| - 1]];
    }
  }

  // ---- grouping ----

  function WithKey(es: seq<Capture>, key: string): seq<Capture> {
    if |es| == 0 then []
    else WithKey(es[..|es| - 1], key) + (if es[|es| - 1].key == key then [es[|es| - 1]] else [])
  }

  lemma {:induction false} WithKeyCounts(es: seq<Capture>, key: string)
    ensures forall e: Capture :: multiset(WithKey(es, key))[e] == if e.key == key then multiset(es)[e] else 0
  {
    if |es| > 0 {
      WithKeyCounts(es[..|es| - 1], key);
      assert es == es[..|es| - 1] + [es[|es| - 1]];
    }
  }

  ghost predicate KeysOf(es: seq<Capture>, keys: seq<string>) {
    Increasing(keys) && forall k :: k in keys <==> exists e :: e in es && e.key == k
  }

  function GroupsFor(es: seq<Capture>, keys: seq<string>): (r: seq<seq<Capture>>)
    ensures |r| == |keys|
  {
    seq(|keys|, i requires 0 <= i < |keys| => SortByStart(WithKey(es, keys[i])))
  }

  /** One group for each key that occurs, in the order of the keys, each by start time. */
  ghost predicate Grouping(es: seq<Capture>, result: seq<seq<Capture>>) {
    exists keys :: KeysOf(es, keys) && result == GroupsFor(es, keys)
  }

  // The map while the events are read.
  ghost predicate Collected(es: seq<Capture>, groups: map<string, seq<Capture>>) {
    && (forall k | k in groups :: groups[k] == WithKey(es, k))
    && (forall k :: k in groups <==> exists e :: e in es && e.key == k)
  }

  lemma CollectNext(es: seq<Capture>, groups: map<string, seq<Capture>>, e: Capture)
    requires Collected(es, groups)
    ensures Collected(es + [e], groups[e.key := (if e.key in groups then groups[e.key] else []) + [e]])
  {
    var n := groups[e.key := (if e.key in groups then groups[e.key] else []) + [e]];
    assert (es + [e])[..|es|] == es;
    forall k ensures k in n <==> exists x :: x in es + [e] && x.key == k {
      if k in groups {
        var x :| x in es && x.key == k;
        assert x in es + [e];
      }
      assert e in es + [e];
    }
    if e.key !in groups { NoneWithKey(es, e.key); }
  }

  lemma {:induction false} NoneWithKey(es: seq<Capture>, key: string)
    requires forall e | e in es :: e.key != key
    ensures WithKey(es, key) == []
  {
    if |es| > 0 {
      assert es[|es| - 1] in es;
      NoneWithKey(es[..|es| - 1], key);
    }
  }

  method GroupDeferredEvents(events: seq<Capture>) returns (result: seq<seq<Capture>>)
    ensures Grouping(events, result)
  {
    hide Collected, Increasing, WithKey, SortByStart;
    var groups: map<string, seq<Capture>> := map[];
    assert Collected([], groups) by { NothingCollected(); }
    for i := 0 to |events|
      invariant Collected(events[..i], groups)
    {
      assert events[..i + 1] == events[..i] + [events[i]];
      CollectNext(events[..i], groups, events[i]);
      var e := events[i];
      groups := groups[e.key := (if e.key in groups then groups[e.key] else []) + [e]];
    }
    assert events[..|events|] == events;
    var sorted := SortedKeys(groups.Keys);
    CollectedMeans(events, groups);
    result := [];
    for i := 0 to |sorted|
      invariant |result| == i && forall j | 0 <= j < i :: result[j] == SortByStart(WithKey(events, sorted[j]))
    {
      assert sorted[i] in sorted;
      result := result + [SortByStart(groups[sorted[i]])];
    }
    assert result == GroupsFor(events, sorted);
  }

  lemma NothingCollected()
    ensures Collected([], map[])
  {
  }

  lemma CollectedMeans(es: seq<Capture>, groups: map<string, seq<Capture>>)
    requires Collected(es, groups)
    ensures forall k | k in groups :: groups[k] == WithKey(es, k)
    ensures forall k :: k in groups <==> exists e :: e in es && e.key == k
  {
  }

  // ---- a partition ----

  function Ids(es: seq<Capture>): (r: seq<nat>)
    ensures |r| == |es| && forall i | 0 <= i < |es| :: r[i] == es[i].id
  {
    seq(|es|, i requires 0 <= i < |es| => es[i].id)
  }

  function IdGroups(groups: seq<seq<Capture>>): (r: seq<seq<nat>>)
    ensures |r| == |groups| && forall k | 0 <= k < |groups| :: r[k] == Ids(groups[k])
  {
    seq(|groups|, k requires 0 <= k < |groups| => Ids(groups[k]))
  }

  ghost predicate DistinctIds(es: seq<Capture>) { forall i, j | 0 <= i < j < |es| :: es[i].id != es[j].id }

  lemma GroupMembers(es: seq<Capture>, keys: seq<string>, k: nat)
    requires k < |keys|
    ensures var g := GroupsFor(es, keys)[k];
            ByStart(g) && (forall e: Capture :: multiset(g)[e] == if e.key == keys[k] then multiset(es)[e] else 0)
    ensures forall e :: e in GroupsFor(es, keys)[k] <==> e in es && e.key == keys[k]
  {
    hide ByStart;
    SortByStartCorrect(WithKey(es, keys[k]));
    WithKeyCounts(es, keys[k]);
    var g := GroupsFor(es, keys)[k];
    assert forall e :: e in g <==> e in multiset(g);
    assert forall e :: e in es <==> e in multiset(es);
  }

  lemma {:induction false} CountOnce(es: seq<Capture>, e: Capture)
    requires DistinctIds(es)
    ensures multiset(es)[e] <= 1
  {
    if |es| > 0 {
      CountOnce(es[1..], e);
      assert es == [es[0]] + es[1..];
      assert es[0] !in es[1..];
    }
  }

  lemma TwiceMeansTwo(g: seq<Capture>, i: nat, j: nat)
    requires i < j < |g| && g[i] == g[j]
    ensures multiset(g)[g[i]] >= 2
  {
    assert g == g[..j] + g[j..] && g[i] == g[..j][i] && g[j] == g[j..][0];
    assert g[i] in g[..j] && g[i] in g[j..];
    assert multiset(g) == multiset(g[..j]) + multiset(g[j..]);
  }

  lemma SameIdSame(es: seq<Capture>, a: Capture, b: Capture)
    requires DistinctIds(es) && a in es && b in es && a.id == b.id
    ensures a == b
  {
    var i :| 0 <= i < |es| && es[i] == a;
    var j :| 0 <= j < |es| && es[j] == b;
    assert i == j;
  }

  lemma GroupDistinct(es: seq<Capture>, keys: seq<string>, k: nat)
    requires DistinctIds(es) && k < |keys|
    ensures NoDuplicates(Ids(GroupsFor(es, keys)[k]))
  {
    hide DistinctIds, ByStart;
    var g := GroupsFor(es, keys)[k];
    GroupMembers(es, keys, k);
    forall i, j | 0 <= i < j < |g| ensures g[i].id != g[j].id {
      assert g[i] in g && g[j] in g;
      if g[i].id == g[j].id {
        SameIdSame(es, g[i], g[j]);
        TwiceMeansTwo(g, i, j);
        CountOnce(es, g[i]);
        assert false;
      }
    }
  }

  /** Every pending capture lands in exactly one group, with those of its key and no others, by start
      time: the result partitions the captures, which is what the worker pool's counting rests on. */
  lemma GroupsPartition(es: seq<Capture>, groups: seq<seq<Capture>>)
    requires DistinctIds(es) && Grouping(es, groups)
    ensures Partitions(IdGroups(groups), set e | e in es :: e.id)
    ensures forall k | 0 <= k < |groups| :: groups[k] != [] && ByStart(groups[k])
    ensures forall k, e | 0 <= k < |groups| && e in groups[k] :: e in es && e.key == groups[k][0].key
    ensures forall j, k | 0 <= j < k < |groups| && groups[j] != [] && groups[k] != [] :: Before(groups[j][0].key, groups[k][0].key)
  {
    hide DistinctIds, ByStart, GroupsFor, Partitions, KeysOf;
    var keys :| KeysOf(es, keys) && groups == GroupsFor(es, keys);
    KeyedPartition(es, keys);
    forall k | 0 <= k < |groups| ensures groups[k] != [] && ByStart(groups[k]) && groups[k][0].key == keys[k] {
      assert groups[k] != [] ==> groups[k][0] in groups[k];
    }
    KeysRise(es, keys);
  }

  lemma KeysRise(es: seq<Capture>, keys: seq<string>)
    requires KeysOf(es, keys)
    ensures forall j, k | 0 <= j < k < |keys| :: Before(keys[j], keys[k])
  {
  }

  lemma KeyedPartition(es: seq<Capture>, keys: seq<string>)
    requires DistinctIds(es) && KeysOf(es, keys)
    ensures Partitions(IdGroups(GroupsFor(es, keys)), set e | e in es :: e.id)
    ensures forall k | 0 <= k < |keys| :: GroupsFor(es, keys)[k] != [] && ByStart(GroupsFor(es, keys)[k])
    ensures forall k, e | 0 <= k < |keys| && e in GroupsFor(es, keys)[k] :: e in es && e.key == keys[k]
  {
    hide DistinctIds, ByStart, NoDuplicates, GroupsFor;
    var groups, ids := GroupsFor(es, keys), IdGroups(GroupsFor(es, keys));
    forall k | 0 <= k < |keys|
      ensures ByStart(groups[k]) && ids[k] != [] && NoDuplicates(ids[k])
      ensures forall e :: e in groups[k] <==> e in es && e.key == keys[k]
    {
      GroupMembers(es, keys, k);
      GroupDistinct(es, keys, k);
      assert keys[k] in keys;
      var e :| e in es && e.key == keys[k];
      assert e in groups[k];
    }
    forall j, k, id: nat | 0 <= j < k < |ids| ensures !(id in ids[j] && id in ids[k]) {
      if id in ids[j] && id in ids[k] {
        var a :| 0 <= a < |groups[j]| && groups[j][a].id == id;
        var b :| 0 <= b < |groups[k]| && groups[k][b].id == id;
        SameIdSame(es, groups[j][a], groups[k][b]);
        BeforeIsStrict(keys[j], keys[k]);
        assert false;
      }
    }
    GroupsCover(es, keys);
  }

  lemma GroupsCover(es: seq<Capture>, keys: seq<string>)
    requires KeysOf(es, keys)
    ensures forall id: nat :: id in (set e | e in es :: e.id) <==> Grouped(IdGroups(GroupsFor(es, keys)), id)
  {
    hide ByStart, GroupsFor, Increasing;
    var groups, ids := GroupsFor(es, keys), IdGroups(GroupsFor(es, keys));
    forall id: nat ensures id in (set e | e in es :: e.id) <==> Grouped(ids, id) {
      if id in (set e | e in es :: e.id) {
        var e :| e in es && e.id == id;
        assert e.key in keys;
        var k :| 0 <= k < |keys| && keys[k] == e.key;
        GroupMembers(es, keys, k);
        var a :| 0 <= a < |groups[k]| && groups[k][a] == e;
        assert ids[k][a] == id;
      }
      if Grouped(ids, id) {
        var k :| 0 <= k < |ids| && id in ids[k];
        GroupMembers(es, keys, k);
        var a :| 0 <= a < |groups[k]| && groups[k][a].id == id;
        assert groups[k][a] in es;
      }
    }
  }
}
