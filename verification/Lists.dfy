/**
 Keyed lists in canonical order. A list with duplicate keys means the map in which the last
 entry of each key wins; its canonical form lists that map in ascending key order.
 */
module Lists {

  // ---------- what a list means ----------

  /** Collecting into a map: of two entries with one key the last wins. */
  function LastWins<T>(v: seq<T>, key: T -> int): (m: map<int, T>) {
    if v == [] then map[] else
    var n := |v| - 1;
    LastWins(v[..n], key)[key(v[n]) := v[n]]
  }

  function FirstWins<T>(v: seq<T>, key: T -> int): (m: map<int, T>) {
    if v == [] then map[] else FirstWins(v[1..], key)[key(v[0]) := v[0]]
  }

  ghost predicate Ascending<T>(v: seq<T>, key: T -> int) {
    forall i, j :: 0 <= i < j < |v| ==> key(v[i]) < key(v[j])
  }

  ghost predicate NonDescending<T>(v: seq<T>, key: T -> int) {
    forall i, j :: 0 <= i < j < |v| ==> key(v[i]) <= key(v[j])
  }

  /** Every value sits under its own key. */
  ghost predicate Keyed<T>(m: map<int, T>, key: T -> int) {
    forall k :: k in m ==> key(m[k]) == k
  }

  /** Every entry of the list is the map's entry for its key. */
  ghost predicate Within<T>(v: seq<T>, m: map<int, T>, key: T -> int) {
    forall i :: 0 <= i < |v| ==> key(v[i]) in m && m[key(v[i])] == v[i]
  }

  /** Every key of the map is the key of some entry. */
  ghost predicate Covers<T>(v: seq<T>, m: map<int, T>, key: T -> int) {
    forall k :: k in m ==> exists i :: 0 <= i < |v| && key(v[i]) == k
  }

  /** The list is the map, entry for entry, in ascending order. */
  ghost predicate Lists<T>(v: seq<T>, m: map<int, T>, key: T -> int) {
    Ascending(v, key) && Keyed(m, key) && Within(v, m, key) && Covers(v, m, key)
  }

  function Least(s: set<int>): (k: int)
    requires s != {}
    ensures k in s && forall x :: x in s ==> k <= x
  {
    LeastExists(s);
    var k :| k in s && forall x :: x in s ==> k <= x;
    k
  }

  lemma SomeMember<T>(s: set<T>) returns (y: T)
    requires s != {}
    ensures y in s
  {
    y :| y in s;
  }

  lemma {:induction false} LeastExists(s: set<int>)
    requires s != {}
    ensures exists k :: k in s && forall x :: x in s ==> k <= x
  {
    var y := SomeMember(s);
    var rest := s - {y};
    if rest == {} {
      assert s == {y};
    } else {
      LeastExists(rest);
      var k :| k in rest && forall x :: x in rest ==> k <= x;
      var low := if k < y then k else y;
      assert low in s && forall x :: x in s ==> low <= x by {
        forall x | x in s
          ensures low <= x
        {
          if x != y { assert x in rest; }
        }
      }
    }
  }

  /** The map's values in ascending key order. */
  function Values<T>(m: map<int, T>): (v: seq<T>)
    decreases |m.Keys|
  {
    if m == map[] then [] else
    var k := Least(m.Keys);
    SmallerWithout(m, k);
    [m[k]] + Values(m - {k})
  }

  lemma SmallerWithout<T>(m: map<int, T>, k: int)
    requires k in m
    ensures |(m - {k}).Keys| < |m.Keys|
  {
    assert (m - {k}).Keys == m.Keys - {k};
  }

  lemma {:induction false} ValuesList<T>(m: map<int, T>, key: T -> int)
    requires Keyed(m, key)
    ensures Lists(Values(m), m, key)
    decreases |m.Keys|
  {
    if m != map[] {
      var k := Least(m.Keys);
      var tail := m - {k};
      SmallerWithout(m, k);
      ValuesList(tail, key);
      ConsLists(Values(tail), tail, k, m, key);
    }
  }

  lemma ConsLists<T>(v: seq<T>, tail: map<int, T>, k: int, m: map<int, T>, key: T -> int)
    requires k in m && (forall x :: x in m ==> k <= x) && tail == m - {k}
    requires Keyed(m, key) && Lists(v, tail, key)
    ensures Lists([m[k]] + v, m, key)
  {
    var w := [m[k]] + v;
    assert forall i :: 0 < i < |w| ==> w[i] == v[i - 1] && key(w[i]) in tail;
    ConsCovers(v, tail, k, m, key);
  }

  lemma ConsCovers<T>(v: seq<T>, tail: map<int, T>, k: int, m: map<int, T>, key: T -> int)
    requires k in m && key(m[k]) == k && tail == m - {k} && Covers(v, tail, key)
    ensures Covers([m[k]] + v, m, key)
  {
    var w := [m[k]] + v;
    forall x | x in m
      ensures exists i :: 0 <= i < |w| && key(w[i]) == x
    {
      if x == k {
        assert key(w[0]) == x;
      } else {
        assert x in tail;
        var i :| 0 <= i < |v| && key(v[i]) == x;
        assert key(w[i + 1]) == x;
      }
    }
  }

  /** There is only one way to list a map. */
  lemma {:induction false} ListedOnce<T>(v: seq<T>, w: seq<T>, m: map<int, T>, key: T -> int)
    requires Lists(v, m, key) && Lists(w, m, key)
    ensures v == w
    decreases |v|
  {
    if v == [] || w == [] {
      EmptyTogether(v, m, key);
      EmptyTogether(w, m, key);
    } else {
      SameHead(v, w, m, key);
      var k := key(v[0]);
      TailLists(v, m, key);
      TailLists(w, m, key);
      ListedOnce(v[1..], w[1..], m - {k}, key);
      assert v == [v[0]] + v[1..] && w == [w[0]] + w[1..];
    }
  }

  lemma EmptyTogether<T>(v: seq<T>, m: map<int, T>, key: T -> int)
    requires Lists(v, m, key)
    ensures v == [] <==> m == map[]
  {
    if v == [] {
      assert forall k :: k !in m;
    } else {
      assert key(v[0]) in m;
    }
  }

  lemma SameHead<T>(v: seq<T>, w: seq<T>, m: map<int, T>, key: T -> int)
    requires Lists(v, m, key) && Lists(w, m, key)
    requires v != [] && w != []
    ensures v[0] == w[0]
  {
    var i :| 0 <= i < |v| && key(v[i]) == key(w[0]);
    var j :| 0 <= j < |w| && key(w[j]) == key(v[0]);
  }

  lemma TailLists<T>(v: seq<T>, m: map<int, T>, key: T -> int)
    requires Lists(v, m, key) && v != []
    ensures Lists(v[1..], m - {key(v[0])}, key)
  {
    var k := key(v[0]);
    forall x | x in m - {k}
      ensures exists i :: 0 <= i < |v[1..]| && key(v[1..][i]) == x
    {
      var i :| 0 <= i < |v| && key(v[i]) == x;
      assert key(v[1..][i - 1]) == x;
    }
  }

  /** An ascending list means exactly its own entries. */
  lemma {:induction false} AscendingLists<T>(v: seq<T>, key: T -> int)
    requires Ascending(v, key)
    ensures Lists(v, LastWins(v, key), key)
  {
    if v != [] {
      var n := |v| - 1;
      AscendingLists(v[..n], key);
      var m := LastWins(v[..n], key);
      forall x | x in LastWins(v, key)
        ensures exists i :: 0 <= i < |v| && key(v[i]) == x
      {
        if x == key(v[n]) {
        } else {
          var i :| 0 <= i < n && key(v[..n][i]) == x;
          assert key(v[i]) == x;
        }
      }
      assert forall i :: 0 <= i < n ==> v[..n][i] == v[i];
    }
  }

  lemma {:induction false} LastWinsKeyed<T>(v: seq<T>, key: T -> int)
    ensures Keyed(LastWins(v, key), key)
  {
    if v != [] {
      LastWinsKeyed(v[..|v| - 1], key);
    }
  }

  lemma SameMap<T>(v: seq<T>, m: map<int, T>, n: map<int, T>, key: T -> int)
    requires Within(v, m, key) && Covers(v, m, key) && Within(v, n, key) && Covers(v, n, key)
    ensures m == n
  {
    forall k
      ensures k in m <==> k in n
      ensures k in m && k in n ==> m[k] == n[k]
    {
      if k in m {
        var i :| 0 <= i < |v| && key(v[i]) == k;
      }
      if k in n {
        var i :| 0 <= i < |v| && key(v[i]) == k;
      }
    }
  }

  /** The canonical form of a list. */
  function Canonical<T>(v: seq<T>, key: T -> int): seq<T> {
    Values(LastWins(v, key))
  }

  /** A map listed in order and collected again is the same map. */
  lemma ValuesRoundTrip<T>(m: map<int, T>, key: T -> int)
    requires Keyed(m, key)
    ensures LastWins(Values(m), key) == m
  {
    ValuesList(m, key);
    AscendingLists(Values(m), key);
    SameMap(Values(m), m, LastWins(Values(m), key), key);
  }

  /** Normalising changes no meaning, and lists with one meaning have one normal form. */
  lemma CanonicalIffSameMeaning<T>(v: seq<T>, w: seq<T>, key: T -> int)
    ensures LastWins(Canonical(v, key), key) == LastWins(v, key)
    ensures Canonical(v, key) == Canonical(w, key) <==> LastWins(v, key) == LastWins(w, key)
    ensures Canonical(Canonical(v, key), key) == Canonical(v, key)
    ensures Ascending(v, key) <==> Canonical(v, key) == v
  {
    LastWinsKeyed(v, key);
    LastWinsKeyed(w, key);
    ValuesRoundTrip(LastWins(v, key), key);
    ValuesRoundTrip(LastWins(w, key), key);
    ValuesList(LastWins(v, key), key);
    if Ascending(v, key) {
      AscendingLists(v, key);
      ListedOnce(v, Canonical(v, key), LastWins(v, key), key);
    }
  }

  // ---------- reverse, stable sort, drop repeats ----------

  /** Put `x` before the first entry whose key is not smaller. */
  function Insert<T>(x: T, v: seq<T>, key: T -> int): seq<T> {
    if v == [] || key(x) <= key(v[0]) then [x] + v else [v[0]] + Insert(x, v[1..], key)
  }

  /** The library's stable sort. */
  function StableSort<T>(v: seq<T>, key: T -> int): seq<T> {
    if v == [] then [] else Insert(v[0], StableSort(v[1..], key), key)
  }

  lemma {:induction false} InsertOrders<T>(x: T, v: seq<T>, key: T -> int, low: int)
    requires NonDescending(v, key)
    requires low <= key(x) && forall i :: 0 <= i < |v| ==> low <= key(v[i])
    ensures NonDescending(Insert(x, v, key), key)
    ensures forall i :: 0 <= i < |Insert(x, v, key)| ==> low <= key(Insert(x, v, key)[i])
  {
    if !(v == [] || key(x) <= key(v[0])) {
      InsertOrders(x, v[1..], key, key(v[0]));
    }
  }

  lemma {:induction false} InsertKeepsFirst<T>(x: T, v: seq<T>, key: T -> int)
    ensures FirstWins(Insert(x, v, key), key) == FirstWins(v, key)[key(x) := x]
  {
    if v == [] || key(x) <= key(v[0]) {
      assert ([x] + v)[1..] == v;
    } else {
      InsertKeepsFirst(x, v[1..], key);
      assert ([v[0]] + Insert(x, v[1..], key))[1..] == Insert(x, v[1..], key);
    }
  }

  /** Sorting keeps the first entry of each key first. */
  lemma {:induction false} StableSortKeeps<T>(v: seq<T>, key: T -> int)
    ensures NonDescending(StableSort(v, key), key)
    ensures FirstWins(StableSort(v, key), key) == FirstWins(v, key)
  {
    if v != [] {
      StableSortKeeps(v[1..], key);
      var s := StableSort(v[1..], key);
      var low := if s == [] || key(v[0]) <= key(s[0]) then key(v[0]) else key(s[0]);
      InsertOrders(v[0], s, key, low);
      InsertKeepsFirst(v[0], s, key);
    }
  }

  function Reversed<T>(v: seq<T>): seq<T> {
    if v == [] then [] else [v[|v| - 1]] + Reversed(v[..|v| - 1])
  }

  lemma {:induction false} ReversedSwapsWinners<T>(v: seq<T>, key: T -> int)
    ensures FirstWins(Reversed(v), key) == LastWins(v, key)
  {
    if v != [] {
      ReversedSwapsWinners(v[..|v| - 1], key);
      assert Reversed(v)[1..] == Reversed(v[..|v| - 1]);
    }
  }

  lemma {:induction false} FirstWinsExtends<T>(v: seq<T>, x: T, key: T -> int)
    ensures FirstWins(v + [x], key) ==
            if key(x) in FirstWins(v, key) then FirstWins(v, key) else FirstWins(v, key)[key(x) := x]
  {
    if v == [] {
      assert v + [x] == [x] && [x][1..] == [];
    } else {
      FirstWinsExtends(v[1..], x, key);
      assert (v + [x])[1..] == v[1..] + [x] && (v + [x])[0] == v[0];
    }
  }

  /** Ascending keys, each once, with the entry that stood last in the list. */
  method KeepLastSorted<T>(v: seq<T>, key: T -> int) returns (r: seq<T>)
    ensures r == Canonical(v, key)
  {
    var rev: seq<T> := [];
    var i := |v|;
    assert v[..i] == v;
    while i > 0
      invariant 0 <= i <= |v|
      invariant rev + Reversed(v[..i]) == Reversed(v)
    {
      i := i - 1;
      assert v[..i + 1][..i] == v[..i];
      rev := rev + [v[i]];
    }
    assert rev == Reversed(v);
    var s := StableSort(rev, key);
    StableSortKeeps(rev, key);
    ReversedSwapsWinners(v, key);
    r := DropRepeats(s, key);
    LastWinsKeyed(v, key);
    ValuesList(LastWins(v, key), key);
    ListedOnce(r, Canonical(v, key), LastWins(v, key), key);
  }

  /** Dropping repeats from a sorted list: the first of each run of equal keys stays. */
  method DropRepeats<T>(s: seq<T>, key: T -> int) returns (r: seq<T>)
    requires NonDescending(s, key)
    ensures Lists(r, FirstWins(s, key), key)
  {
    r := [];
    var i := 0;
    while i < |s|
      invariant 0 <= i <= |s|
      invariant Lists(r, FirstWins(s[..i], key), key)
      invariant i > 0 ==> r != [] && key(r[|r| - 1]) == key(s[i - 1])
      invariant i == 0 ==> r == []
    {
      FirstWinsExtends(s[..i], s[i], key);
      assert s[..i] + [s[i]] == s[..i + 1];
      if r == [] || key(r[|r| - 1]) != key(s[i]) {
        SnocLists(r, FirstWins(s[..i], key), s[i], key);
        r := r + [s[i]];
      } else {
        assert key(r[|r| - 1]) in FirstWins(s[..i], key);
      }
      i := i + 1;
    }
    assert s[..i] == s;
  }

  lemma SnocLists<T>(v: seq<T>, m: map<int, T>, x: T, key: T -> int)
    requires Lists(v, m, key) && (v != [] ==> key(v[|v| - 1]) < key(x))
    ensures key(x) !in m && Lists(v + [x], m[key(x) := x], key)
  {
    var w, n := v + [x], m[key(x) := x];
    forall k | k in m
      ensures k < key(x)
    {
      var i :| 0 <= i < |v| && key(v[i]) == k;
    }
    forall k | k in n
      ensures exists i :: 0 <= i < |w| && key(w[i]) == k
    {
      if k == key(x) {
        assert key(w[|v|]) == k;
      } else {
        var i :| 0 <= i < |v| && key(v[i]) == k;
        assert key(w[i]) == k;
      }
    }
  }

  // ---------- keys that determine their entry ----------

  ghost predicate Determined<T>(v: seq<T>, key: T -> int) {
    forall i, j :: 0 <= i < |v| && 0 <= j < |v| && key(v[i]) == key(v[j]) ==> v[i] == v[j]
  }

  lemma {:induction false} LastWinsDetermined<T>(v: seq<T>, key: T -> int)
    requires Determined(v, key)
    ensures Within(v, LastWins(v, key), key) && Covers(v, LastWins(v, key), key)
  {
    if v != [] {
      var n := |v| - 1;
      var w := v[..n];
      assert forall i :: 0 <= i < n ==> w[i] == v[i];
      LastWinsDetermined(w, key);
      forall k | k in LastWins(v, key)
        ensures exists i :: 0 <= i < |v| && key(v[i]) == k
      {
        if k != key(v[n]) {
          var i :| 0 <= i < n && key(w[i]) == k;
          assert key(v[i]) == k;
        }
      }
      forall i | 0 <= i < |v|
        ensures key(v[i]) in LastWins(v, key) && LastWins(v, key)[key(v[i])] == v[i]
      {
        if i < n { assert key(w[i]) in LastWins(w, key); }
      }
    }
  }

  lemma {:induction false} FirstWinsDetermined<T>(v: seq<T>, key: T -> int)
    requires Determined(v, key)
    ensures Within(v, FirstWins(v, key), key) && Covers(v, FirstWins(v, key), key)
  {
    if v != [] {
      var w := v[1..];
      assert forall i :: 0 < i < |v| ==> w[i - 1] == v[i];
      FirstWinsDetermined(w, key);
      forall k | k in FirstWins(v, key)
        ensures exists i :: 0 <= i < |v| && key(v[i]) == k
      {
        if k != key(v[0]) {
          var i :| 0 <= i < |w| && key(w[i]) == k;
          assert key(v[i + 1]) == k;
        }
      }
      forall i | 0 <= i < |v|
        ensures key(v[i]) in FirstWins(v, key) && FirstWins(v, key)[key(v[i])] == v[i]
      {
        if i > 0 { assert key(w[i - 1]) in FirstWins(w, key); }
      }
    }
  }

  /** Where the key is the whole entry, which duplicate is kept makes no difference. */
  method SortedDistinct<T>(v: seq<T>, key: T -> int) returns (r: seq<T>)
    requires Determined(v, key)
    ensures r == Canonical(v, key)
  {
    var s := StableSort(v, key);
    StableSortKeeps(v, key);
    r := DropRepeats(s, key);
    FirstWinsDetermined(v, key);
    LastWinsDetermined(v, key);
    SameMap(v, FirstWins(v, key), LastWins(v, key), key);
    LastWinsKeyed(v, key);
    ValuesList(LastWins(v, key), key);
    ListedOnce(r, Canonical(v, key), LastWins(v, key), key);
  }

  // ---------- the difference of two lists, and patching a list ----------

  /** What `new` maps differently from `old`, listed in order. */
  function Changed<T(==)>(was: map<int, T>, now: map<int, T>): seq<T> {
    Values(map k | k in now && (k !in was || was[k] != now[k]) :: now[k])
  }

  /** The keys `new` lost, in order. */
  function Removed<T>(was: map<int, T>, now: map<int, T>): seq<int> {
    Values(map k | k in was && k !in now :: k)
  }

  /** Drop the removed keys, then insert every changed entry in turn. */
  function Patched<T>(m: map<int, T>, removed: seq<int>, changed: seq<T>, key: T -> int): map<int, T> {
    (m - (set k | k in removed)) + LastWins(changed, key)
  }

  lemma {:induction false} RemovedIs<T>(was: map<int, T>, now: map<int, T>)
    ensures (set k | k in Removed(was, now)) == was.Keys - now.Keys
  {
    var m := map k | k in was && k !in now :: k;
    var id := (k: int) => k;
    ValuesList(m, id);
    forall k
      ensures k in Values(m) <==> k in m
    {
      if k in m {
        var i :| 0 <= i < |Values(m)| && id(Values(m)[i]) == k;
      }
      if k in Values(m) {
        var i :| 0 <= i < |Values(m)| && Values(m)[i] == k;
        assert id(Values(m)[i]) in m;
      }
    }
  }

  /** A difference names exactly the keys that are gone, and lists exactly the entries that are not what they were. */
  lemma ChangedAre<T>(was: map<int, T>, now: map<int, T>, k: int, key: T -> int)
    requires Keyed(now, key)
    ensures k in Removed(was, now) <==> k in was && k !in now
    ensures (exists x <- Changed(was, now) :: key(x) == k) <==> k in now && (k !in was || was[k] != now[k])
  {
    RemovedIs(was, now);
    var gone := set k | k in Removed(was, now);
    assert k in Removed(was, now) <==> k in gone;
    assert gone == was.Keys - now.Keys;
    var m := map x | x in now && (x !in was || was[x] != now[x]) :: now[x];
    ValuesList(m, key);
    assert Changed(was, now) == Values(m);
    if k in m {
      var i :| 0 <= i < |Values(m)| && key(Values(m)[i]) == k;
      assert Values(m)[i] in Values(m);
    }
    if x :| x in Values(m) && key(x) == k {
      var i :| 0 <= i < |Values(m)| && Values(m)[i] == x;
      assert key(Values(m)[i]) in m;
    }
  }

  /** Patching with the difference gives the new map. */
  lemma DifferencePatches<T>(was: map<int, T>, now: map<int, T>, key: T -> int)
    requires Keyed(now, key)
    ensures Patched(was, Removed(was, now), Changed(was, now), key) == now
  {
    RemovedIs(was, now);
    var m := map k | k in now && (k !in was || was[k] != now[k]) :: now[k];
    ValuesRoundTrip(m, key);
  }

  /** The in-place patch: one removal or insertion at a time, then the values in order. */
  method Patch<T>(v: seq<T>, removed: seq<int>, changed: seq<T>, key: T -> int) returns (r: seq<T>)
    ensures r == Values(Patched(LastWins(v, key), removed, changed, key))
  {
    var m := LastWins(v, key);
    var i := 0;
    while i < |removed|
      invariant 0 <= i <= |removed|
      invariant m == LastWins(v, key) - (set k | k in removed[..i])
    {
      m := m - {removed[i]};
      i := i + 1;
    }
    assert removed[..i] == removed;
    ghost var base := m;
    i := 0;
    while i < |changed|
      invariant 0 <= i <= |changed|
      invariant m == base + LastWins(changed[..i], key)
    {
      assert changed[..i + 1][..i] == changed[..i];
      m := m[key(changed[i]) := changed[i]];
      i := i + 1;
    }
    assert changed[..i] == changed;
    r := Values(m);
  }
}
