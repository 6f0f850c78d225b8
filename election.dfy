/**
 * `findMax` of src/index.ts: sort the servers by block height, highest
 * first (an absent height counts as 0), then take the leading run of
 * servers whose height equals the first one's.
 *
 * The sort and the run are specified on snapshots: a `Cand` pairs a server
 * with the height it holds while findMax runs (findMax changes no server).
 */
module Election {
  import opened Results
  import opened Backend

  /** A server together with its current height. */
  datatype Cand = Cand(server: Server, height: Option<nat>)

  /** The heights of `s`, read from the heap. */
  function Snap(s: seq<Server>): (c: seq<Cand>)
    reads s
    ensures |c| == |s|
    ensures forall i :: 0 <= i < |s| ==> c[i] == Cand(s[i], s[i].height)
  {
    if s == [] then [] else [Cand(s[0], s[0].height)] + Snap(s[1..])
  }

  /** The servers of a snapshot. */
  function ServersOf(c: seq<Cand>): (s: seq<Server>)
    ensures |s| == |c|
    ensures forall i :: 0 <= i < |c| ==> s[i] == c[i].server
  {
    if c == [] then [] else [c[0].server] + ServersOf(c[1..])
  }

  /** The sort key `blockHeight || 0`. */
  function Key(c: Cand): nat {
    c.height.GetOr(0)
  }

  ghost predicate SortedDesc(r: seq<Cand>) {
    forall i, j :: 0 <= i < j < |r| ==> Key(r[i]) >= Key(r[j])
  }

  /**
   * Inserts `x` into `t`, placing it before every element whose key is not
   * larger; `x` came before all of `t` in the input, so equal keys keep
   * their input order.
   */
  function Insert(x: Cand, t: seq<Cand>): (r: seq<Cand>)
    ensures |r| == |t| + 1
  {
    if t == [] || Key(t[0]) <= Key(x) then [x] + t
    else [t[0]] + Insert(x, t[1..])
  }

  /**
   * The stable descending sort that `arr.sort((a, b) => (b.blockHeight || 0)
   * - (a.blockHeight || 0))` performs (Array.prototype.sort is stable).
   */
  function SortDesc(s: seq<Cand>): (r: seq<Cand>)
    ensures |r| == |s|
  {
    if s == [] then [] else Insert(s[0], SortDesc(s[1..]))
  }

  /** The longest prefix of `r` whose elements all have height `h`. */
  function LeadingRun(r: seq<Cand>, h: Option<nat>): (run: seq<Cand>)
    ensures run <= r
  {
    if r == [] || r[0].height != h then [] else [r[0]] + LeadingRun(r[1..], h)
  }

  /**
   * What `findMax` returns on a non-empty list: a non-empty prefix of the
   * sorted list.
   */
  function Fastest(s: seq<Cand>): (r: seq<Cand>)
    requires s != []
    ensures r != [] && r <= SortDesc(s)
  {
    var sorted := SortDesc(s);
    LeadingRun(sorted, sorted[0].height)
  }

  /** The largest key in a non-empty list. */
  function MaxKey(s: seq<Cand>): (m: nat)
    requires s != []
    ensures forall i :: 0 <= i < |s| ==> Key(s[i]) <= m
    ensures exists i :: 0 <= i < |s| && Key(s[i]) == m
  {
    if |s| == 1 then Key(s[0])
    else
      var rest := MaxKey(s[1..]);
      assert forall i :: 1 <= i < |s| ==> s[i] == s[1..][i - 1];
      if Key(s[0]) >= rest then Key(s[0]) else rest
  }

  /** The candidates of `s` whose key is `k`, in input order. */
  function WithKey(s: seq<Cand>, k: nat): (r: seq<Cand>)
    ensures forall i :: 0 <= i < |r| ==> r[i] in s && Key(r[i]) == k
  {
    if s == [] then []
    else if Key(s[0]) == k then [s[0]] + WithKey(s[1..], k)
    else WithKey(s[1..], k)
  }

  /** The candidates of `s` whose key is not `k`, in input order. */
  function WithoutKey(s: seq<Cand>, k: nat): (r: seq<Cand>)
    ensures forall i :: 0 <= i < |r| ==> r[i] in s && Key(r[i]) != k
  {
    if s == [] then []
    else if Key(s[0]) != k then [s[0]] + WithoutKey(s[1..], k)
    else WithoutKey(s[1..], k)
  }

  /** The candidates of `s` whose height is exactly `h`, in input order. */
  function AtHeight(s: seq<Cand>, h: Option<nat>): (r: seq<Cand>)
    ensures forall i :: 0 <= i < |r| ==> r[i] in s && r[i].height == h
    ensures forall i :: 0 <= i < |s| && s[i].height == h ==> s[i] in r
  {
    if s == [] then []
    else if s[0].height == h then [s[0]] + AtHeight(s[1..], h)
    else AtHeight(s[1..], h)
  }

  /** The first candidate at height `h` has none at that height before it. */
  lemma {:induction false} FirstAtHeight(s: seq<Cand>, h: Option<nat>)
    requires AtHeight(s, h) != []
    ensures exists m :: 0 <= m < |s| && s[m] == AtHeight(s, h)[0] && forall j :: 0 <= j < m ==> s[j].height != h
  {
    if s[0].height != h {
      FirstAtHeight(s[1..], h);
      var m :| 0 <= m < |s[1..]| && s[1..][m] == AtHeight(s[1..], h)[0] && forall j :: 0 <= j < m ==> s[1..][j].height != h;
      assert s[m + 1] == s[1..][m];
      forall j | 0 <= j < m + 1 ensures s[j].height != h {
        if j > 0 { assert s[j] == s[1..][j - 1]; }
      }
    }
  }

  ghost predicate AllMeasured(s: seq<Cand>) {
    forall i :: 0 <= i < |s| ==> s[i].height.Some?
  }

  // ---------------------------------------------------------------------
  // The sort

  /** Insert adds `x` and loses nothing. */
  lemma {:induction false} InsertPerm(x: Cand, t: seq<Cand>)
    ensures multiset(Insert(x, t)) == multiset([x] + t)
  {
    if t != [] && Key(t[0]) > Key(x) {
      InsertPerm(x, t[1..]);
      assert t == [t[0]] + t[1..];
    }
  }

  /** The sort is a permutation of its input. */
  lemma {:induction false} SortDescPerm(s: seq<Cand>)
    ensures multiset(SortDesc(s)) == multiset(s)
  {
    if s != [] {
      SortDescPerm(s[1..]);
      InsertPerm(s[0], SortDesc(s[1..]));
      assert s == [s[0]] + s[1..];
    }
  }

  /** Inserting into a sorted list keeps it sorted. */
  lemma {:induction false} InsertSorted(x: Cand, t: seq<Cand>)
    requires SortedDesc(t)
    ensures SortedDesc(Insert(x, t))
  {
    if t == [] || Key(t[0]) <= Key(x) {
    } else {
      InsertSorted(x, t[1..]);
      var r := Insert(x, t[1..]);
      InsertPerm(x, t[1..]);
      forall j | 0 <= j < |r| ensures Key(t[0]) >= Key(r[j]) {
        assert r[j] in multiset(r);
        assert r[j] in multiset([x] + t[1..]);
        if r[j] != x {
          var k :| 0 <= k < |t[1..]| && t[1..][k] == r[j];
          assert t[k + 1] == r[j];
        }
      }
    }
  }

  /** The sort orders by descending key; its contract makes it a permutation. */
  lemma {:induction false} SortDescSorted(s: seq<Cand>)
    ensures SortedDesc(SortDesc(s))
    ensures multiset(SortDesc(s)) == multiset(s)
  {
    SortDescPerm(s);
    if s != [] {
      SortDescSorted(s[1..]);
      InsertSorted(s[0], SortDesc(s[1..]));
    }
  }

  /** Where Insert puts `x`: after the first `m` elements, which all have larger keys. */
  lemma {:induction false} InsertAt(x: Cand, t: seq<Cand>, m: nat)
    requires m <= |t|
    requires forall k :: 0 <= k < m ==> Key(t[k]) > Key(x)
    requires m == |t| || Key(t[m]) <= Key(x)
    ensures Insert(x, t) == t[..m] + [x] + t[m..]
  {
    if m > 0 {
      InsertAt(x, t[1..], m - 1);
      assert t[1..][..m - 1] == t[1..m];
      assert t[1..][m - 1..] == t[m..];
      assert t[..m] == [t[0]] + t[1..m];
    }
  }

  /** Inserting past a block of strictly larger keys. */
  lemma {:induction false} InsertPast(x: Cand, a: seq<Cand>, b: seq<Cand>)
    requires forall k :: 0 <= k < |a| ==> Key(a[k]) > Key(x)
    ensures Insert(x, a + b) == a + Insert(x, b)
  {
    if a != [] {
      var ab := a + b;
      assert ab != [] && ab[0] == a[0] && Key(ab[0]) > Key(x);
      assert Insert(x, ab) == [a[0]] + Insert(x, ab[1..]);
      assert ab[1..] == a[1..] + b;
      InsertPast(x, a[1..], b);
      assert a == [a[0]] + a[1..];
    } else {
      assert a + b == b;
    }
  }

  /**
   * Stability at the top: when no key exceeds `k`, the sort puts the
   * candidates with key `k` first, in their input order.
   */
  lemma {:induction false} SortSplit(s: seq<Cand>, k: nat)
    requires forall i :: 0 <= i < |s| ==> Key(s[i]) <= k
    ensures SortDesc(s) == WithKey(s, k) + SortDesc(WithoutKey(s, k))
  {
    if s != [] {
      var x, t := s[0], s[1..];
      assert forall i :: 0 <= i < |t| ==> Key(t[i]) <= k by {
        forall i | 0 <= i < |t| ensures Key(t[i]) <= k {
          assert t[i] == s[i + 1];
        }
      }
      SortSplit(t, k);
      assert SortDesc(s) == Insert(x, WithKey(t, k) + SortDesc(WithoutKey(t, k)));
      if Key(x) == k {
        SplitTop(x, t, k);
      } else {
        InsertPast(x, WithKey(t, k), SortDesc(WithoutKey(t, k)));
        assert WithoutKey(s, k)[1..] == WithoutKey(t, k);
      }
    }
  }

  /** The step of SortSplit where the inserted candidate is at the top key. */
  lemma SplitTop(x: Cand, t: seq<Cand>, k: nat)
    requires Key(x) == k
    requires forall i :: 0 <= i < |t| ==> Key(t[i]) <= k
    ensures Insert(x, WithKey(t, k) + SortDesc(WithoutKey(t, k))) ==
      WithKey([x] + t, k) + SortDesc(WithoutKey([x] + t, k))
  {
    var a, b := WithKey(t, k), SortDesc(WithoutKey(t, k));
    assert ([x] + t)[1..] == t;
    SortedBelow(WithoutKey(t, k), k);
    var ab := a + b;
    if ab != [] {
      if a == [] {
        assert ab[0] == b[0];
      } else {
        assert ab[0] == a[0];
      }
    }
    assert Insert(x, ab) == [x] + ab;
  }

  /** If no key of `s` exceeds `k`, neither does the first key of its sort. */
  lemma SortedBelow(s: seq<Cand>, k: nat)
    requires forall i :: 0 <= i < |s| ==> Key(s[i]) <= k
    ensures SortDesc(s) != [] ==> Key(SortDesc(s)[0]) <= k
  {
    if SortDesc(s) != [] {
      SortDescPerm(s);
      var y := SortDesc(s)[0];
      assert y in multiset(SortDesc(s));
      assert y in multiset(s);
      var i :| 0 <= i < |s| && s[i] == y;
    }
  }

  // ---------------------------------------------------------------------
  // The leading run

  /** A run that cannot continue into `b` stays inside `a`. */
  lemma {:induction false} LeadingRunPrefix(a: seq<Cand>, b: seq<Cand>, h: Option<nat>)
    requires b != [] ==> b[0].height != h
    ensures LeadingRun(a + b, h) <= a
  {
    if a == [] {
      assert a + b == b;
    } else {
      assert (a + b)[0] == a[0];
      assert (a + b)[1..] == a[1..] + b;
      if a[0].height == h {
        LeadingRunPrefix(a[1..], b, h);
        assert a == [a[0]] + a[1..];
      }
    }
  }

  /** A run over a block of equal heights followed by a different one. */
  lemma {:induction false} LeadingRunWhole(a: seq<Cand>, b: seq<Cand>, h: Option<nat>)
    requires forall i :: 0 <= i < |a| ==> a[i].height == h
    requires b != [] ==> b[0].height != h
    ensures LeadingRun(a + b, h) == a
  {
    if a == [] {
      assert a + b == b;
    } else {
      assert (a + b)[0] == a[0];
      assert (a + b)[1..] == a[1..] + b;
      LeadingRunWhole(a[1..], b, h);
      assert a == [a[0]] + a[1..];
    }
  }

  /** The run of a prefix `r[..i]` of equal heights that `r[i]` breaks. */
  lemma LeadingRunIs(r: seq<Cand>, i: nat, h: Option<nat>)
    requires i <= |r|
    requires forall k :: 0 <= k < i ==> r[k].height == h
    requires i == |r| || r[i].height != h
    ensures LeadingRun(r, h) == r[..i]
  {
    assert r == r[..i] + r[i..];
    LeadingRunWhole(r[..i], r[i..], h);
  }

  /** On measured candidates the key is the height. */
  lemma {:induction false} AtHeightIsWithKey(s: seq<Cand>, k: nat)
    requires AllMeasured(s)
    ensures AtHeight(s, Some(k)) == WithKey(s, k)
  {
    if s != [] {
      assert forall i :: 0 <= i < |s[1..]| ==> s[1..][i] == s[i + 1];
      AtHeightIsWithKey(s[1..], k);
    }
  }

  lemma {:induction false} WithKeyHas(s: seq<Cand>, k: nat, i: nat)
    requires i < |s| && Key(s[i]) == k
    ensures WithKey(s, k) != []
  {
    if i > 0 && Key(s[0]) != k {
      assert s[1..][i - 1] == s[i];
      WithKeyHas(s[1..], k, i - 1);
    }
  }

  // ---------------------------------------------------------------------
  // What findMax returns

  /**
   * findMax on a non-empty list returns a non-empty prefix of the
   * candidates with the maximum key, taken in input order; all of them have
   * the first one's height.
   */
  lemma FastestShape(s: seq<Cand>)
    requires s != []
    ensures Fastest(s) != []
    ensures Fastest(s) <= WithKey(s, MaxKey(s))
    ensures forall i :: 0 <= i < |Fastest(s)| ==>
      Fastest(s)[i] in s && Key(Fastest(s)[i]) == MaxKey(s) && Fastest(s)[i].height == Fastest(s)[0].height
  {
    var m := MaxKey(s);
    SortSplit(s, m);
    var i0 :| 0 <= i0 < |s| && Key(s[i0]) == m;
    WithKeyHas(s, m, i0);
    var a, b := WithKey(s, m), SortDesc(WithoutKey(s, m));
    var h := a[0].height;
    assert SortDesc(s)[0] == a[0];
    if b != [] {
      RestOffKey(s, m);
    }
    LeadingRunPrefix(a, b, h);
    assert (a + b)[0] == a[0];
    var f := Fastest(s);
    assert f == LeadingRun(a + b, h);
    assert f != [];
    forall i | 0 <= i < |f|
      ensures f[i] in s && Key(f[i]) == m && f[i].height == f[0].height
    {
      assert f[i] == a[i];
      assert f[0] == a[0];
      LeadingRunHeights(a + b, h, i);
    }
  }

  /** Sorting the candidates off key `m` leaves none at key `m` in front. */
  lemma RestOffKey(s: seq<Cand>, m: nat)
    requires SortDesc(WithoutKey(s, m)) != []
    ensures Key(SortDesc(WithoutKey(s, m))[0]) != m
  {
    var w := WithoutKey(s, m);
    var b := SortDesc(w);
    SortDescPerm(w);
    assert b[0] in multiset(b);
    assert b[0] in multiset(w);
    assert b[0] in w;
  }

  lemma {:induction false} LeadingRunHeights(r: seq<Cand>, h: Option<nat>, i: nat)
    requires i < |LeadingRun(r, h)|
    ensures LeadingRun(r, h)[i].height == h
  {
    if i > 0 {
      LeadingRunHeights(r[1..], h, i - 1);
    }
  }

  /**
   * With every height known (as for active servers), findMax returns
   * exactly the candidates at the maximum height, in input order.
   */
  lemma FastestExact(s: seq<Cand>)
    requires s != [] && AllMeasured(s)
    ensures Fastest(s) == AtHeight(s, Some(MaxKey(s)))
  {
    var m := MaxKey(s);
    SortSplit(s, m);
    var i0 :| 0 <= i0 < |s| && Key(s[i0]) == m;
    WithKeyHas(s, m, i0);
    AtHeightIsWithKey(s, m);
    var a, b := WithKey(s, m), SortDesc(WithoutKey(s, m));
    forall i | 0 <= i < |a| ensures a[i].height == Some(m) {
      assert a[i] in s;
    }
    SortDescPerm(WithoutKey(s, m));
    if b != [] {
      assert b[0] in multiset(b);
      assert b[0] in multiset(WithoutKey(s, m));
      assert b[0] in WithoutKey(s, m);
      assert b[0] in s;
    }
    assert (a + b)[0] == a[0];
    LeadingRunWhole(a, b, Some(m));
  }

  // ---------------------------------------------------------------------
  // The imperative findMax

  /** A candidate whose recorded height is its server's present height. */
  ghost predicate IsCurrent(x: Cand)
    reads x.server
  {
    x.server.height == x.height
  }

  /** A permutation of current candidates is current. */
  lemma CurrentPerm(c: seq<Cand>, d: seq<Cand>)
    requires multiset(c) == multiset(d)
    requires forall k :: 0 <= k < |c| ==> IsCurrent(c[k])
    ensures forall k :: 0 <= k < |d| ==> IsCurrent(d[k])
  {
    forall k | 0 <= k < |d| ensures IsCurrent(d[k]) {
      assert d[k] in multiset(d);
      assert d[k] in multiset(c);
      var m :| 0 <= m < |c| && c[m] == d[k];
    }
  }

  /** `a[lo..]` holds, in order, the servers of the candidates `t`. */
  ghost predicate ServersAt(a: array<Server>, lo: nat, t: seq<Cand>)
    reads a
  {
    lo <= a.Length && |t| == a.Length - lo &&
    forall k :: lo <= k < a.Length ==> a[k] == t[k - lo].server
  }

  /**
   * What one pass of the outer sorting loop needs: the sorted tail is
   * current, and sorting from `i` is inserting `c[i]` into that tail.
   */
  lemma StepFacts(c: seq<Cand>, i: nat)
    requires i < |c|
    requires forall k :: 0 <= k < |c| ==> IsCurrent(c[k])
    ensures var t := SortDesc(c[i + 1..]); forall k :: 0 <= k < |t| ==> IsCurrent(t[k])
    ensures SortDesc(c[i..]) == Insert(c[i], SortDesc(c[i + 1..]))
  {
    SortDescPerm(c[i + 1..]);
    CurrentPerm(c[i + 1..], SortDesc(c[i + 1..]));
    assert c[i..][1..] == c[i + 1..];
  }

  /** Servers that carry the heights of current candidates snapshot to them. */
  lemma SnapCurrent(s: seq<Server>, r: seq<Cand>)
    requires |s| == |r|
    requires forall k :: 0 <= k < |r| ==> s[k] == r[k].server && IsCurrent(r[k])
    ensures Snap(s) == r
  {
  }

  /**
   * One insertion step: `a[i + 1..]` holds the servers of the sorted list
   * `t`; shift the larger ones left and drop `a[i]` into its place.
   */
  method InsertStep(a: array<Server>, i: nat, ghost t: seq<Cand>)
    requires i < a.Length && ServersAt(a, i + 1, t)
    requires forall k :: 0 <= k < |t| ==> IsCurrent(t[k])
    modifies a
    ensures forall k :: 0 <= k < i ==> a[k] == old(a[k])
    ensures ServersAt(a, i, Insert(Cand(old(a[i]), old(a[i]).height), t))
  {
    var n := a.Length;
    var x := a[i];
    var cx := Cand(x, x.height);
    var j := i;
    while j + 1 < n && Key(cx) < Key(Cand(a[j + 1], a[j + 1].height))
      invariant i <= j < n
      invariant forall k :: 0 <= k < i ==> a[k] == old(a[k])
      invariant forall k :: i <= k < j ==> a[k] == t[k - i].server
      invariant forall k :: j < k < n ==> a[k] == t[k - 1 - i].server
      invariant forall k :: 0 <= k < j - i ==> Key(t[k]) > Key(cx)
    {
      a[j] := a[j + 1];
      j := j + 1;
    }
    a[j] := x;
    InsertAt(cx, t, j - i);
    ghost var r := Insert(cx, t);
    forall k | i <= k < n ensures a[k] == r[k - i].server {
      if k < j {
        assert r[k - i] == t[k - i];
      } else if k > j {
        assert r[k - i] == t[k - 1 - i];
      }
    }
  }

  /** `Array.prototype.sort` with the height comparator: in place and stable. */
  method SortByHeight(a: array<Server>)
    modifies a
    ensures Snap(a[..]) == SortDesc(old(Snap(a[..])))
  {
    var n := a.Length;
    ghost var c0 := Snap(a[..]);
    var i := n;
    while i > 0
      invariant 0 <= i <= n
      invariant forall k :: 0 <= k < n ==> IsCurrent(c0[k])
      invariant forall k :: 0 <= k < i ==> a[k] == c0[k].server
      invariant ServersAt(a, i, SortDesc(c0[i..]))
    {
      i := i - 1;
      StepFacts(c0, i);
      assert Cand(a[i], a[i].height) == c0[i];
      InsertStep(a, i, SortDesc(c0[i + 1..]));
    }
    assert c0[0..] == c0;
    ghost var r := SortDesc(c0);
    SortDescPerm(c0);
    CurrentPerm(c0, r);
    SnapCurrent(a[..], r);
  }

  /**
   * The loop of findMax: starting from the first server, collect servers
   * while their height equals the first one's.
   */
  method LeadingServers(arr: array<Server>) returns (fast: seq<Server>)
    requires arr.Length > 0
    ensures fast == ServersOf(LeadingRun(Snap(arr[..]), arr[0].height))
  {
    ghost var sorted := Snap(arr[..]);
    fast := [arr[0]];
    var max := arr[0].height;
    var i := 1;
    while i < arr.Length
      invariant 1 <= i <= arr.Length
      invariant fast == arr[..i]
      invariant forall k :: 0 <= k < i ==> arr[k].height == max
    {
      if arr[i].height == max {
        fast := fast + [arr[i]];
      } else {
        break;
      }
      i := i + 1;
    }
    LeadingRunIs(sorted, i, max);
    assert ServersOf(sorted[..i]) == fast;
  }

  /**
   * findMax: sorts `arr` in place, then collects the leading run of servers
   * at the first server's height. On an empty array the source reads a field
   * of `undefined` and throws; that is `threw`.
   */
  method FindMax(arr: array<Server>) returns (threw: bool, fast: seq<Server>)
    modifies arr
    ensures Snap(arr[..]) == SortDesc(old(Snap(arr[..])))
    ensures threw <==> arr.Length == 0
    ensures !threw ==> fast == ServersOf(Fastest(old(Snap(arr[..]))))
  {
    SortByHeight(arr);
    if arr.Length == 0 {
      return true, [];
    }
    threw := false;
    fast := LeadingServers(arr);
  }
}
