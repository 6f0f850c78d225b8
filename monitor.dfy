/**
 * The `Monitor` class of src/index.ts: the backend registry, the election
 * of the primary backend after each round of probes (`check`) and the
 * one-time network-consistency pruning (`checkVersions`).
 */
module HealthMonitor {
  import opened Results
  import opened Backend
  import opened Election

  /** One entry of the configured backend list. */
  datatype ServerDefinition = ServerDefinition(name: string, url: string)

  ghost predicate Distinct<T>(s: seq<T>) {
    forall i, j :: 0 <= i < j < |s| ==> s[i] != s[j]
  }

  /** `a` is `b` with some elements removed and the rest in their order. */
  ghost predicate IsSubsequence<T>(a: seq<T>, b: seq<T>)
    decreases |b|
  {
    a == [] || (b != [] && ((a[0] == b[0] && IsSubsequence(a[1..], b[1..])) || IsSubsequence(a, b[1..])))
  }

  lemma {:induction false} SubsequenceMembers<T>(a: seq<T>, b: seq<T>)
    requires IsSubsequence(a, b)
    ensures forall x :: x in a ==> x in b
    decreases |b|
  {
    if a != [] {
      if a[0] == b[0] && IsSubsequence(a[1..], b[1..]) {
        SubsequenceMembers(a[1..], b[1..]);
        assert a == [a[0]] + a[1..];
      } else {
        SubsequenceMembers(a, b[1..]);
      }
    }
  }

  lemma {:induction false} SubsequenceDistinct<T>(a: seq<T>, b: seq<T>)
    requires IsSubsequence(a, b) && Distinct(b)
    ensures Distinct(a)
    decreases |b|
  {
    if a != [] {
      if a[0] == b[0] && IsSubsequence(a[1..], b[1..]) {
        SubsequenceDistinct(a[1..], b[1..]);
        SubsequenceMembers(a[1..], b[1..]);
        forall i, j | 0 <= i < j < |a| ensures a[i] != a[j] {
          if i == 0 {
            assert a[j] == a[1..][j - 1];
            assert a[j] in b[1..];
          } else {
            assert a[i] == a[1..][i - 1] && a[j] == a[1..][j - 1];
          }
        }
      } else {
        SubsequenceDistinct(a, b[1..]);
      }
    }
  }

  lemma {:induction false} SubsequenceCons<T>(x: T, a: seq<T>, b: seq<T>)
    requires IsSubsequence(a, b)
    ensures IsSubsequence([x] + a, [x] + b)
  {
    assert ([x] + a)[1..] == a && ([x] + b)[1..] == b;
  }

  lemma {:induction false} SubsequenceDrop<T>(x: T, a: seq<T>, b: seq<T>)
    requires IsSubsequence(a, b)
    ensures IsSubsequence(a, [x] + b)
  {
    assert ([x] + b)[1..] == b;
  }

  // ---------------------------------------------------------------------
  // lodash `pull`

  /** `pull(array, x)`: removes every element equal to `x`, keeping the order of the rest. */
  function Pull<T(==)>(s: seq<T>, x: T): (r: seq<T>)
    ensures x !in r
  {
    if s == [] then []
    else (if s[0] == x then [] else [s[0]]) + Pull(s[1..], x)
  }

  /** On a list without duplicates, pulling `s[i]` is removing index `i`. */
  lemma PullAt<T>(s: seq<T>, i: nat)
    requires Distinct(s) && i < |s|
    ensures Pull(s, s[i]) == s[..i] + s[i + 1..]
  {
    var x, a, b := s[i], s[..i], s[i + 1..];
    assert x !in a by {
      assert forall k :: 0 <= k < |a| ==> a[k] == s[k];
    }
    assert x !in b by {
      assert forall k :: 0 <= k < |b| ==> b[k] == s[i + 1 + k];
    }
    PullOnly(s, i);
  }

  /** Pull keeps exactly the elements different from `x`, in their order. */
  lemma {:induction false} PullKeepsOthers<T>(s: seq<T>, x: T)
    ensures IsSubsequence(Pull(s, x), s)
    ensures x !in Pull(s, x)
    ensures forall i :: 0 <= i < |s| && s[i] != x ==> s[i] in Pull(s, x)
  {
    if s != [] {
      PullKeepsOthers(s[1..], x);
      assert s == [s[0]] + s[1..];
      if s[0] == x {
        assert Pull(s, x) == Pull(s[1..], x);
        SubsequenceDrop(s[0], Pull(s[1..], x), s[1..]);
      } else {
        assert Pull(s, x) == [s[0]] + Pull(s[1..], x);
        SubsequenceCons(s[0], Pull(s[1..], x), s[1..]);
      }
      forall i | 0 <= i < |s| && s[i] != x ensures s[i] in Pull(s, x) {
        if i > 0 { assert s[i] == s[1..][i - 1]; }
      }
    }
  }

  lemma {:induction false} PullAppend<T>(a: seq<T>, b: seq<T>, x: T)
    ensures Pull(a + b, x) == Pull(a, x) + Pull(b, x)
  {
    if a == [] {
      assert a + b == b;
    } else {
      assert (a + b)[0] == a[0] && (a + b)[1..] == a[1..] + b;
      PullAppend(a[1..], b, x);
    }
  }

  lemma {:induction false} PullAbsent<T>(s: seq<T>, x: T)
    requires x !in s
    ensures Pull(s, x) == s
  {
    if s != [] {
      PullAbsent(s[1..], x);
      assert s == [s[0]] + s[1..];
    }
  }

  // ---------------------------------------------------------------------
  // checkVersions, on values

  /** The value the JavaScript compares: a falsy result behaves like `undefined`, here "". */
  function Answer(r: Reply<string>): string {
    match r
    case Ok(v) => v
    case _ => ""
  }

  /** What one visit decides: keep the server, and the expected version afterwards. */
  datatype Verdict = Verdict(keep: bool, version: string)

  /**
   * One iteration of the `checkVersions` loop. With no expected version yet
   * (falsy), the answer becomes it and the server stays; otherwise the
   * server stays only if it answered the same. A call that threw removes
   * the server and leaves the version alone.
   */
  function Judge(version: string, r: Reply<string>): (d: Verdict)
    ensures r.Fail? ==> d == Verdict(false, version)
    ensures version != "" ==> d.version == version && (d.keep <==> r == Ok(version))
    ensures version == "" && !r.Fail? ==> d.keep && d.version == Answer(r)
  {
    match r
    case Fail(_) => Verdict(false, version)
    case _ =>
      if version == "" then Verdict(true, Answer(r))
      else Verdict(Answer(r) == version, version)
  }

  /**
   * The registry `checkVersions` leaves, described over the ORIGINAL
   * positions: `replies[k]` answers the k-th `net_version` call. When a
   * visited server is dropped, the next one slides into its slot and is
   * never visited: it survives unchecked.
   */
  function Survivors<T>(s: seq<T>, replies: seq<Reply<string>>, version: string): (r: seq<T>)
    requires |replies| >= |s|
    ensures |r| <= |s|
    ensures forall i :: 0 <= i < |r| ==> r[i] in s
    decreases |s|
  {
    if s == [] then []
    else
      var d := Judge(version, replies[0]);
      if d.keep then [s[0]] + Survivors(s[1..], replies[1..], d.version)
      else if |s| == 1 then []
      else [s[1]] + Survivors(s[2..], replies[1..], version)
  }

  /** checkVersions only removes servers and keeps the survivors in order. */
  lemma {:induction false} SurvivorsSubsequence<T>(s: seq<T>, replies: seq<Reply<string>>, version: string)
    requires |replies| >= |s|
    ensures IsSubsequence(Survivors(s, replies, version), s)
    decreases |s|
  {
    if s != [] {
      var d := Judge(version, replies[0]);
      if d.keep {
        SurvivorsSubsequence(s[1..], replies[1..], d.version);
        SubsequenceCons(s[0], Survivors(s[1..], replies[1..], d.version), s[1..]);
        assert s == [s[0]] + s[1..];
      } else if |s| > 1 {
        SurvivorsSubsequence(s[2..], replies[1..], version);
        SubsequenceCons(s[1], Survivors(s[2..], replies[1..], version), s[2..]);
        assert s[1..] == [s[1]] + s[2..];
        SubsequenceDrop(s[0], [s[1]] + Survivors(s[2..], replies[1..], version), s[1..]);
        assert s == [s[0]] + s[1..];
      }
    }
  }

  /** When every visited server gives the expected (truthy) version, nothing is removed. */
  lemma {:induction false} SurvivorsAllAgree<T>(s: seq<T>, replies: seq<Reply<string>>, v: string)
    requires v != "" && |replies| >= |s|
    requires forall k :: 0 <= k < |s| ==> replies[k] == Ok(v)
    ensures Survivors(s, replies, v) == s
    ensures Survivors(s, replies, "") == s
    decreases |s|
  {
    if s != [] {
      assert forall k :: 0 <= k < |s[1..]| ==> replies[1..][k] == replies[k + 1];
      SurvivorsAllAgree(s[1..], replies[1..], v);
      assert s == [s[0]] + s[1..];
    }
  }

  /**
   * A rejected server takes the next one's check with it: whatever the
   * rest of the replies say, the server right after a removed one survives.
   */
  lemma SurvivorsSkip<T>(s: seq<T>, replies: seq<Reply<string>>, version: string)
    requires |s| >= 2 && |replies| >= |s|
    requires !Judge(version, replies[0]).keep
    ensures Survivors(s, replies, version) != []
    ensures Survivors(s, replies, version)[0] == s[1]
    ensures s[0] !in s[1..] ==> s[0] !in Survivors(s, replies, version)
  {
    SurvivorsSubsequence(s[2..], replies[1..], version);
    SubsequenceMembers(Survivors(s[2..], replies[1..], version), s[2..]);
    assert s[1..] == [s[1]] + s[2..];
  }

  /** Versions "a", "a", "b" in registry order: the two "a" servers stay. */
  lemma ThreeServersOneMismatch<T>(x: T, y: T, z: T)
    ensures Survivors([x, y, z], [Ok("a"), Ok("a"), Ok("b")], "") == [x, y]
  {
    var r: seq<Reply<string>> := [Ok("a"), Ok("a"), Ok("b")];
    assert [x, y, z][1..] == [y, z] && [y, z][1..] == [z] && [z][1..] == [];
    assert r[1..] == [Ok("a"), Ok("b")] && r[1..][1..] == [Ok("b")];
    assert Survivors([z], [Ok("b")], "a") == [];
    assert Survivors([y, z], [Ok("a"), Ok("b")], "a") == [y];
  }

  /**
   * Versions "1", "2", "3": the second server is removed, so the third is
   * never asked and survives although it disagrees too.
   */
  lemma ThreeServersSkipped<T>(x: T, y: T, z: T)
    ensures Survivors([x, y, z], [Ok("1"), Ok("2"), Ok("3")], "") == [x, z]
  {
    var r: seq<Reply<string>> := [Ok("1"), Ok("2"), Ok("3")];
    assert [x, y, z][1..] == [y, z] && [y, z][1..] == [z] && [y, z][2..] == [];
    assert r[1..] == [Ok("2"), Ok("3")] && r[1..][1..] == [Ok("3")];
    assert Survivors([y, z], [Ok("2"), Ok("3")], "1") == [z];
  }

  // ---------------------------------------------------------------------
  // check, on values

  /** `this.servers.filter(s => s.state === State.active)`. */
  function ActiveServers(s: seq<Server>): (r: seq<Server>)
    reads s
    ensures forall i :: 0 <= i < |r| ==> r[i] in s && r[i].state == Active
    ensures forall i :: 0 <= i < |s| && s[i].state == Active ==> s[i] in r
  {
    if s == [] then []
    else (if s[0].state == Active then [s[0]] else []) + ActiveServers(s[1..])
  }

  /** `includes(maxServers, this.primaryServer)`; `undefined` is never included. */
  function Includes(f: seq<Server>, p: Server?): (r: bool)
    ensures r <==> exists i :: 0 <= i < |f| && f[i] == p
  {
    p != null && p in f
  }

  /**
   * On a snapshot of the active servers, all with a height: `p` is one of
   * them at the highest height.
   */
  ghost predicate IsTop(c: seq<Cand>, p: Server) {
    && c != [] && AllMeasured(c)
    && exists j :: 0 <= j < |c| && c[j].server == p && c[j].height == Some(MaxKey(c))
  }

  /** ... and the first of them in registry order. */
  ghost predicate IsFirstTop(c: seq<Cand>, p: Server) {
    && c != [] && AllMeasured(c)
    && exists m :: 0 <= m < |c| && c[m].server == p && c[m].height == Some(MaxKey(c)) &&
         forall j :: 0 <= j < m ==> c[j].height != c[m].height
  }

  /**
   * The outcome of the election of `check` on the snapshot `c` of the
   * active servers, from primary `p0` and regenerations `u0` to `p` and
   * `u`: with nobody active findMax throws and nothing changes; a primary
   * at the top height stays; otherwise the first server at the top height
   * becomes primary and the upstreams are regenerated once, for it.
   */
  ghost predicate Elected(c: seq<Cand>, p0: Server?, u0: seq<Server>, aborted: bool, p: Server?, u: seq<Server>) {
    && (aborted <==> c == [])
    && (aborted ==> p == p0 && u == u0)
    && (!aborted ==> p != null && IsTop(c, p))
    && (!aborted && p0 != null && IsTop(c, p0) ==> p == p0 && u == u0)
    && (!aborted && !(p0 != null && IsTop(c, p0)) ==> p != null && IsFirstTop(c, p) && u == u0 + [p])
  }

  /** A server as a round of probes sees it: its state and its height. */
  datatype View = View(server: Server, state: State, height: Option<nat>)

  /** The views of a list of servers, read from the heap. */
  function Views(s: seq<Server>): (v: seq<View>)
    reads s
    ensures |v| == |s|
    ensures forall i :: 0 <= i < |s| ==> v[i] == View(s[i], s[i].state, s[i].height)
  {
    if s == [] then [] else [View(s[0], s[0].state, s[0].height)] + Views(s[1..])
  }

  /** The views after one round of probes, `probes[k]` answering server k. */
  function Probed(v: seq<View>, probes: seq<Reply<nat>>): seq<View>
    requires |probes| == |v|
  {
    seq(|v|, i requires 0 <= i < |v| =>
      View(v[i].server, ProbedState(v[i].state, probes[i]), ProbedHeight(v[i].height, probes[i])))
  }

  /** The snapshot of the active ones among some views, in their order. */
  function ActiveCands(v: seq<View>): seq<Cand> {
    if v == [] then []
    else (if v[0].state == Active then [Cand(v[0].server, v[0].height)] else []) + ActiveCands(v[1..])
  }

  /** Views in which every active server has a height. */
  ghost predicate ViewsMeasured(v: seq<View>) {
    forall i :: 0 <= i < |v| ==> (v[i].state == Active ==> v[i].height.Some?)
  }

  /** When every active view has a height, so does every candidate. */
  lemma {:induction false} ActiveCandsMeasured(w: seq<View>)
    requires ViewsMeasured(w)
    ensures AllMeasured(ActiveCands(w))
  {
    if w != [] {
      assert forall i :: 0 <= i < |w[1..]| ==> w[1..][i] == w[i + 1];
      ActiveCandsMeasured(w[1..]);
      var here := if w[0].state == Active then [Cand(w[0].server, w[0].height)] else [];
      assert ActiveCands(w) == here + ActiveCands(w[1..]);
    }
  }

  /**
   * A round of probes keeps every active server measured: a server only
   * turns active on an answer, which brings a height, and a known height
   * is never forgotten.
   */
  lemma ProbedMeasured(v: seq<View>, probes: seq<Reply<nat>>)
    requires |probes| == |v| && ViewsMeasured(v)
    ensures ViewsMeasured(Probed(v, probes))
    ensures AllMeasured(ActiveCands(Probed(v, probes)))
  {
    var w := Probed(v, probes);
    forall i | 0 <= i < |w| && w[i].state == Active ensures w[i].height.Some? {
      assert w[i].state == ProbedState(v[i].state, probes[i]);
    }
    ActiveCandsMeasured(w);
  }

  /** Servers whose fields all went through one round of probes. */
  lemma ViewsProbed(s: seq<Server>, v: seq<View>, probes: seq<Reply<nat>>)
    requires |v| == |s| == |probes|
    requires forall k :: 0 <= k < |s| ==>
      && s[k] == v[k].server
      && s[k].state == ProbedState(v[k].state, probes[k])
      && s[k].height == ProbedHeight(v[k].height, probes[k])
    ensures Views(s) == Probed(v, probes)
  {
  }

  /** The snapshot of a concatenation. */
  lemma SnapAppend(a: seq<Server>, b: seq<Server>)
    ensures Snap(a + b) == Snap(a) + Snap(b)
  {
    var x, y := Snap(a + b), Snap(a) + Snap(b);
    assert |x| == |y|;
    forall i | 0 <= i < |x| ensures x[i] == y[i] {
      if i < |a| { assert (a + b)[i] == a[i]; } else { assert (a + b)[i] == b[i - |a|]; }
    }
  }

  /** Reading the active servers and then their heights is filtering the views. */
  lemma {:induction false} ActiveSnap(s: seq<Server>)
    ensures Snap(ActiveServers(s)) == ActiveCands(Views(s))
  {
    if s != [] {
      ActiveSnap(s[1..]);
      assert Views(s)[1..] == Views(s[1..]);
      var here := if s[0].state == Active then [s[0]] else [];
      assert ActiveServers(s) == here + ActiveServers(s[1..]);
      SnapAppend(here, ActiveServers(s[1..]));
    }
  }

  /** What a round of `check` leaves: whether it aborted, the primary, the regenerations. */
  datatype Outcome = Outcome(aborted: bool, primary: Server?, updates: seq<Server>)

  /**
   * The election of `check` on the snapshot `c` of the active servers,
   * from primary `p0` and regenerations `u0`: findMax throws on an empty
   * list; a primary in the max set stays; otherwise the set's first member
   * becomes primary and the upstreams are regenerated for it.
   */
  function RoundOutcome(c: seq<Cand>, p0: Server?, u0: seq<Server>): (o: Outcome)
    ensures o.aborted <==> c == []
    ensures o.aborted ==> o.primary == p0 && o.updates == u0
    ensures !o.aborted ==> o.primary != null && o.primary in ServersOf(c)
    ensures o.updates == u0 || (o.primary != p0 && o.updates == u0 + [o.primary])
  {
    if c == [] then Outcome(true, p0, u0)
    else
      FastestShape(c);
      var fast := ServersOf(Fastest(c));
      if Includes(fast, p0) then Outcome(false, p0, u0)
      else Outcome(false, fast[0], u0 + [fast[0]])
  }

  /** The outcome once findMax has returned `fast`. */
  lemma OutcomeOf(c: seq<Cand>, p0: Server?, u0: seq<Server>, fast: seq<Server>)
    requires c != [] && fast == ServersOf(Fastest(c))
    ensures fast != []
    ensures RoundOutcome(c, p0, u0) ==
      if Includes(fast, p0) then Outcome(false, p0, u0) else Outcome(false, fast[0], u0 + [fast[0]])
  {
    FastestShape(c);
  }

  /**
   * The election keeps the source's promise: with nobody active nothing
   * changes; otherwise the primary is at the top height, an old primary at
   * the top height stays, and a new one is the first server at the top
   * height and is handed over once.
   */
  lemma ElectionMeets(c: seq<Cand>, p0: Server?, u0: seq<Server>)
    requires AllMeasured(c)
    ensures var o := RoundOutcome(c, p0, u0); Elected(c, p0, u0, o.aborted, o.primary, o.updates)
  {
    if c != [] {
      var fast := ServersOf(Fastest(c));
      ElectionFacts(c, fast);
      assert IsTop(c, fast[0]);
      if p0 != null {
        assert Includes(fast, p0) <==> IsTop(c, p0);
      }
    }
  }

  /**
   * The round of `check` that follows probes `probes` on measured views
   * keeps the promise of the election.
   */
  lemma RoundMeets(v: seq<View>, probes: seq<Reply<nat>>, p0: Server?, u0: seq<Server>)
    requires |probes| == |v| && ViewsMeasured(v)
    ensures var c := ActiveCands(Probed(v, probes)); var o := RoundOutcome(c, p0, u0);
      Elected(c, p0, u0, o.aborted, o.primary, o.updates)
  {
    ProbedMeasured(v, probes);
    ElectionMeets(ActiveCands(Probed(v, probes)), p0, u0);
  }

  /** The alert text for a server whose probe failed. */
  function AlertMessage(s: Server, cause: string): (m: string)
    ensures |m| > |s.name| + |cause|
    ensures m[..|s.name|] == s.name && m[|m| - |cause|..] == cause
  {
    s.name + " " + s.url + " is down: " + cause
  }

  /** How many probes of a round threw. */
  function FailCount(probes: seq<Reply<nat>>): (n: nat)
    ensures n <= |probes|
  {
    if probes == [] then 0 else (if probes[0].Fail? then 1 else 0) + FailCount(probes[1..])
  }

  /** The alerts one round of probes raises, in registry order: one per probe that threw. */
  function DownAlerts(s: seq<Server>, probes: seq<Reply<nat>>): (r: seq<string>)
    requires |probes| == |s|
    ensures |r| == FailCount(probes)
  {
    if s == [] then []
    else
      var here := if probes[0].Fail? then [AlertMessage(s[0], probes[0].message)] else [];
      here + DownAlerts(s[1..], probes[1..])
  }

  lemma DownAlertsSnoc(s: seq<Server>, probes: seq<Reply<nat>>, i: nat)
    requires |probes| == |s| && i < |s|
    ensures DownAlerts(s[..i + 1], probes[..i + 1]) ==
      DownAlerts(s[..i], probes[..i]) + (if probes[i].Fail? then [AlertMessage(s[i], probes[i].message)] else [])
  {
    assert s[..i + 1] == s[..i] + [s[i]] && probes[..i + 1] == probes[..i] + [probes[i]];
    DownAlertsAppend(s[..i], [s[i]], probes[..i], [probes[i]]);
    assert DownAlerts([s[i]], [probes[i]]) ==
      (if probes[i].Fail? then [AlertMessage(s[i], probes[i].message)] else []) + DownAlerts([], []);
  }

  /** Every alert is the message of a server whose probe threw. */
  lemma {:induction false} DownAlertsFrom(s: seq<Server>, probes: seq<Reply<nat>>, j: nat)
    requires |probes| == |s| && j < |DownAlerts(s, probes)|
    ensures exists k :: 0 <= k < |s| && probes[k].Fail? && DownAlerts(s, probes)[j] == AlertMessage(s[k], probes[k].message)
  {
    var r, rest := DownAlerts(s, probes), DownAlerts(s[1..], probes[1..]);
    var here := if probes[0].Fail? then [AlertMessage(s[0], probes[0].message)] else [];
    assert r == here + rest;
    if j < |here| {
      assert r[j] == AlertMessage(s[0], probes[0].message);
    } else {
      DownAlertsFrom(s[1..], probes[1..], j - |here|);
      var k :| 0 <= k < |s[1..]| && probes[1..][k].Fail? &&
        rest[j - |here|] == AlertMessage(s[1..][k], probes[1..][k].message);
      assert s[k + 1] == s[1..][k] && probes[k + 1] == probes[1..][k];
      assert r[j] == rest[j - |here|];
    }
  }

  /** The alerts of two parts of a registry, in order: those of the first part come first. */
  lemma {:induction false} DownAlertsAppend(a: seq<Server>, b: seq<Server>, pa: seq<Reply<nat>>, pb: seq<Reply<nat>>)
    requires |pa| == |a| && |pb| == |b|
    ensures DownAlerts(a + b, pa + pb) == DownAlerts(a, pa) + DownAlerts(b, pb)
  {
    if a == [] {
      assert a + b == b && pa + pb == pb;
    } else {
      assert (a + b)[1..] == a[1..] + b && (pa + pb)[1..] == pa[1..] + pb;
      assert (a + b)[0] == a[0] && (pa + pb)[0] == pa[0];
      DownAlertsAppend(a[1..], b, pa[1..], pb);
    }
  }

  /** Membership in the max set is being at the top height. */
  lemma {:induction false} IncludesIsTop(c: seq<Cand>, fast: seq<Server>, p: Server)
    requires c != [] && AllMeasured(c)
    requires fast == ServersOf(AtHeight(c, Some(MaxKey(c))))
    ensures Includes(fast, p) <==> IsTop(c, p)
  {
    var at := AtHeight(c, Some(MaxKey(c)));
    if Includes(fast, p) {
      var k :| 0 <= k < |fast| && fast[k] == p;
      assert at[k] in c;
    }
    if IsTop(c, p) {
      var j :| 0 <= j < |c| && c[j].server == p && c[j].height == Some(MaxKey(c));
      assert c[j] in at;
      var k :| 0 <= k < |at| && at[k] == c[j];
      assert fast[k] == p;
    }
  }

  /**
   * What findMax tells the election, on a snapshot of servers that all
   * have a height: the max set is non-empty, a server is in it exactly
   * when it is at the top height, and its first member is the first such
   * server in registry order.
   */
  lemma {:induction false} ElectionFacts(c: seq<Cand>, fast: seq<Server>)
    requires c != [] && AllMeasured(c)
    requires fast == ServersOf(Fastest(c))
    ensures fast != []
    ensures forall p: Server :: Includes(fast, p) <==> IsTop(c, p)
    ensures IsFirstTop(c, fast[0])
  {
    var m := MaxKey(c);
    FastestExact(c);
    var at := AtHeight(c, Some(m));
    var i0 :| 0 <= i0 < |c| && Key(c[i0]) == m;
    assert c[i0] in at;
    forall p: Server ensures Includes(fast, p) <==> IsTop(c, p) {
      IncludesIsTop(c, fast, p);
    }
    FirstAtHeight(c, Some(m));
    var mm :| 0 <= mm < |c| && c[mm] == at[0] && forall j :: 0 <= j < mm ==> c[j].height != Some(m);
    assert c[mm].server == fast[0];
  }

  /**
   * One keeping visit of `checkVersions`: the visited server joins the
   * servers already passed, and the answer may fix the version.
   */
  lemma SurvivorsKeepStep<T>(orig: seq<T>, p: nat, replies: seq<Reply<string>>, k: nat, v: string, acc: seq<T>)
    requires k <= p < |orig| <= |replies|
    requires Judge(v, replies[k]).keep
    ensures acc + Survivors(orig[p..], replies[k..], v) ==
      (acc + [orig[p]]) + Survivors(orig[p + 1..], replies[k + 1..], Judge(v, replies[k]).version)
  {
    assert orig[p..][1..] == orig[p + 1..] && replies[k..][1..] == replies[k + 1..];
  }

  /**
   * One dropping visit: the visited server is pulled, and the next
   * original server is taken over unvisited.
   */
  lemma SurvivorsDropStep<T>(orig: seq<T>, p: nat, replies: seq<Reply<string>>, k: nat, v: string, acc: seq<T>)
    requires k <= p < |orig| <= |replies|
    requires !Judge(v, replies[k]).keep
    ensures p + 1 < |orig| ==>
      acc + Survivors(orig[p..], replies[k..], v) ==
      (acc + [orig[p + 1]]) + Survivors(orig[p + 2..], replies[k + 1..], v)
    ensures p + 1 == |orig| ==> acc + Survivors(orig[p..], replies[k..], v) == acc
  {
    assert replies[k..][1..] == replies[k + 1..];
    if p + 1 < |orig| {
      assert orig[p..][1] == orig[p + 1] && orig[p..][2..] == orig[p + 2..];
    }
  }

  /** Pulling an element that occurs only at index `i` removes index `i`. */
  lemma {:induction false} PullOnly<T>(s: seq<T>, i: nat)
    requires i < |s| && s[i] !in s[..i] && s[i] !in s[i + 1..]
    ensures Pull(s, s[i]) == s[..i] + s[i + 1..]
  {
    var x, a, b := s[i], s[..i], s[i + 1..];
    var xb := [x] + b;
    assert s == a + xb;
    assert xb[0] == x && xb[1..] == b;
    assert Pull(xb, x) == Pull(b, x);
    PullAppend(a, xb, x);
    PullAbsent(a, x);
    PullAbsent(b, x);
  }

  /** In a list without duplicates, `s[p]` is neither among earlier elements nor later ones. */
  lemma NotEarlier<T>(s: seq<T>, p: nat, acc: seq<T>)
    requires Distinct(s) && p < |s|
    requires forall x :: x in acc ==> x in s[..p]
    ensures s[p] !in acc && s[p] !in s[p + 1..]
  {
    forall m | 0 <= m < p ensures s[..p][m] != s[p] {
      assert s[..p][m] == s[m];
    }
    var later := s[p + 1..];
    forall m | 0 <= m < |later| ensures later[m] != s[p] {
      assert later[m] == s[p + 1 + m];
    }
  }


  /**
   * The drop step of `checkVersions`: with `acc` the part of the registry
   * already passed, pulling the visited server `s[p]` leaves `acc` and the
   * servers after `s[p]`.
   */
  lemma PullVisited<T>(s: seq<T>, p: nat, acc: seq<T>)
    requires Distinct(s) && p < |s|
    requires forall x :: x in acc ==> x in s[..p]
    ensures Pull(acc + s[p..], s[p]) == acc + s[p + 1..]
  {
    var t := acc + s[p..];
    assert t[..|acc|] == acc && t[|acc| + 1..] == s[p + 1..] && t[|acc|] == s[p];
    NotEarlier(s, p, acc);
    PullOnly(t, |acc|);
  }

  /** A kept server joins `acc`. */
  lemma KeepNext<T>(s: seq<T>, p: nat, acc: seq<T>)
    requires p < |s|
    requires forall x :: x in acc ==> x in s[..p]
    ensures acc + s[p..] == (acc + [s[p]]) + s[p + 1..]
    ensures forall x :: x in acc ==> x in s[..p + 1]
    ensures s[p] in s[..p + 1]
  {
    assert s[p..] == [s[p]] + s[p + 1..];
    assert s[..p + 1] == s[..p] + [s[p]];
  }

  /** The server after the pulled one is passed over: it joins `acc`. */
  lemma SkipNext<T>(s: seq<T>, p: nat, acc: seq<T>)
    requires p + 1 < |s|
    requires forall x :: x in acc ==> x in s[..p]
    ensures acc + s[p + 1..] == (acc + [s[p + 1]]) + s[p + 2..]
    ensures forall x :: x in acc ==> x in s[..p + 2]
    ensures s[p + 1] in s[..p + 2]
  {
    assert s[p + 1..] == [s[p + 1]] + s[p + 2..];
    assert s[..p + 2] == s[..p] + [s[p], s[p + 1]];
  }

  /**
   * The state of `checkVersions` after some visits: `acc` is the part of
   * the registry already passed, the rest is the original from position
   * `p` on, the next call is the `k`-th, and the survivors still to come
   * are those of that rest under the version fixed so far.
   */
  ghost predicate Visiting<T>(orig: seq<T>, replies: seq<Reply<string>>, servers: seq<T>,
                              acc: seq<T>, p: int, i: int, k: int, version: string)
  {
    && Distinct(orig) && |replies| >= |orig|
    && 0 <= k <= p <= |orig|
    && servers == acc + orig[p..]
    && (i == |acc| || (i == |acc| + 1 && p == |orig|))
    && (forall x :: x in acc ==> x in orig[..p])
    && Survivors(orig, replies, "") == acc + Survivors(orig[p..], replies[k..], version)
  }

  /**
   * A visit that keeps its server: it joins the part passed, and the rest
   * starts one further on.
   */
  lemma KeepVisit<T>(orig: seq<T>, replies: seq<Reply<string>>, servers: seq<T>,
                     acc: seq<T>, p: int, i: int, k: int, version: string)
    returns (acc': seq<T>, p': int)
    requires Visiting(orig, replies, servers, acc, p, i, k, version) && i < |servers|
    requires Judge(version, replies[k]).keep
    ensures acc' == acc + [servers[i]] && p' == p + 1
    ensures Visiting(orig, replies, servers, acc', p', i + 1, k + 1, Judge(version, replies[k]).version)
  {
    SurvivorsKeepStep(orig, p, replies, k, version, acc);
    KeepNext(orig, p, acc);
    acc', p' := acc + [orig[p]], p + 1;
  }

  /**
   * A visit that pulls its server, `next` being the registry after the
   * pull: the server that slides into the slot is passed over unchecked.
   */
  lemma DropVisit<T>(orig: seq<T>, replies: seq<Reply<string>>, servers: seq<T>, next: seq<T>,
                     acc: seq<T>, p: int, i: int, k: int, version: string)
    returns (acc': seq<T>, p': int)
    requires Visiting(orig, replies, servers, acc, p, i, k, version) && i < |servers|
    requires !Judge(version, replies[k]).keep
    requires next == Pull(servers, servers[i])
    ensures p < p' <= |orig|
    ensures Visiting(orig, replies, next, acc', p', i + 1, k + 1, version)
  {
    SurvivorsDropStep(orig, p, replies, k, version, acc);
    PullVisited(orig, p, acc);
    if p + 1 < |orig| {
      SkipNext(orig, p, acc);
      acc', p' := acc + [orig[p + 1]], p + 2;
    } else {
      acc', p' := acc, |orig|;
    }
  }

  /** When the visits are over, the registry is what `Survivors` says. */
  lemma VisitsDone<T>(orig: seq<T>, replies: seq<Reply<string>>, servers: seq<T>,
                      acc: seq<T>, p: int, i: int, k: int, version: string)
    requires Visiting(orig, replies, servers, acc, p, i, k, version) && i >= |servers|
    ensures servers == Survivors(orig, replies, "")
    ensures Distinct(servers) && IsSubsequence(servers, orig)
    ensures forall x :: x in servers ==> x in orig
  {
    assert p == |orig| && orig[p..] == [];
    assert Survivors(orig[p..], replies[k..], version) == [];
    SurvivorsSubsequence(orig, replies, "");
    SubsequenceDistinct(servers, orig);
    SubsequenceMembers(servers, orig);
  }

  // ---------------------------------------------------------------------
  // The Monitor object

  /** An active server has answered at least once, so it has a height. */
  ghost predicate Measured(s: Server)
    reads s
  {
    s.state == Active ==> s.height.Some?
  }


  class Monitor {
    /** The registry, in configuration order. */
    var servers: seq<Server>
    /** `primaryServer`: `null` stands for `undefined`. */
    var primary: Server?
    /** The primary handed over at each call of `generateNginxUpstreams`. */
    var upstreamUpdates: seq<Server>
    /** The alert messages raised for failed probes. */
    var alerts: seq<string>

    /** No server is registered twice, and an active server has a height. */
    ghost predicate Valid()
      reads this, servers
    {
      && Distinct(servers)
      && forall s :: s in servers ==> Measured(s)
    }

    /** `new Monitor(config)`: one fresh pending server per configured backend. */
    constructor (config: seq<ServerDefinition>)
      ensures Valid()
      ensures |servers| == |config|
      ensures forall k :: 0 <= k < |config| ==>
        && fresh(servers[k])
        && servers[k].name == config[k].name && servers[k].url == config[k].url
        && servers[k].state == Pending && servers[k].height == None
      ensures primary == null && upstreamUpdates == [] && alerts == []
    {
      var ss: seq<Server> := [];
      var i := 0;
      while i < |config|
        invariant 0 <= i <= |config| && |ss| == i
        invariant Distinct(ss)
        invariant forall k :: 0 <= k < i ==>
          && fresh(ss[k])
          && ss[k].name == config[k].name && ss[k].url == config[k].url
          && ss[k].state == Pending && ss[k].height == None
      {
        var s := new Server(config[i].name, config[i].url);
        ss := ss + [s];
        i := i + 1;
      }
      servers := ss;
      primary := null;
      upstreamUpdates := [];
      alerts := [];
    }

    /**
     * `check`: probe every server (`probes[k]` is what server k's
     * `eth_blockNumber` call gives), mark the failed ones down and alert,
     * then elect among the active servers. When none is active, findMax
     * throws and the round ends there (`aborted`): nothing is elected and
     * nothing regenerated. Otherwise the primary stays if it is in the max
     * set, and is replaced by the first member of that set, with one
     * upstream regeneration, if not.
     */
    method Check(probes: seq<Reply<nat>>) returns (aborted: bool)
      requires Valid() && |probes| == |servers|
      modifies this, servers
      ensures Valid()
      ensures servers == old(servers)
      ensures Views(servers) == Probed(old(Views(servers)), probes)
      ensures alerts == old(alerts) + DownAlerts(servers, probes)
      ensures Outcome(aborted, primary, upstreamUpdates) ==
        RoundOutcome(ActiveCands(Probed(old(Views(servers)), probes)), old(primary), old(upstreamUpdates))
      ensures Elected(ActiveCands(Probed(old(Views(servers)), probes)), old(primary), old(upstreamUpdates),
        aborted, primary, upstreamUpdates)
    {
      ghost var v0 := Views(servers);
      assert ViewsMeasured(v0) by {
        assert forall i :: 0 <= i < |servers| ==> Measured(servers[i]);
      }
      ghost var p0, u0 := primary, upstreamUpdates;
      ProbeAll(probes);
      assert Views(servers) == Probed(v0, probes) by {
        ViewsProbed(servers, v0, probes);
      }
      aborted := Elect(ActiveCands(Probed(v0, probes)));
      assert Elected(ActiveCands(Probed(v0, probes)), p0, u0, aborted, primary, upstreamUpdates) by {
        RoundMeets(v0, probes, p0, u0);
      }
    }

    /**
     * The election of `check`, once every server has been probed: findMax
     * on the active servers, then the primary is kept if it is in the max
     * set and replaced by the set's first member, with one upstream
     * regeneration, if not.
     */
    method Elect(ghost c: seq<Cand>) returns (aborted: bool)
      requires c == ActiveCands(Views(servers))
      modifies this`primary, this`upstreamUpdates
      ensures Outcome(aborted, primary, upstreamUpdates) == RoundOutcome(c, old(primary), old(upstreamUpdates))
    {
      var avail := ActiveServers(servers);
      assert c == Snap(avail) by {
        ActiveSnap(servers);
      }
      var arr := new Server[|avail|](k requires 0 <= k < |avail| => avail[k]);
      assert arr[..] == avail;
      assert Snap(arr[..]) == c;
      var threw, fast := FindMax(arr);
      if threw {
        aborted := true;
      } else {
        aborted := false;
        OutcomeOf(c, primary, upstreamUpdates, fast);
        if !Includes(fast, primary) {
          primary := fast[0];
          upstreamUpdates := upstreamUpdates + [fast[0]];
        }
      }
    }

    /**
     * The probe round of `check`, one server after the other: a call that
     * throws marks its server down and raises an alert.
     */
    method ProbeAll(probes: seq<Reply<nat>>)
      requires Valid() && |probes| == |servers|
      modifies this`alerts, servers
      ensures Valid()
      ensures forall k :: 0 <= k < |servers| ==>
        && servers[k].state == ProbedState(old(servers[k].state), probes[k])
        && servers[k].height == ProbedHeight(old(servers[k].height), probes[k])
      ensures alerts == old(alerts) + DownAlerts(servers, probes)
    {
      var i := 0;
      while i < |servers|
        invariant 0 <= i <= |servers|
        invariant Distinct(servers)
        invariant alerts == old(alerts) + DownAlerts(servers[..i], probes[..i])
        invariant forall k :: 0 <= k < i ==>
          && servers[k].state == ProbedState(old(servers[k].state), probes[k])
          && servers[k].height == ProbedHeight(old(servers[k].height), probes[k])
        invariant forall k :: i <= k < |servers| ==>
          servers[k].state == old(servers[k].state) && servers[k].height == old(servers[k].height)
      {
        var s := servers[i];
        var threw, _ := s.GetBlockHeight(probes[i]);
        DownAlertsSnoc(servers, probes, i);
        if threw {
          s.state := Down;
          alerts := alerts + [AlertMessage(s, probes[i].message)];
        }
        i := i + 1;
      }
      assert servers[..i] == servers && probes[..i] == probes;
    }

    /**
     * `checkVersions`: ask each server, in registry order, for its network
     * version (`replies[k]` answers the k-th call) and pull the servers that
     * disagree with the first truthy answer, or whose call throws, out of
     * the registry while iterating over it. The program goes on afterwards
     * even if the registry ends up empty.
     */
    method CheckVersions(replies: seq<Reply<string>>)
      requires Valid() && |replies| >= |servers|
      modifies this`servers
      ensures Valid()
      ensures servers == Survivors(old(servers), replies, "")
      ensures IsSubsequence(servers, old(servers))
    {
      ghost var orig := servers;
      var version := "";
      var i := 0;
      ghost var p := 0;
      ghost var acc: seq<Server> := [];
      var k := 0;
      assert orig[..0] == [] && orig[0..] == orig && replies[0..] == replies;
      while i < |servers|
        invariant Visiting(orig, replies, servers, acc, p, i, k, version)
        decreases |orig| - p
      {
        var s := servers[i];
        var d := Judge(version, replies[k]);
        if d.keep {
          acc, p := KeepVisit(orig, replies, servers, acc, p, i, k, version);
          version := d.version;
        } else {
          ghost var prev := servers;
          servers := Pull(servers, s);
          acc, p := DropVisit(orig, replies, prev, servers, acc, p, i, k, version);
        }
        i := i + 1;
        k := k + 1;
      }
      VisitsDone(orig, replies, servers, acc, p, i, k, version);
    }

    /** `start`: the consistency check, then the first round of `check`. */
    method Start(replies: seq<Reply<string>>, probes: seq<Reply<nat>>) returns (aborted: bool)
      requires Valid() && |replies| >= |servers|
      requires |probes| == |Survivors(servers, replies, "")|
      modifies this, servers
      ensures Valid()
      ensures servers == Survivors(old(servers), replies, "")
      ensures Views(servers) == Probed(old(Views(Survivors(servers, replies, ""))), probes)
      ensures alerts == old(alerts) + DownAlerts(servers, probes)
      ensures Outcome(aborted, primary, upstreamUpdates) ==
        RoundOutcome(ActiveCands(Probed(old(Views(Survivors(servers, replies, ""))), probes)), old(primary), old(upstreamUpdates))
      ensures Elected(ActiveCands(Probed(old(Views(Survivors(servers, replies, ""))), probes)), old(primary),
        old(upstreamUpdates), aborted, primary, upstreamUpdates)
    {
      ghost var v0 := Views(Survivors(servers, replies, ""));
      CheckVersions(replies);
      assert Views(servers) == v0;
      SubsequenceMembers(servers, old(servers));
      assert forall i :: 0 <= i < |servers| ==> servers[i] in old(servers);
      aborted := Check(probes);
    }
  }
}
