/** Deployment history: selection of the newest twenty, and the one revision that is followed up. */
module History {
  import opened Wrappers
  import opened Windows
  import opened Strings

  datatype Item = Item(id: int, revision: string, deployedAt: Option<int>)

  datatype Application = Application(name: string, project: string, sources: nat, history: seq<Item>)

  datatype Deployment = Deployment(id: int, revision: string, deployedAt: int)

  const MAX_DEPLOYMENTS := 20

  predicate Hex(ch: char) { '0' <= ch <= '9' || 'a' <= ch <= 'f' || 'A' <= ch <= 'F' }

  predicate RevisionName(text: string) {
    7 <= |text| <= 64 && forall i :: 0 <= i < |text| ==> Hex(text[i])
  }

  lemma LowerTwice(text: string)
    ensures Lower(Lower(text)) == Lower(text)
    ensures RevisionName(text) <==> RevisionName(Lower(text))
  {
    var low := Lower(text);
    forall i | 0 <= i < |text|
      ensures LowerChar(low[i]) == low[i] && (Hex(low[i]) <==> Hex(text[i]))
    {
    }
  }

  // In the window, widened by an hour before and half a minute after, and well formed.
  predicate InScope(item: Item, w: Span) {
    RevisionName(item.revision) && item.deployedAt.Some?
      && w.start - HOUR <= item.deployedAt.value <= w.end + 30 * SECOND
  }

  function InScopeOf(history: seq<Item>, w: Span): seq<Deployment> {
    if history == [] then []
    else
      var n := |history| - 1; var item := history[n];
      InScopeOf(history[..n], w) +
        if InScope(item, w) then [Deployment(item.id, Lower(item.revision), item.deployedAt.value)] else []
  }

  ghost predicate NewestFirst(d: seq<Deployment>) {
    forall i, j :: 0 <= i < j < |d| ==> d[i].deployedAt >= d[j].deployedAt
  }

  lemma InsertionKeepsOrder(r: seq<Deployment>, x: Deployment, k: nat)
    requires NewestFirst(r) && k <= |r|
    requires (forall j :: 0 <= j < k ==> r[j].deployedAt >= x.deployedAt)
      && (k < |r| ==> r[k].deployedAt <= x.deployedAt)
    ensures NewestFirst(r[..k] + [x] + r[k..])
  {
    var all := r[..k] + [x] + r[k..];
    forall i, j | 0 <= i < j < |all| ensures all[i].deployedAt >= all[j].deployedAt {
      assert i < k ==> all[i] == r[i];
      assert i > k ==> all[i] == r[i - 1];
      assert j < k ==> all[j] == r[j];
      assert j > k ==> all[j] == r[j - 1];
      if i < k <= j && j > k { assert r[i].deployedAt >= r[k].deployedAt; }
    }
  }

  lemma InsertionAddsOne(r: seq<Deployment>, x: Deployment, k: nat)
    requires k <= |r|
    ensures multiset(r[..k] + [x] + r[k..]) == multiset(r) + multiset{x}
  {
    assert r == r[..k] + r[k..];
  }

  method PlaceFor(r: seq<Deployment>, x: Deployment) returns (k: nat)
    ensures k <= |r| && (forall j :: 0 <= j < k ==> r[j].deployedAt >= x.deployedAt)
      && (k < |r| ==> r[k].deployedAt < x.deployedAt)
  {
    k := 0;
    while k < |r| && r[k].deployedAt >= x.deployedAt
      invariant 0 <= k <= |r|
      invariant forall j :: 0 <= j < k ==> r[j].deployedAt >= x.deployedAt
    {
      k := k + 1;
    }
  }

  // sort.Slice by time, newest first, by insertion.  The order of deployments of one instant is not
  // part of the contract.
  method SortNewestFirst(d: seq<Deployment>) returns (r: seq<Deployment>)
    ensures NewestFirst(r) && multiset(r) == multiset(d)
  {
    r := [];
    for i := 0 to |d|
      invariant NewestFirst(r) && multiset(r) == multiset(d[..i])
    {
      var k := PlaceFor(r, d[i]);
      InsertionKeepsOrder(r, d[i], k);
      InsertionAddsOne(r, d[i], k);
      r := r[..k] + [d[i]] + r[k..];
      assert d[..i + 1] == d[..i] + [d[i]];
    }
    assert d[..|d|] == d;
  }

  // The newest of `all`, newest first: what is dropped is no more recent than anything kept.
  ghost predicate IsNewest(kept: seq<Deployment>, all: seq<Deployment>, limit: nat) {
    && |kept| == (if |all| <= limit then |all| else limit)
    && NewestFirst(kept)
    && multiset(kept) <= multiset(all)
    && forall d, k :: d in multiset(all) - multiset(kept) && k in kept ==> k.deployedAt >= d.deployedAt
  }

  lemma SplitBag(kept: seq<Deployment>, dropped: seq<Deployment>, sorted: seq<Deployment>, all: seq<Deployment>)
    requires sorted == kept + dropped && multiset(sorted) == multiset(all)
    ensures multiset(kept) <= multiset(all) && forall d :: d in multiset(all) - multiset(kept) <==> d in dropped
  {
    assert multiset(all) - multiset(kept) == multiset(dropped);
  }

  lemma FrontDominates(sorted: seq<Deployment>, n: nat, k: Deployment, d: Deployment)
    requires NewestFirst(sorted) && n <= |sorted| && k in sorted[..n] && d in sorted[n..]
    ensures k.deployedAt >= d.deployedAt
  {
    var i :| 0 <= i < n && sorted[i] == k;
    var j :| n <= j < |sorted| && sorted[j] == d;
  }

  lemma FrontOfSortedIsNewest(sorted: seq<Deployment>, all: seq<Deployment>, n: nat)
    requires NewestFirst(sorted) && multiset(sorted) == multiset(all) && n <= |sorted|
    requires n == if |all| <= MAX_DEPLOYMENTS then |all| else MAX_DEPLOYMENTS
    ensures IsNewest(sorted[..n], all, MAX_DEPLOYMENTS)
  {
    var kept, dropped := sorted[..n], sorted[n..];
    assert sorted == kept + dropped;
    SplitBag(kept, dropped, sorted, all);
    forall d, k | d in dropped && k in kept ensures k.deployedAt >= d.deployedAt {
      FrontDominates(sorted, n, k, d);
    }
  }

  method ProjectArgoHistory(
    app: Application, name: string, project: string, w: Span) returns (r: Result<seq<Deployment>>)
    ensures r.Ok? <==> app.name == name && (app.project == "" || app.project == project) && app.sources == 0
    ensures r.Ok? ==> IsNewest(r.value, InScopeOf(app.history, w), 20)
  {
    if app.name != name { return Err("Argo CD returned an unexpected application"); }
    if (app.project != "" && app.project != project) || app.sources > 0 {
      return Err("Argo CD returned an unsupported application");
    }
    var deployments: seq<Deployment> := [];
    var lowerBound := w.start - HOUR;
    for i := 0 to |app.history|
      invariant deployments == InScopeOf(app.history[..i], w)
    {
      var item := app.history[i];
      assert app.history[..i + 1][..i] == app.history[..i];
      if !RevisionName(item.revision) || item.deployedAt.None? || item.deployedAt.value < lowerBound
         || item.deployedAt.value > w.end + 30 * SECOND { continue; }
      deployments := deployments + [Deployment(item.id, Lower(item.revision), item.deployedAt.value)];
    }
    assert app.history[..|app.history|] == app.history;
    var sorted := SortNewestFirst(deployments);
    assert |sorted| == |multiset(sorted)| == |multiset(deployments)| == |deployments|;
    var n := if |sorted| > MAX_DEPLOYMENTS then MAX_DEPLOYMENTS else |sorted|;
    FrontOfSortedIsNewest(sorted, deployments, n);
    return Ok(sorted[..n]);
  }

  method NewestRevision(history: seq<Deployment>) returns (revision: string)
    ensures revision == if history != [] && RevisionName(history[0].revision) then history[0].revision else ""
  {
    if |history| == 0 { return ""; }
    revision := history[0].revision;
    if |revision| < 7 || |revision| > 64 { return ""; }
    for i := 0 to |revision|
      invariant forall k :: 0 <= k < i ==> Hex(revision[k])
    {
      if !Hex(revision[i]) { return ""; }
    }
  }

  predicate Contains(history: seq<Deployment>, revision: string) {
    exists i :: 0 <= i < |history| && Lower(history[i].revision) == Lower(revision)
  }

  method HistoryContainsRevision(history: seq<Deployment>, revision: string) returns (found: bool)
    ensures found <==> Contains(history, revision)
  {
    var want := Lower(revision);
    for i := 0 to |history|
      invariant forall k :: 0 <= k < i ==> Lower(history[k].revision) != want
    {
      if Lower(history[i].revision) == want { return true; }
    }
    return false;
  }

  // What is in scope: a revision of 7 to 64 hexadecimal digits, deployed at most an hour before the
  // window and half a minute after it.
  lemma {:induction false} InScopeIff(item: Item, w: Span)
    ensures InScope(item, w) <==>
      && 7 <= |item.revision| <= 64
      && (forall ch :: ch in item.revision ==> '0' <= ch <= '9' || 'a' <= ch <= 'f' || 'A' <= ch <= 'F')
      && item.deployedAt.Some?
      && w.start - 3_600_000_000_000 <= item.deployedAt.value <= w.end + 30_000_000_000
  {
    forall i | 0 <= i < |item.revision| ensures item.revision[i] in item.revision { }
  }

  ghost function ScopeOf(history: seq<Item>, w: Span): set<nat> {
    set i: nat | i < |history| && InScope(history[i], w)
  }

  // Every item in scope counts once.
  lemma {:induction false} OneForEachItem(history: seq<Item>, w: Span)
    ensures |InScopeOf(history, w)| == |ScopeOf(history, w)|
  {
    if history != [] {
      var n := |history| - 1;
      OneForEachItem(history[..n], w);
      LastInScope(history, w);
    }
  }

  lemma {:induction false} LastInScope(history: seq<Item>, w: Span)
    requires history != []
    ensures var n := |history| - 1; var before := ScopeOf(history[..n], w);
      n !in before && ScopeOf(history, w) == if InScope(history[n], w) then before + {n} else before
  {
    var n := |history| - 1;
    forall i: nat ensures i in ScopeOf(history, w) <==>
      i in ScopeOf(history[..n], w) || (i == n && InScope(history[n], w))
    {
      if i < n { assert history[..n][i] == history[i]; }
    }
  }

  lemma {:induction false} InScopeDeployments(history: seq<Item>, w: Span, d: Deployment)
    ensures d in InScopeOf(history, w) <==>
      exists item ::
        item in history && InScope(item, w) && d == Deployment(item.id, Lower(item.revision), item.deployedAt.value)
  {
    if history != [] {
      var n := |history| - 1;
      InScopeDeployments(history[..n], w, d);
      assert history == history[..n] + [history[n]];
      assert history[n] in history;
    }
  }

  // Of a non-empty selection the collector follows up the first revision.  It names a most recent
  // deployment of all in scope, and the backend finds it, however it is capitalised.
  lemma {:induction false} NewestRevisionIsFollowable(history: seq<Item>, w: Span, kept: seq<Deployment>)
    requires IsNewest(kept, InScopeOf(history, w), MAX_DEPLOYMENTS) && InScopeOf(history, w) != []
    ensures kept != [] && RevisionName(kept[0].revision)
    ensures forall revision :: Lower(revision) == Lower(kept[0].revision) ==> Contains(kept, revision)
    ensures forall item :: item in history && InScope(item, w) ==> item.deployedAt.value <= kept[0].deployedAt
    ensures exists item ::
      item in history && InScope(item, w) && Lower(item.revision) == kept[0].revision
        && item.deployedAt == Some(kept[0].deployedAt)
  {
    var all, first := InScopeOf(history, w), kept[0];
    assert first in multiset(kept) && first in multiset(all);
    InScopeDeployments(history, w, first);
    var source :| source in history && InScope(source, w)
      && first == Deployment(source.id, Lower(source.revision), source.deployedAt.value);
    LowerTwice(source.revision);
    assert Lower(kept[0].revision) == Lower(first.revision);
    forall item | item in history && InScope(item, w) ensures item.deployedAt.value <= first.deployedAt {
      var d := Deployment(item.id, Lower(item.revision), item.deployedAt.value);
      InScopeDeployments(history, w, d);
      assert d in multiset(all);
      if d in multiset(kept) {
        var i :| 0 <= i < |kept| && kept[i] == d;
      } else {
        assert d in multiset(all) - multiset(kept);
      }
    }
  }
}
