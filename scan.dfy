/**
 * The periodic scan of `HandleAll` and `search` as pure specifications: the
 * search query string, the pages the pagination loop consumes, and the calls
 * made for every pull request found.
 */
module Scan {
  import opened Wrappers
  import opened Strings
  import opened GitHub
  import opened Rules

  const BaseQuery := "archived:false is:pr is:open"

  /** One scope clause, ` org:"name"` or ` repo:"name"`. */
  function Clause(kind: string, name: string): string {
    " " + kind + ":\"" + name + "\""
  }

  /** The clauses for `names`, in order. */
  function Clauses(kind: string, names: seq<string>): string
    decreases |names|
  {
    if names == [] then "" else Clauses(kind, names[..|names| - 1]) + Clause(kind, names[|names| - 1])
  }

  /** One more name: its clause follows those of the names before it. */
  lemma ClausesNext(kind: string, names: seq<string>, i: int)
    requires 0 <= i < |names|
    ensures Clauses(kind, names[..i + 1]) == Clauses(kind, names[..i]) + Clause(kind, names[i])
  {
    assert names[..i + 1][..i] == names[..i];
  }

  /** The search query `HandleAll` builds for the enabled orgs and repos. */
  function QuerySpec(orgs: seq<string>, repos: seq<string>): string {
    BaseQuery + Clauses("org", orgs) + Clauses("repo", repos)
  }

  lemma {:induction false} ClausesNameEach(kind: string, names: seq<string>, i: int)
    requires 0 <= i < |names|
    ensures Contains(Clauses(kind, names), Clause(kind, names[i]))
    decreases |names|
  {
    var init := names[..|names| - 1];
    if i == |names| - 1 {
      ContainsInside(Clauses(kind, init), Clause(kind, names[i]), "");
      assert Clauses(kind, init) + Clause(kind, names[i]) + "" == Clauses(kind, names);
    } else {
      assert init[i] == names[i];
      ClausesNameEach(kind, init, i);
      ContainsGrow("", Clauses(kind, init), Clause(kind, names[|names| - 1]), Clause(kind, names[i]));
      assert "" + Clauses(kind, init) + Clause(kind, names[|names| - 1]) == Clauses(kind, names);
    }
  }

  /** The query starts with the base predicate and names every enabled org and repo. */
  lemma QueryNamesEveryScope(orgs: seq<string>, repos: seq<string>)
    ensures HasPrefix(QuerySpec(orgs, repos), BaseQuery)
    ensures forall i :: 0 <= i < |orgs| ==> Contains(QuerySpec(orgs, repos), Clause("org", orgs[i]))
    ensures forall i :: 0 <= i < |repos| ==> Contains(QuerySpec(orgs, repos), Clause("repo", repos[i]))
  {
    var q := QuerySpec(orgs, repos);
    assert q[..|BaseQuery|] == BaseQuery;
    forall i | 0 <= i < |orgs|
      ensures Contains(q, Clause("org", orgs[i]))
    {
      ClausesNameEach("org", orgs, i);
      ContainsGrow(BaseQuery, Clauses("org", orgs), Clauses("repo", repos), Clause("org", orgs[i]));
    }
    forall i | 0 <= i < |repos|
      ensures Contains(q, Clause("repo", repos[i]))
    {
      ClausesNameEach("repo", repos, i);
      ContainsGrow(BaseQuery + Clauses("org", orgs), Clauses("repo", repos), "", Clause("repo", repos[i]));
      assert BaseQuery + Clauses("org", orgs) + Clauses("repo", repos) + "" == q;
    }
  }

  // ---- Pagination ----

  /** What `search` hands back: the hits, the summed cost, the last remaining budget. */
  datatype Collected = Collected(prs: seq<SearchPR>, totalCost: int, remaining: int)

  /** A run of the pagination loop: its queries, how many pages it used, its result. */
  datatype Pagination = Pagination(calls: seq<Call>, consumed: nat, result: Result<Collected>)

  /** The loop ends on this page: the query failed or there is no next page. */
  predicate Stops(p: PageResult) {
    p.Failure? || !p.value.hasNextPage
  }

  /** The page script is finite: some page stops the loop. */
  predicate Ends(pages: seq<PageResult>)
    decreases |pages|
  {
    |pages| > 0 && (Stops(pages[0]) || Ends(pages[1..]))
  }

  /** Puts pages already read in front of the run that follows them. */
  function Accumulate(calls: seq<Call>, consumed: nat, prs: seq<SearchPR>, cost: int, rest: Pagination): Pagination {
    Pagination(calls + rest.calls, consumed + rest.consumed,
               match rest.result
               case Failure(e) => Failure(e)
               case Success(f) => Success(Collected(prs + f.prs, cost + f.totalCost, f.remaining)))
  }

  /** Reading pages in two stretches is reading them in one. */
  lemma AccumulateTwice(c1: seq<Call>, n1: nat, p1: seq<SearchPR>, k1: int,
                        c2: seq<Call>, n2: nat, p2: seq<SearchPR>, k2: int, r: Pagination)
    ensures Accumulate(c1, n1, p1, k1, Accumulate(c2, n2, p2, k2, r)) ==
            Accumulate(c1 + c2, n1 + n2, p1 + p2, k1 + k2, r)
  {
    assert c1 + (c2 + r.calls) == (c1 + c2) + r.calls;
    if r.result.Success? {
      assert p1 + (p2 + r.result.value.prs) == (p1 + p2) + r.result.value.prs;
    }
  }

  /** The pagination loop of `search` over the page script, from the given cursor. */
  function Paginate(pages: seq<PageResult>, q: string, cursor: Option<string>): Pagination
    requires Ends(pages)
    decreases |pages|
  {
    var call := QueryWithGitHubAppsSupport(q, cursor);
    match pages[0]
    case Failure(e) => Pagination([call], 1, Failure(e))
    case Success(p) =>
      if !p.hasNextPage then Pagination([call], 1, Success(Collected(p.nodes, p.cost, p.remaining)))
      else
        Accumulate([call], 1, p.nodes, p.cost, Paginate(pages[1..], q, Some(p.endCursor)))
  }

  /**
   * The same loop in the shape `search` runs it: the queries made, the pages
   * read, the hits and the cost so far are carried along.
   */
  function Resume(pages: seq<PageResult>, q: string, cursor: Option<string>,
                  calls: seq<Call>, consumed: nat, prs: seq<SearchPR>, cost: int): Pagination
    requires Ends(pages)
    decreases |pages|
  {
    var calls' := calls + [QueryWithGitHubAppsSupport(q, cursor)];
    match pages[0]
    case Failure(e) => Pagination(calls', consumed + 1, Failure(e))
    case Success(p) =>
      if !p.hasNextPage then Pagination(calls', consumed + 1, Success(Collected(prs + p.nodes, cost + p.cost, p.remaining)))
      else
        Resume(pages[1..], q, Some(p.endCursor), calls', consumed + 1, prs + p.nodes, cost + p.cost)
  }

  /** Resuming with what was read so far is reading it, then paginating the rest. */
  lemma {:induction false} ResumeIsPaginate(pages: seq<PageResult>, q: string, cursor: Option<string>,
                                            calls: seq<Call>, consumed: nat, prs: seq<SearchPR>, cost: int)
    requires Ends(pages)
    ensures Resume(pages, q, cursor, calls, consumed, prs, cost) ==
            Accumulate(calls, consumed, prs, cost, Paginate(pages, q, cursor))
    decreases |pages|
  {
    if !Stops(pages[0]) {
      var p := pages[0].value;
      var call := QueryWithGitHubAppsSupport(q, cursor);
      ResumeIsPaginate(pages[1..], q, Some(p.endCursor), calls + [call], consumed + 1, prs + p.nodes, cost + p.cost);
      AccumulateTwice(calls, consumed, prs, cost, [call], 1, p.nodes, p.cost, Paginate(pages[1..], q, Some(p.endCursor)));
    }
  }

  /** From the start, the loop's form is the pagination itself, after the calls made before it. */
  lemma ResumeFromStart(pages: seq<PageResult>, q: string, calls: seq<Call>)
    requires Ends(pages)
    ensures var s := Paginate(pages, q, None);
      Resume(pages, q, None, calls, 0, [], 0) == Pagination(calls + s.calls, s.consumed, s.result)
  {
    ResumeIsPaginate(pages, q, None, calls, 0, [], 0);
    var whole := Paginate(pages, q, None);
    if whole.result.Success? {
      var f := whole.result.value;
      assert Collected([] + f.prs, 0 + f.totalCost, f.remaining) == f;
    }
  }

  /** The hits of the pages read, in order. */
  function Nodes(pages: seq<PageResult>): seq<SearchPR> {
    if pages == [] then []
    else (if pages[0].Success? then pages[0].value.nodes else []) + Nodes(pages[1..])
  }

  /** The summed rate-limit cost of the pages read. */
  function Cost(pages: seq<PageResult>): int {
    if pages == [] then 0
    else (if pages[0].Success? then pages[0].value.cost else 0) + Cost(pages[1..])
  }

  /**
   * The loop reads pages up to and including the first one that stops it, and
   * queries first without a cursor, then with each page's end cursor.
   */
  lemma {:induction false} PaginateStopsAtFirstStop(pages: seq<PageResult>, q: string, cursor: Option<string>)
    requires Ends(pages)
    ensures var r := Paginate(pages, q, cursor);
      1 <= r.consumed <= |pages| && Stops(pages[r.consumed - 1]) &&
      (forall i :: 0 <= i < r.consumed - 1 ==> pages[i].Success? && pages[i].value.hasNextPage)
    ensures var r := Paginate(pages, q, cursor);
      |r.calls| == r.consumed && r.calls[0] == QueryWithGitHubAppsSupport(q, cursor) &&
      (forall i :: 0 < i < r.consumed ==>
         r.calls[i] == QueryWithGitHubAppsSupport(q, Some(pages[i - 1].value.endCursor)))
    decreases |pages|
  {
    var r := Paginate(pages, q, cursor);
    if !Stops(pages[0]) {
      var p := pages[0].value;
      var rest := Paginate(pages[1..], q, Some(p.endCursor));
      PaginateStopsAtFirstStop(pages[1..], q, Some(p.endCursor));
      assert r.calls == [QueryWithGitHubAppsSupport(q, cursor)] + rest.calls;
      forall i | 0 < i < r.consumed
        ensures r.calls[i] == QueryWithGitHubAppsSupport(q, Some(pages[i - 1].value.endCursor))
      {
        if i > 1 {
          assert r.calls[i] == rest.calls[i - 1];
          assert pages[1..][i - 2] == pages[i - 1];
        }
      }
      forall i | 0 <= i < r.consumed - 1
        ensures pages[i].Success? && pages[i].value.hasNextPage
      {
        if i > 0 {
          assert pages[1..][i - 1] == pages[i];
        }
      }
    }
  }

  /**
   * A failed page is the result; otherwise the result is every hit of the
   * pages read in order, their summed cost and the last page's remaining budget.
   */
  lemma {:induction false} PaginateCollects(pages: seq<PageResult>, q: string, cursor: Option<string>)
    requires Ends(pages)
    ensures var r := Paginate(pages, q, cursor);
      1 <= r.consumed <= |pages| &&
      (r.result.Failure? <==> pages[r.consumed - 1].Failure?) &&
      (r.result.Failure? ==> r.result.error == pages[r.consumed - 1].error) &&
      (r.result.Success? ==>
         r.result.value == Collected(Nodes(pages[..r.consumed]), Cost(pages[..r.consumed]),
                                     pages[r.consumed - 1].value.remaining))
    decreases |pages|
  {
    var r := Paginate(pages, q, cursor);
    if Stops(pages[0]) {
      assert pages[..1] == [pages[0]];
      assert pages[..1][1..] == [];
    } else {
      var p := pages[0].value;
      var rest := Paginate(pages[1..], q, Some(p.endCursor));
      PaginateCollects(pages[1..], q, Some(p.endCursor));
      var k := rest.consumed;
      assert r.consumed == k + 1;
      assert pages[..k + 1][0] == pages[0];
      assert pages[..k + 1][1..] == pages[1..][..k];
      assert pages[1..][k - 1] == pages[k];
    }
  }

  // ---- Reconciling the hits ----

  /** `hasLabel` of a hit: one of its label nodes is named `needs-retitle`. */
  predicate HitHasLabel(pr: SearchPR) {
    NeedsRetitleLabel in pr.labels
  }

  /** The calls `HandleAll` makes for one hit. */
  function HitCalls(lib: Helpers, resp: Responses, c: PluginConfig, pr: SearchPR): seq<Call>
    requires resp.WellFormed()
  {
    TakeActionOutcome(lib, resp, pr.repoOwner, pr.repoName, pr.number, pr.author, HitHasLabel(pr), pr.title, c).calls
  }

  /** The calls for every hit in order; the error of one does not stop the next. */
  function TakeActionAll(lib: Helpers, resp: Responses, c: PluginConfig, prs: seq<SearchPR>): seq<Call>
    requires resp.WellFormed()
    decreases |prs|
  {
    if prs == [] then []
    else TakeActionAll(lib, resp, c, prs[..|prs| - 1]) + HitCalls(lib, resp, c, prs[|prs| - 1])
  }

  lemma {:induction false} TakeActionAllAppend(lib: Helpers, resp: Responses, c: PluginConfig,
                                               a: seq<SearchPR>, b: seq<SearchPR>)
    requires resp.WellFormed()
    ensures TakeActionAll(lib, resp, c, a + b) == TakeActionAll(lib, resp, c, a) + TakeActionAll(lib, resp, c, b)
    decreases |b|
  {
    if b == [] {
      assert a + b == a;
    } else {
      var init := b[..|b| - 1];
      assert (a + b)[..|a + b| - 1] == a + init;
      TakeActionAllAppend(lib, resp, c, a, init);
    }
  }

  /** One more hit processed: its calls follow those of the hits before it. */
  lemma TakeActionAllNext(lib: Helpers, resp: Responses, c: PluginConfig, prs: seq<SearchPR>, i: int)
    requires resp.WellFormed() && 0 <= i < |prs|
    ensures TakeActionAll(lib, resp, c, prs[..i + 1]) == TakeActionAll(lib, resp, c, prs[..i]) + HitCalls(lib, resp, c, prs[i])
  {
    assert prs[..i + 1][..i] == prs[..i];
  }

  /** Appending in two steps is appending at once. */
  lemma AppendTwice<T>(t: seq<T>, a: seq<T>, b: seq<T>)
    ensures t + a + b == t + (a + b)
  {
  }

  /** Every hit gets its own calls, between those of the hits before and after it. */
  lemma EveryHitProcessed(lib: Helpers, resp: Responses, c: PluginConfig, prs: seq<SearchPR>, i: int)
    requires resp.WellFormed() && 0 <= i < |prs|
    ensures TakeActionAll(lib, resp, c, prs) ==
      TakeActionAll(lib, resp, c, prs[..i]) + HitCalls(lib, resp, c, prs[i]) + TakeActionAll(lib, resp, c, prs[i + 1..])
  {
    assert prs == prs[..i] + [prs[i]] + prs[i + 1..];
    TakeActionAllAppend(lib, resp, c, prs[..i] + [prs[i]], prs[i + 1..]);
    TakeActionAllAppend(lib, resp, c, prs[..i], [prs[i]]);
    assert [prs[i]][..0] == [];
  }
}
