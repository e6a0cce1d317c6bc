/**
 * `pkg/plugin/plugin.go`: the `Plugin` object holding the active
 * configuration, its event handlers, the periodic `HandleAll` scan, and the
 * `search` pagination loop. Each is proved against the specifications in
 * `Rules` and `Scan`.
 */
module Plugin {
  import opened Wrappers
  import Regex
  import opened GitHub
  import opened Rules
  import opened Scan

  class Plugin {
    /** `p.c`: nil until the first `SetConfig`. */
    var c: Option<PluginConfig>

    constructor ()
      ensures c.None?
    {
      c := None;
    }

    method SetConfig(m: string, r: Regex.Regexp)
      modifies this
      ensures c == Some(PluginConfig(EffectiveMessage(m, r), r))
    {
      var errorMessage := DefaultMessagePrefix + Regex.String(r);
      if |m| > 0 {
        errorMessage := m;
      }
      c := Some(PluginConfig(errorMessage, r));
    }

    method GetConfig() returns (cfg: Option<PluginConfig>)
      ensures cfg == c
    {
      cfg := c;
    }

    method HandlePullRequestEvent(lib: Helpers, ghc: Client, pre: PullRequestEvent) returns (err: Option<Error>)
      requires ghc.responses.WellFormed()
      modifies ghc`trace
      ensures var o := PullRequestEventOutcome(lib, ghc.responses, c, pre);
        ghc.trace == old(ghc.trace) + o.calls && err == o.err
    {
      if pre.action != PullRequestActionOpened && pre.action != PullRequestActionSynchronize &&
         pre.action != PullRequestActionReopened && pre.action != PullRequestActionEdited {
        return None;
      }
      err := Handle(lib, ghc, pre.pullRequest);
    }

    method HandleIssueCommentEvent(lib: Helpers, ghc: Client, ice: IssueCommentEvent) returns (err: Option<Error>)
      requires ghc.responses.WellFormed()
      modifies ghc`trace
      ensures var o := IssueCommentEventOutcome(lib, ghc.responses, c, ice);
        ghc.trace == old(ghc.trace) + o.calls && err == o.err
    {
      if !ice.issue.isPullRequest {
        return None;
      }
      var pr := ghc.GetPullRequest(ice.repoOwner, ice.repoName, ice.issue.number);
      if pr.Failure? {
        return Some(pr.error);
      }
      err := Handle(lib, ghc, pr.value);
    }

    /** `handle`. */
    method Handle(lib: Helpers, ghc: Client, pr: PullRequest) returns (err: Option<Error>)
      requires ghc.responses.WellFormed()
      modifies ghc`trace
      ensures var o := HandleOutcome(lib, ghc.responses, c, pr);
        ghc.trace == old(ghc.trace) + o.calls && err == o.err
    {
      if pr.merged {
        return None;
      }
      var cfg := GetConfig();
      if cfg.None? {
        return None;
      }
      var issueLabels := ghc.GetIssueLabels(pr.org, pr.repo, pr.number);
      if issueLabels.Failure? {
        return Some(issueLabels.error);
      }
      var hasLabel := lib.hasLabel(NeedsRetitleLabel, issueLabels.value);
      err := TakeAction(lib, ghc, pr.org, pr.repo, pr.number, pr.authorLogin, hasLabel, pr.title, cfg.value);
    }

    /** `HandleAll`, with the enabled orgs and repos given as inputs. */
    method HandleAll(lib: Helpers, ghc: Client, orgs: seq<string>, repos: seq<string>) returns (err: Option<Error>)
      requires ghc.responses.WellFormed() && ghc.served <= |ghc.pages| && Ends(ghc.pages[ghc.served..])
      modifies ghc
      ensures c.None? || (|orgs| == 0 && |repos| == 0) ==>
        ghc.trace == old(ghc.trace) && ghc.served == old(ghc.served) && err.None?
      ensures c.Some? && (|orgs| > 0 || |repos| > 0) ==>
        var s := Paginate(ghc.pages[old(ghc.served)..], QuerySpec(orgs, repos), None);
        ghc.served == old(ghc.served) + s.consumed &&
        (s.result.Failure? ==> ghc.trace == old(ghc.trace) + s.calls && err == Some(s.result.error)) &&
        (s.result.Success? ==>
           ghc.trace == old(ghc.trace) + s.calls + TakeActionAll(lib, ghc.responses, c.value, s.result.value.prs) &&
           err.None?)
    {
      var cfg := GetConfig();
      if cfg.None? {
        return None;
      }
      if |orgs| == 0 && |repos| == 0 {
        return None;
      }
      var q := BuildQuery(orgs, repos);
      var found := Search(ghc, q);
      if found.Failure? {
        return Some(found.error);
      }
      var prs := found.value.prs;
      ghost var before := ghc.trace;
      ghost var served := ghc.served;
      for i := 0 to |prs|
        invariant ghc.trace == before + TakeActionAll(lib, ghc.responses, cfg.value, prs[..i])
        invariant ghc.served == served
      {
        var pr := prs[i];
        var hasLabel := HasRetitleLabel(pr.labels);
        assert hasLabel == HitHasLabel(pr);
        ghost var done := TakeActionAll(lib, ghc.responses, cfg.value, prs[..i]);
        // an error here is only logged
        var actionErr := TakeAction(lib, ghc, pr.repoOwner, pr.repoName, pr.number, pr.author, hasLabel, pr.title, cfg.value);
        TakeActionAllNext(lib, ghc.responses, cfg.value, prs, i);
        AppendTwice(before, done, HitCalls(lib, ghc.responses, cfg.value, pr));
      }
      assert prs[..|prs|] == prs;
      err := None;
    }

    /** `takeAction`. */
    method TakeAction(lib: Helpers, ghc: Client, org: string, repo: string, num: int, author: string,
                      hasLabel: bool, title: string, cfg: PluginConfig) returns (err: Option<Error>)
      requires ghc.responses.WellFormed()
      modifies ghc`trace
      ensures var o := TakeActionOutcome(lib, ghc.responses, org, repo, num, author, hasLabel, title, cfg);
        ghc.trace == old(ghc.trace) + o.calls && err == o.err
    {
      var needsRetitleMessage := cfg.errorMessage;
      var titleOk := Regex.MatchString(cfg.re, title);
      if !titleOk && !hasLabel {
        // a failed AddLabel is only logged
        var addErr := ghc.AddLabel(org, repo, num, NeedsRetitleLabel);
        var msg := lib.formatSimpleResponse(author, needsRetitleMessage);
        err := ghc.CreateComment(org, repo, num, msg);
      } else if titleOk && hasLabel {
        // a failed RemoveLabel is only logged
        var removeErr := ghc.RemoveLabel(org, repo, num, NeedsRetitleLabel);
        var botUser, botErr := ghc.BotUser();
        if botErr.Some? {
          return botErr;
        }
        err := ghc.DeleteStaleComments(org, repo, num, ShouldPrune(lib, botUser.value.login, needsRetitleMessage));
      } else {
        err := None;
      }
    }
  }

  /** The query-building loops of `HandleAll`. */
  method BuildQuery(orgs: seq<string>, repos: seq<string>) returns (q: string)
    ensures q == QuerySpec(orgs, repos)
  {
    q := BaseQuery;
    for i := 0 to |orgs|
      invariant q == BaseQuery + Clauses("org", orgs[..i])
    {
      ClausesNext("org", orgs, i);
      AppendTwice(BaseQuery, Clauses("org", orgs[..i]), Clause("org", orgs[i]));
      q := q + Clause("org", orgs[i]);
    }
    assert orgs[..|orgs|] == orgs;
    for i := 0 to |repos|
      invariant q == BaseQuery + Clauses("org", orgs) + Clauses("repo", repos[..i])
    {
      ClausesNext("repo", repos, i);
      AppendTwice(BaseQuery + Clauses("org", orgs), Clauses("repo", repos[..i]), Clause("repo", repos[i]));
      q := q + Clause("repo", repos[i]);
    }
    assert repos[..|repos|] == repos;
  }

  /** The label scan of `HandleAll`, which stops at the first `needs-retitle` node. */
  method HasRetitleLabel(labels: seq<string>) returns (hasLabel: bool)
    ensures hasLabel <==> exists i :: 0 <= i < |labels| && labels[i] == NeedsRetitleLabel
  {
    hasLabel := false;
    for i := 0 to |labels|
      invariant !hasLabel
      invariant forall j :: 0 <= j < i ==> labels[j] != NeedsRetitleLabel
    {
      if labels[i] == NeedsRetitleLabel {
        hasLabel := true;
        break;
      }
    }
  }

  /**
   * `search`: query page after page, collecting the hits and the rate-limit
   * figures, until a page has no next page; any failed query is the result.
   */
  method Search(ghc: Client, q: string) returns (r: Result<Collected>)
    requires ghc.served <= |ghc.pages| && Ends(ghc.pages[ghc.served..])
    modifies ghc`trace, ghc`served
    ensures var s := Paginate(ghc.pages[old(ghc.served)..], q, None);
      ghc.served == old(ghc.served) + s.consumed && ghc.trace == old(ghc.trace) + s.calls && r == s.result
  {
    var ret: seq<SearchPR> := [];
    var cursor: Option<string> := None;
    var totalCost := 0;
    var remaining := 0;
    ghost var start := ghc.served;
    ghost var whole := Resume(ghc.pages[start..], q, None, ghc.trace, 0, [], 0);
    ResumeFromStart(ghc.pages[start..], q, ghc.trace);
    while true
      invariant start <= ghc.served <= |ghc.pages| && Ends(ghc.pages[ghc.served..])
      invariant whole == Resume(ghc.pages[ghc.served..], q, cursor, ghc.trace, ghc.served - start, ret, totalCost)
      decreases |ghc.pages| - ghc.served
    {
      ghost var rest := ghc.pages[ghc.served..];
      var sq := ghc.QueryWithGitHubAppsSupport(q, cursor);
      if sq.Failure? {
        return Failure(sq.error);
      }
      totalCost := totalCost + sq.value.cost;
      remaining := sq.value.remaining;
      ret := ret + sq.value.nodes;
      if !sq.value.hasNextPage {
        break;
      }
      cursor := Some(sq.value.endCursor);
      assert rest[1..] == ghc.pages[ghc.served..];
    }
    r := Success(Collected(ret, totalCost, remaining));
  }
}
