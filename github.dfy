/**
 * The GitHub side of the plugin: the shapes of the objects it reads (reduced to
 * the fields it uses), the `githubClient` interface as a scripted client that
 * records every call in a ghost trace, and the prow library helpers it calls.
 */
module GitHub {
  import opened Wrappers

  const PullRequestActionOpened := "opened"
  const PullRequestActionSynchronize := "synchronize"
  const PullRequestActionReopened := "reopened"
  const PullRequestActionEdited := "edited"

  datatype Label = Label(name: string)

  datatype UserData = UserData(login: string, name: string)

  /** `github.PullRequest`: base repository owner and name, number, author login, title, merged flag. */
  datatype PullRequest = PullRequest(
    org: string, repo: string, number: int, authorLogin: string, title: string, merged: bool)

  datatype PullRequestEvent = PullRequestEvent(action: string, pullRequest: PullRequest)

  /** `github.Issue`: `isPullRequest` stands for `Issue.PullRequest != nil`. */
  datatype Issue = Issue(number: int, isPullRequest: bool)

  /** `github.IssueComment`: author login and body. */
  datatype Comment = Comment(author: string, body: string)

  datatype IssueCommentEvent = IssueCommentEvent(repoOwner: string, repoName: string, issue: Issue)

  /** One search hit: the `pullRequest` GraphQL shape, labels reduced to their names. */
  datatype SearchPR = SearchPR(
    number: int, title: string, author: string, repoName: string, repoOwner: string, labels: seq<string>)

  /** One answer to the search query: rate-limit figures, page info and the hits. */
  datatype SearchPage = SearchPage(
    cost: int, remaining: int, hasNextPage: bool, endCursor: string, nodes: seq<SearchPR>)

  type PageResult = Result<SearchPage>

  /** `BotUser()` answers a pointer and an error, each possibly nil. */
  datatype BotReply = BotReply(user: Option<UserData>, err: Option<Error>) {
    /** The client's contract: a reply without an error carries a user. */
    predicate WellFormed() {
      err.None? ==> user.Some?
    }
  }

  /** A call on the client, with its arguments. */
  datatype Call =
    | GetIssueLabels(org: string, repo: string, number: int)
    | CreateComment(org: string, repo: string, number: int, comment: string)
    | BotUser
    | AddLabel(org: string, repo: string, number: int, labelName: string)
    | RemoveLabel(org: string, repo: string, number: int, labelName: string)
    | DeleteStaleComments(org: string, repo: string, number: int, isStale: Comment -> bool)
    | QueryWithGitHubAppsSupport(query: string, searchCursor: Option<string>)
    | GetPullRequest(org: string, repo: string, number: int)

  /**
   * What the GitHub API answers. `mutation` gives the error (if any) of
   * `CreateComment`, `AddLabel`, `RemoveLabel` and `DeleteStaleComments`.
   */
  datatype Responses = Responses(
    issueLabels: (string, string, int) -> Result<seq<Label>>,
    mutation: Call -> Option<Error>,
    botUser: BotReply,
    pullRequest: (string, string, int) -> Result<PullRequest>)
  {
    predicate WellFormed() {
      botUser.WellFormed()
    }
  }

  /**
   * Library code the plugin calls: `github.NormLogin`, `github.HasLabel` and
   * `plugins.FormatSimpleResponse`.
   */
  datatype Helpers = Helpers(
    normLogin: string -> string,
    hasLabel: (string, seq<Label>) -> bool,
    formatSimpleResponse: (string, string) -> string)

  /**
   * The `githubClient` the plugin is given. Answers come from `responses`;
   * search pages are served in order from the finite script `pages`.
   */
  class Client {
    const responses: Responses
    const pages: seq<PageResult>
    var served: nat
    ghost var trace: seq<Call>

    constructor (responses: Responses, pages: seq<PageResult>)
      ensures this.responses == responses && this.pages == pages
      ensures served == 0 && trace == []
    {
      this.responses := responses;
      this.pages := pages;
      served := 0;
      trace := [];
    }

    method GetIssueLabels(org: string, repo: string, number: int) returns (r: Result<seq<Label>>)
      modifies this`trace
      ensures trace == old(trace) + [Call.GetIssueLabels(org, repo, number)]
      ensures r == responses.issueLabels(org, repo, number)
    {
      trace := trace + [Call.GetIssueLabels(org, repo, number)];
      r := responses.issueLabels(org, repo, number);
    }

    method CreateComment(org: string, repo: string, number: int, comment: string) returns (err: Option<Error>)
      modifies this`trace
      ensures trace == old(trace) + [Call.CreateComment(org, repo, number, comment)]
      ensures err == responses.mutation(Call.CreateComment(org, repo, number, comment))
    {
      trace := trace + [Call.CreateComment(org, repo, number, comment)];
      err := responses.mutation(Call.CreateComment(org, repo, number, comment));
    }

    method BotUser() returns (user: Option<UserData>, err: Option<Error>)
      modifies this`trace
      ensures trace == old(trace) + [Call.BotUser]
      ensures BotReply(user, err) == responses.botUser
    {
      trace := trace + [Call.BotUser];
      user, err := responses.botUser.user, responses.botUser.err;
    }

    method AddLabel(org: string, repo: string, number: int, labelName: string) returns (err: Option<Error>)
      modifies this`trace
      ensures trace == old(trace) + [Call.AddLabel(org, repo, number, labelName)]
      ensures err == responses.mutation(Call.AddLabel(org, repo, number, labelName))
    {
      trace := trace + [Call.AddLabel(org, repo, number, labelName)];
      err := responses.mutation(Call.AddLabel(org, repo, number, labelName));
    }

    method RemoveLabel(org: string, repo: string, number: int, labelName: string) returns (err: Option<Error>)
      modifies this`trace
      ensures trace == old(trace) + [Call.RemoveLabel(org, repo, number, labelName)]
      ensures err == responses.mutation(Call.RemoveLabel(org, repo, number, labelName))
    {
      trace := trace + [Call.RemoveLabel(org, repo, number, labelName)];
      err := responses.mutation(Call.RemoveLabel(org, repo, number, labelName));
    }

    method DeleteStaleComments(org: string, repo: string, number: int, isStale: Comment -> bool)
      returns (err: Option<Error>)
      modifies this`trace
      ensures trace == old(trace) + [Call.DeleteStaleComments(org, repo, number, isStale)]
      ensures err == responses.mutation(Call.DeleteStaleComments(org, repo, number, isStale))
    {
      trace := trace + [Call.DeleteStaleComments(org, repo, number, isStale)];
      err := responses.mutation(Call.DeleteStaleComments(org, repo, number, isStale));
    }

    /** Runs the search query once; the next page of the script answers it. */
    method QueryWithGitHubAppsSupport(query: string, searchCursor: Option<string>) returns (r: PageResult)
      requires served < |pages|
      modifies this`trace, this`served
      ensures trace == old(trace) + [Call.QueryWithGitHubAppsSupport(query, searchCursor)]
      ensures served == old(served) + 1 && r == pages[old(served)]
    {
      trace := trace + [Call.QueryWithGitHubAppsSupport(query, searchCursor)];
      r := pages[served];
      served := served + 1;
    }

    method GetPullRequest(org: string, repo: string, number: int) returns (r: Result<PullRequest>)
      modifies this`trace
      ensures trace == old(trace) + [Call.GetPullRequest(org, repo, number)]
      ensures r == responses.pullRequest(org, repo, number)
    {
      trace := trace + [Call.GetPullRequest(org, repo, number)];
      r := responses.pullRequest(org, repo, number);
    }
  }
}
