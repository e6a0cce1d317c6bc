/**
 * The needs-retitle reconciliation of `pkg/plugin/plugin.go` as pure
 * specifications: the decision over `(titleOk, hasLabel)`, the client calls
 * each entry point makes in order, and what it returns.
 */
module Rules {
  import opened Wrappers
  import opened Strings
  import Regex
  import opened GitHub

  const NeedsRetitleLabel := "needs-retitle"
  /** `defaultNeedsRetitleMessage` up to its `%s`, which the regular expression's source fills. */
  const DefaultMessagePrefix := "Wrong title for PR, allowed titles need to match the regular expression: "

  /** `pluginConfig`: the active message and compiled regular expression. */
  datatype PluginConfig = PluginConfig(errorMessage: string, re: Regex.Regexp)

  /** The message `SetConfig` stores for the configured message `m` and expression `r`. */
  function EffectiveMessage(m: string, r: Regex.Regexp): (msg: string)
    ensures |msg| > 0
    ensures |m| > 0 ==> msg == m
    ensures |m| == 0 ==> HasPrefix(msg, DefaultMessagePrefix) && msg[|DefaultMessagePrefix|..] == Regex.String(r)
  {
    var msg := DefaultMessagePrefix + Regex.String(r);
    assert msg[..|DefaultMessagePrefix|] == DefaultMessagePrefix;
    if |m| > 0 then m else msg
  }

  datatype Action = NoOp | AddLabelAndComment | RemoveLabelAndPrune

  /** The 2x2 decision of `takeAction`. */
  function Decide(titleOk: bool, hasLabel: bool): (a: Action)
    ensures a == AddLabelAndComment <==> !titleOk && !hasLabel
    ensures a == RemoveLabelAndPrune <==> titleOk && hasLabel
  {
    if !titleOk && !hasLabel then AddLabelAndComment
    else if titleOk && hasLabel then RemoveLabelAndPrune
    else NoOp
  }

  /** Whether the pull request carries the label once the action succeeded. */
  function LabelAfter(a: Action, hasLabel: bool): bool {
    match a
    case AddLabelAndComment => true
    case RemoveLabelAndPrune => false
    case NoOp => hasLabel
  }

  /** One successful action brings the label in line with the title, after which nothing is left to do. */
  lemma DecisionConverges(titleOk: bool, hasLabel: bool)
    ensures LabelAfter(Decide(titleOk, hasLabel), hasLabel) == !titleOk
    ensures Decide(titleOk, LabelAfter(Decide(titleOk, hasLabel), hasLabel)) == NoOp
  {
  }

  /** `shouldPrune(botName, msg)`: the comment is the bot's and mentions the message. */
  function ShouldPrune(lib: Helpers, botName: string, msg: string): Comment -> bool {
    (ic: Comment) => lib.normLogin(botName) == lib.normLogin(ic.author) && Contains(ic.body, msg)
  }

  /** The prune predicate selects exactly the bot's comments in which the message occurs somewhere. */
  lemma ShouldPruneSelects(lib: Helpers, botName: string, msg: string, ic: Comment)
    ensures ShouldPrune(lib, botName, msg)(ic) <==>
      lib.normLogin(botName) == lib.normLogin(ic.author) && exists i :: OccursAt(ic.body, msg, i)
  {
    ContainsIff(ic.body, msg);
  }

  /**
   * The bot account whose comments are pruned, read from a `BotUser()` reply:
   * the error first, then the user's login (see the findings in README.md).
   */
  function BotIdentity(reply: BotReply): (r: Result<string>)
    requires reply.WellFormed()
    ensures r.Failure? <==> reply.err.Some?
    ensures r.Failure? ==> r.error == reply.err.value
    ensures r.Success? ==> r.value == reply.user.value.login
  {
    match reply.err
    case Some(e) => Failure(e)
    case None => Success(reply.user.value.login)
  }

  /** What an entry point does: the client calls in order, and the error it returns. */
  datatype Outcome = Outcome(calls: seq<Call>, err: Option<Error>)

  const Quiet := Outcome([], None)

  /** `takeAction` on one pull request. */
  function TakeActionOutcome(lib: Helpers, resp: Responses, org: string, repo: string, num: int,
                             author: string, hasLabel: bool, title: string, c: PluginConfig): Outcome
    requires resp.WellFormed()
  {
    var msg := c.errorMessage;
    match Decide(Regex.MatchString(c.re, title), hasLabel)
    case AddLabelAndComment =>
      // a failed AddLabel is only logged
      var comment := CreateComment(org, repo, num, lib.formatSimpleResponse(author, msg));
      Outcome([AddLabel(org, repo, num, NeedsRetitleLabel), comment], resp.mutation(comment))
    case RemoveLabelAndPrune =>
      // a failed RemoveLabel is only logged
      var removed := [RemoveLabel(org, repo, num, NeedsRetitleLabel), BotUser];
      (match BotIdentity(resp.botUser)
       case Failure(e) => Outcome(removed, Some(e))
       case Success(bot) =>
         var delete := DeleteStaleComments(org, repo, num, ShouldPrune(lib, bot, msg));
         Outcome(removed + [delete], resp.mutation(delete)))
    case NoOp => Quiet
  }

  /** `handle`: skip merged pull requests and a missing configuration, read the labels, act. */
  function HandleOutcome(lib: Helpers, resp: Responses, cfg: Option<PluginConfig>, pr: PullRequest): Outcome
    requires resp.WellFormed()
  {
    if pr.merged || cfg.None? then Quiet
    else
      var get := GetIssueLabels(pr.org, pr.repo, pr.number);
      match resp.issueLabels(pr.org, pr.repo, pr.number)
      case Failure(e) => Outcome([get], Some(e))
      case Success(labels) =>
        var o := TakeActionOutcome(lib, resp, pr.org, pr.repo, pr.number, pr.authorLogin,
                                   lib.hasLabel(NeedsRetitleLabel, labels), pr.title, cfg.value);
        Outcome([get] + o.calls, o.err)
  }

  /** The pull request actions the plugin reacts to. */
  predicate IsRelevantAction(action: string) {
    action == PullRequestActionOpened || action == PullRequestActionSynchronize ||
    action == PullRequestActionReopened || action == PullRequestActionEdited
  }

  /** `HandlePullRequestEvent`. */
  function PullRequestEventOutcome(lib: Helpers, resp: Responses, cfg: Option<PluginConfig>,
                                   pre: PullRequestEvent): Outcome
    requires resp.WellFormed()
  {
    if !IsRelevantAction(pre.action) then Quiet else HandleOutcome(lib, resp, cfg, pre.pullRequest)
  }

  /** `HandleIssueCommentEvent`: only comments on pull requests, whose current state is fetched. */
  function IssueCommentEventOutcome(lib: Helpers, resp: Responses, cfg: Option<PluginConfig>,
                                    ice: IssueCommentEvent): Outcome
    requires resp.WellFormed()
  {
    if !ice.issue.isPullRequest then Quiet
    else
      var get := GetPullRequest(ice.repoOwner, ice.repoName, ice.issue.number);
      match resp.pullRequest(ice.repoOwner, ice.repoName, ice.issue.number)
      case Failure(e) => Outcome([get], Some(e))
      case Success(pr) =>
        var o := HandleOutcome(lib, resp, cfg, pr);
        Outcome([get] + o.calls, o.err)
  }

  // ---- Properties of the entry points ----

  /** Pull request events with another action cost nothing; the four listed ones are handled. */
  lemma PullRequestEventFilter(lib: Helpers, resp: Responses, cfg: Option<PluginConfig>, pre: PullRequestEvent)
    requires resp.WellFormed()
    ensures !IsRelevantAction(pre.action) ==> PullRequestEventOutcome(lib, resp, cfg, pre) == Quiet
    ensures IsRelevantAction(pre.action) ==>
      PullRequestEventOutcome(lib, resp, cfg, pre) == HandleOutcome(lib, resp, cfg, pre.pullRequest)
  {
  }

  /** Comments on plain issues cost nothing; a failed `GetPullRequest` is returned as it is. */
  lemma IssueCommentEventFilter(lib: Helpers, resp: Responses, cfg: Option<PluginConfig>, ice: IssueCommentEvent)
    requires resp.WellFormed()
    ensures !ice.issue.isPullRequest ==> IssueCommentEventOutcome(lib, resp, cfg, ice) == Quiet
    ensures ice.issue.isPullRequest && resp.pullRequest(ice.repoOwner, ice.repoName, ice.issue.number).Failure? ==>
      IssueCommentEventOutcome(lib, resp, cfg, ice) ==
        Outcome([GetPullRequest(ice.repoOwner, ice.repoName, ice.issue.number)],
                Some(resp.pullRequest(ice.repoOwner, ice.repoName, ice.issue.number).error))
  {
  }

  /** Merged pull requests and a missing configuration cost nothing, not even a label read. */
  lemma HandleSkips(lib: Helpers, resp: Responses, cfg: Option<PluginConfig>, pr: PullRequest)
    requires resp.WellFormed()
    ensures pr.merged || cfg.None? ==> HandleOutcome(lib, resp, cfg, pr) == Quiet
    ensures !pr.merged && cfg.Some? ==>
      var o := HandleOutcome(lib, resp, cfg, pr);
      |o.calls| > 0 && o.calls[0] == GetIssueLabels(pr.org, pr.repo, pr.number)
  {
  }

  /** A wrong, unlabelled title: one label added, then one comment, whose error is the result. */
  lemma AddLabelThenComment(lib: Helpers, resp: Responses, org: string, repo: string, num: int,
                            author: string, title: string, c: PluginConfig)
    requires resp.WellFormed() && !Regex.MatchString(c.re, title)
    ensures var o := TakeActionOutcome(lib, resp, org, repo, num, author, false, title, c);
      o.calls == [AddLabel(org, repo, num, NeedsRetitleLabel),
                  CreateComment(org, repo, num, lib.formatSimpleResponse(author, c.errorMessage))] &&
      o.err == resp.mutation(o.calls[1])
  {
  }

  /**
   * A right, labelled title: the label is removed, the bot looked up; its error
   * stops everything, otherwise the bot's comments that mention the message are
   * deleted and that deletion's error is the result.
   */
  lemma RemoveLabelThenPrune(lib: Helpers, resp: Responses, org: string, repo: string, num: int,
                             author: string, title: string, c: PluginConfig)
    requires resp.WellFormed() && Regex.MatchString(c.re, title)
    ensures var o := TakeActionOutcome(lib, resp, org, repo, num, author, true, title, c);
      2 <= |o.calls| <= 3 &&
      o.calls[..2] == [RemoveLabel(org, repo, num, NeedsRetitleLabel), BotUser] &&
      (resp.botUser.err.Some? ==> |o.calls| == 2 && o.err == resp.botUser.err)
    ensures var o := TakeActionOutcome(lib, resp, org, repo, num, author, true, title, c);
      resp.botUser.err.None? ==>
        |o.calls| == 3 && o.calls[2].DeleteStaleComments? &&
        o.calls[2].org == org && o.calls[2].repo == repo && o.calls[2].number == num &&
        (forall ic: Comment :: o.calls[2].isStale(ic) <==>
           lib.normLogin(resp.botUser.user.value.login) == lib.normLogin(ic.author) &&
           Contains(ic.body, c.errorMessage)) &&
        o.err == resp.mutation(o.calls[2])
  {
  }

  /** Right and unlabelled, or wrong and labelled: nothing to do. */
  lemma SteadyStatesQuiet(lib: Helpers, resp: Responses, org: string, repo: string, num: int,
                          author: string, hasLabel: bool, title: string, c: PluginConfig)
    requires resp.WellFormed() && Regex.MatchString(c.re, title) == !hasLabel
    ensures TakeActionOutcome(lib, resp, org, repo, num, author, hasLabel, title, c) == Quiet
  {
  }

  /** Running again once the first run's label change took effect does nothing. */
  lemma TakeActionIdempotent(lib: Helpers, resp: Responses, org: string, repo: string, num: int,
                             author: string, hasLabel: bool, title: string, c: PluginConfig)
    requires resp.WellFormed()
    ensures var after := LabelAfter(Decide(Regex.MatchString(c.re, title), hasLabel), hasLabel);
      TakeActionOutcome(lib, resp, org, repo, num, author, after, title, c) == Quiet
  {
    DecisionConverges(Regex.MatchString(c.re, title), hasLabel);
  }

  /**
   * The comment posted for a wrong title, once the bot authored it, is among
   * those deleted when the title is later fixed (given that the response text
   * quotes the message).
   */
  lemma PostedCommentIsPruned(lib: Helpers, resp: Responses, org: string, repo: string, num: int,
                              author: string, wrong: string, fixed: string, c: PluginConfig)
    requires resp.WellFormed() && resp.botUser.err.None?
    requires forall to, m :: Contains(lib.formatSimpleResponse(to, m), m)
    requires !Regex.MatchString(c.re, wrong) && Regex.MatchString(c.re, fixed)
    ensures var posted := TakeActionOutcome(lib, resp, org, repo, num, author, false, wrong, c).calls;
      var pruned := TakeActionOutcome(lib, resp, org, repo, num, author, true, fixed, c).calls;
      |posted| == 2 && posted[1].CreateComment? && |pruned| == 3 && pruned[2].DeleteStaleComments? &&
      pruned[2].isStale(Comment(resp.botUser.user.value.login, posted[1].comment))
  {
    AddLabelThenComment(lib, resp, org, repo, num, author, wrong, c);
    RemoveLabelThenPrune(lib, resp, org, repo, num, author, fixed, c);
  }

  // ---- The BotUser step as written in plugin.go:236-241 ----

  datatype BotStep = Panic | Abort(err: Error) | Prune(botName: string)

  /** As written: `botUser.Name` is read before `err` is checked, and the name (not the login) is used. */
  function BotStepAsWritten(reply: BotReply): (s: BotStep)
    ensures reply.user.None? <==> s.Panic?
    ensures s.Prune? ==> s.botName == reply.user.value.name
  {
    if reply.user.None? then Panic
    else if reply.err.Some? then Abort(reply.err.value)
    else Prune(reply.user.value.name)
  }

  /** A `BotUser()` failure that comes without a user dereferences nil. */
  lemma FailedBotUserPanicsAsWritten(e: Error)
    ensures BotReply(None, Some(e)).WellFormed()
    ensures BotStepAsWritten(BotReply(None, Some(e))) == Panic
  {
  }

  /**
   * With the bot account of plugin_test.go (login "me", name "k8s-ci-robot"),
   * the bot's own comment quoting the message is not selected for deletion.
   */
  lemma OwnCommentKeptAsWritten(lib: Helpers, author: string, msg: string)
    requires lib.normLogin("k8s-ci-robot") != lib.normLogin("me")
    ensures var s := BotStepAsWritten(BotReply(Some(UserData("me", "k8s-ci-robot")), None));
      s.Prune? && !ShouldPrune(lib, s.botName, msg)(Comment("me", lib.formatSimpleResponse(author, msg)))
  {
  }
}
