# needs-retitle, modelled in Dafny

needs-retitle is a prow external plugin. It makes pull request titles follow a
configured regular expression. A pull request whose title does not match gets
the `needs-retitle` label and a comment explaining the rule. When the title is
fixed, the label is removed and the bot's earlier comments quoting the message
are deleted. Two triggers run this reconciliation:

- a single pull request, on a pull request event (opened, synchronize, reopened,
  edited) or on a comment on a pull request;
- every open, unarchived pull request of the enabled orgs and repos, found by a
  paginated GitHub search (`HandleAll`).

The active configuration is a message plus a compiled expression. A config
agent loads it, validates it and pushes it into the plugin.

## Layout

| file | module | what it holds |
|---|---|---|
| `wrappers.dfy` | `Wrappers` | `Option`, `Result`, and errors as their message text |
| `strings.dfy` | `Strings` | `strings.Contains` as a scan, proved equal to "occurs somewhere" |
| `regex.dfy` | `Regex` | `regexp.Compile`, `MatchString`, `String` over an `Engine` value |
| `github.dfy` | `GitHub` | the objects the plugin reads; `Client`, a scripted `githubClient` that records every call in a ghost `trace`; the prow helpers |
| `rules.dfy` | `Rules` | the `(titleOk, hasLabel)` decision, plus the calls and result of `takeAction`, `handle` and both event handlers, as functions, with their properties as lemmas |
| `scan.dfy` | `Scan` | the search query of `HandleAll`, the pagination of `search` as a recursive function, and the calls made per search hit |
| `plugin.dfy` | `Plugin` | class `Plugin` (field `c`), its handlers, and the `search`, query-building and label-scan loops, each proved against `Rules`/`Scan` |
| `config.dfy` | `Config` | `Validate`, and class `PluginConfigAgent` with `Load`, `Set` and the first step of `Start` |
| `types.dfy` | `Types` | the second `Validate`, and its agreement with the first |
| `version.dfy` | `Version` | `GetVersion`, and a parse-back that inverts it |

How the outside world is represented:

- The GitHub client is a `Client` object. Its answers come from a `Responses`
  value: labels, pull requests, the bot user, and the error of each mutating
  call. Search pages come from a finite script `pages`, served in order. Every
  call is appended to `trace`. Each handler's contract equates the calls it
  appends, and the error it returns, with a specification function in
  `Rules`/`Scan`.
- The regular expression engine is an `Regex.Engine` value. It says which
  sources compile, with what error text, and what each compiled expression
  matches.
- `github.NormLogin`, `github.HasLabel` and `plugins.FormatSimpleResponse` are
  fields of a `Helpers` value.

Notes on the code and its tests:

- `handle` derives `hasLabel` with `github.HasLabel`. `HandleAll` compares
  label node names with `==`. The model keeps the two checks separate.
- `pkg/config/config_test.go:12-16` expects a `Load` that returns no error
  while the plugin still has no configuration. The code cannot do that: every
  successful `Load` calls `Set`. `Config.PluginConfigAgent.Load` proves that a
  successful load always leaves a configuration in the plugin.

## Model

| member | source | states |
|---|---|---|
| `Strings.ContainsIff` | pkg/plugin/plugin.go:249 | the scan used for `strings.Contains` holds exactly when the substring occurs at some position |
| `Regex.Compile` | pkg/config/config.go:90 | compiling succeeds exactly when the engine reports no error; the error is the engine's text; a compiled expression's `String()` is its source |
| `GitHub.Client.GetIssueLabels` | pkg/plugin/plugin.go:47 | records the call and answers the scripted labels or error |
| `GitHub.Client.CreateComment` | pkg/plugin/plugin.go:48 | records the call with its text and answers the scripted error |
| `GitHub.Client.BotUser` | pkg/plugin/plugin.go:49 | records the call and answers the scripted user pointer and error |
| `GitHub.Client.AddLabel` | pkg/plugin/plugin.go:50 | records the call with its label and answers the scripted error |
| `GitHub.Client.RemoveLabel` | pkg/plugin/plugin.go:51 | records the call with its label and answers the scripted error |
| `GitHub.Client.DeleteStaleComments` | pkg/plugin/plugin.go:52 | records the call with its staleness predicate and answers the scripted error |
| `GitHub.Client.QueryWithGitHubAppsSupport` | pkg/plugin/plugin.go:53 | records the query and cursor, answers the next page of the script and advances it by one |
| `GitHub.Client.GetPullRequest` | pkg/plugin/plugin.go:54 | records the call and answers the scripted pull request or error |
| `Rules.EffectiveMessage` | pkg/plugin/plugin.go:77-90 | the stored message is never empty; it is `m` when `m` is non-empty, else `"Wrong title for PR, allowed titles need to match the regular expression: "` followed by the expression's source |
| `Rules.Decide` | pkg/plugin/plugin.go:222-244 | add label and comment iff the title fails and the label is absent; remove and prune iff the title matches and the label is present; otherwise nothing |
| `Rules.DecisionConverges` | pkg/plugin/plugin.go:222-244 | after one successful action the label is present iff the title fails, and deciding again gives nothing to do |
| `Rules.ShouldPruneSelects` | pkg/plugin/plugin.go:246-251 | `Rules.ShouldPrune` selects a comment iff the normalised bot name equals the normalised author login and the message occurs somewhere in the body |
| `Rules.BotIdentity` | pkg/plugin/plugin.go:236-241 | a failing `BotUser` gives its error, never a nil dereference; otherwise the bot's login is used for pruning (corrected, see Findings) |
| `Rules.PullRequestEventFilter` | pkg/plugin/plugin.go:100-109 | actions other than opened, synchronize, reopened and edited make no call and return nil; those four run `handle` unchanged |
| `Rules.IssueCommentEventFilter` | pkg/plugin/plugin.go:113-123 | a comment on a plain issue makes no call and returns nil; a failed `GetPullRequest` is that one call, and its error is returned unchanged |
| `Rules.HandleSkips` | pkg/plugin/plugin.go:127-151 | a merged pull request or a missing configuration makes no call at all and returns nil; otherwise the first call reads the labels of the base repository's pull request |
| `Rules.AddLabelThenComment` | pkg/plugin/plugin.go:225-230 | a failing, unlabelled title makes exactly `AddLabel("needs-retitle")` then one `CreateComment` of the formatted message to the author; the result is the comment's error, whatever `AddLabel` answered |
| `Rules.RemoveLabelThenPrune` | pkg/plugin/plugin.go:231-251 | a matching, labelled title makes `RemoveLabel("needs-retitle")` then `BotUser`; a `BotUser` error is returned with nothing deleted; otherwise one `DeleteStaleComments` whose predicate holds iff the normalised bot login equals the normalised author and the body contains the message, and its error is the result |
| `Rules.SteadyStatesQuiet` | pkg/plugin/plugin.go:243 | a matching unlabelled or failing labelled title makes no call and returns nil |
| `Rules.TakeActionIdempotent` | pkg/plugin/plugin.go:222-244 | re-running with the label state the first run produced makes no call and returns nil |
| `Rules.PostedCommentIsPruned` | pkg/plugin/plugin.go:229-241 | the comment posted for a failing title, once authored by the bot, is selected by the deletion predicate used when the title is fixed, provided the formatted response quotes the message |
| `Rules.BotStepAsWritten` | pkg/plugin/plugin.go:236-241 | as written, a nil user panics whatever the error, and pruning uses the user's display name |
| `Rules.FailedBotUserPanicsAsWritten` | pkg/plugin/plugin.go:236-240 | as written, a `BotUser` failure that returns a nil user panics |
| `Rules.OwnCommentKeptAsWritten` | pkg/plugin/plugin.go:237-241 | as written, with the bot account of the tests (login `me`, name `k8s-ci-robot`), the bot's own comment quoting the message is not selected for deletion |
| `Scan.QueryNamesEveryScope` | pkg/plugin/plugin.go:170-177 | the query starts with `archived:false is:pr is:open` and contains ` org:"o"` for every org and ` repo:"r"` for every repo |
| `Scan.PaginateStopsAtFirstStop` | pkg/plugin/plugin.go:261-275 | the loop reads pages up to and including the first failed page or page without a next page; every page before it succeeded with a next page; the first query has no cursor and each later one carries the previous page's end cursor |
| `Scan.PaginateCollects` | pkg/plugin/plugin.go:261-277 | a failed page's error is the result; otherwise the result is the in-order concatenation of every page's hits, the sum of their costs and the last page's remaining budget |
| `Scan.TakeActionAllAppend` | pkg/plugin/plugin.go:184-215 | the calls for two runs of hits are the calls for each run, one after the other |
| `Scan.EveryHitProcessed` | pkg/plugin/plugin.go:184-216 | every hit gets its own `takeAction` calls, between those of the hits before and after it, whatever errors those returned |
| `Plugin.Plugin.constructor` | pkg/config/config.go:32 | a new plugin has no configuration |
| `Plugin.Plugin.SetConfig` | pkg/plugin/plugin.go:77-90 | stores the expression unchanged together with the effective message |
| `Plugin.Plugin.GetConfig` | pkg/plugin/plugin.go:92-96 | returns the stored configuration |
| `Plugin.Plugin.HandlePullRequestEvent` | pkg/plugin/plugin.go:100-109 | appends exactly the calls of `Rules.PullRequestEventOutcome` to the trace and returns its error |
| `Plugin.Plugin.HandleIssueCommentEvent` | pkg/plugin/plugin.go:113-123 | appends exactly the calls of `Rules.IssueCommentEventOutcome` and returns its error |
| `Plugin.Plugin.Handle` | pkg/plugin/plugin.go:127-151 | appends exactly the calls of `Rules.HandleOutcome` and returns its error |
| `Plugin.Plugin.TakeAction` | pkg/plugin/plugin.go:222-244 | appends exactly the calls of `Rules.TakeActionOutcome` and returns its error |
| `Plugin.Plugin.HandleAll` | pkg/plugin/plugin.go:155-217 | without a configuration, or with no org and no repo, makes no call and returns nil; otherwise runs the pagination of the built query, returns a search error as is, and else makes every hit's calls in order and returns nil |
| `Plugin.BuildQuery` | pkg/plugin/plugin.go:170-177 | the buffer loops build exactly the base predicate followed by the org clauses and then the repo clauses, in input order |
| `Plugin.HasRetitleLabel` | pkg/plugin/plugin.go:194-200 | the early-exit scan answers true iff some label node is named `needs-retitle` |
| `Plugin.Search` | pkg/plugin/plugin.go:253-278 | consumes exactly the pages, makes exactly the queries and returns exactly the result that `Scan.Paginate` describes |
| `Config.Validate` | pkg/config/config.go:85-97 | nil iff the pattern is non-empty and compiles; an empty pattern gives `needs_pr_rename.regexp can not be empty`; a pattern that does not compile gives `error compiling regular expression <pattern>: <cause>` |
| `Config.LoadOutcome` | pkg/config/config.go:60-76 | a configuration gets through iff the read, the unmarshal and the validation all succeed; what gets through is the unmarshalled value, and its pattern compiles |
| `Config.PluginConfigAgent.constructor` | pkg/config/config.go:30-34 | a new agent holds a fresh plugin without configuration and no configuration of its own |
| `Config.PluginConfigAgent.GetPlugin` | pkg/config/config.go:37-39 | returns the agent's plugin |
| `Config.PluginConfigAgent.Start` | pkg/config/config.go:43-46 | returns the error of the first `Load`, with that load's effect |
| `Config.PluginConfigAgent.Load` | pkg/config/config.go:60-76 | on any failure returns it and changes neither the agent's nor the plugin's configuration; on success stores the parsed configuration and gives the plugin its message and compiled expression |
| `Config.PluginConfigAgent.Set` | pkg/config/config.go:79-83 | stores the configuration and calls `SetConfig` with its message and compiled expression |
| `Types.Validate` | pkg/types/types.go:20-32 | nil iff the pattern is non-empty and compiles; an empty pattern gives the empty-pattern error |
| `Types.ValidateReadsOnlyRegexp` | pkg/types/types.go:14-32 | the outcome depends on the pattern only, not on the message or `RequireEnableAsNotExternal` |
| `Types.ValidateAgreesWithConfig` | pkg/types/types.go:20-32 | for the same pattern it returns exactly what `config.Configuration.Validate` returns |
| `Version.GetVersion` | pkg/version/version.go:12-18 | starts with `"Version: "` followed by the version; is exactly that with an empty commit; otherwise continues with `-` and the commit; its length is 9 plus the version's, plus 1 plus the commit's when there is one |
| `Version.VersionRoundTrip` | pkg/version/version.go:12-18 | when the version has no `-`, the banner can be split back into the version and the commit |

## Findings

| source | as written | input that shows it | evidently intended | confidence | as-written member | corrected member |
|---|---|---|---|---|---|---|
| pkg/plugin/plugin.go:236-240 | `botUser.Name` is read before `err` is checked | `BotUser()` fails and returns a nil user with its error | return the error before touching the user | not executed; high | `Rules.BotStepAsWritten`, `Rules.FailedBotUserPanicsAsWritten` | `Rules.BotIdentity`, `Rules.RemoveLabelThenPrune` |
| pkg/plugin/plugin.go:237-241 | the deletion predicate compares the normalised `botUser.Name` (a display name) with each comment author's login | bot user with login `me` and name `k8s-ci-robot` (pkg/plugin/plugin_test.go:84); the bot's own comment by `me` quoting the message | compare the bot's login, so the bot's own comments are pruned | not executed; medium | `Rules.OwnCommentKeptAsWritten` | `Rules.BotIdentity`, `Rules.PostedCommentIsPruned` |

`Rules.TakeActionOutcome` and `Plugin.Plugin.TakeAction` use the corrected
behaviour. They check the `BotUser` error first, then take the user's login.

## Left out

- The HTTP server and webhook validation (pkg/server/server.go) and process wiring (cmd/needs-retitle/main.go): transport, flag parsing and goroutines, not reconciliation.
- The background reload of `Start` (a one-minute ticker and a goroutine): concurrency. Only the first, synchronous `Load` is modelled.
- Reading the configuration file and unmarshalling YAML: their results are inputs of `Load`.
- The mutex of `Plugin`: it only guards the swap of `c`, which the model does as a plain field update.
- The regular expression engine and the prow helpers `NormLogin`, `HasLabel`, `FormatSimpleResponse`: library code outside this repository, given as function values.
- `EnabledReposForExternalPlugin`: plugin configuration code outside this repository. The enabled orgs and repos are inputs of `HandleAll`.
- The GraphQL transport: each search query is answered by the next page of a finite script.
- Logging, `HelpProvider`'s static text and the unused `sleep` variable.
- `GitHub.Client`: answers depend only on the call's arguments, so two identical calls get the same answer. The comment list that `DeleteStaleComments` fetches itself is not modelled, only the predicate it is given.
- `Plugin.Search`: requires a page in the remaining script that stops the loop. A server that reported a next page forever would make the source loop forever; the model does not represent that. The cost and remaining budget, which the source only logs, are returned.
- `Plugin.Plugin.HandleAll`: requires the same stopping page, even when it returns before searching.
- `Plugin.Search`: `totalCost` is an unbounded sum, so the overflow of Go's `int` is not represented.
- `Config.PluginConfigAgent.Set`: requires a pattern that compiles. With any other pattern the source passes a nil expression to `SetConfig`, whose `String()` call panics. `Load` only calls `Set` after validation.
- `Rules.PostedCommentIsPruned`: assumes the formatted response quotes the message verbatim, a property of `plugins.FormatSimpleResponse` that is outside this repository.
- GitHub.Client.BotUser: a reply always carries a user or an error (`BotReply.WellFormed`, required through `Responses.WellFormed` by every handler and by `Rules.BotIdentity`), because the prow client returns one or the other. A reply with neither, on which the source would dereference nil at pkg/plugin/plugin.go:237, is not modelled.
