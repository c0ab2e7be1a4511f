# JIRA feed publisher, modelled in Dafny

This project models `DoorkeeperFeedWorkerJIRA`. It is the Phabricator worker that publishes one feed story into the JIRA issues linked to the story's object.

For one story the worker does the following:

1. It gets the JIRA authentication provider. Without one, it fails permanently. Once found, the provider is cached in the worker.
2. It loads the PHIDs of the JIRA issues linked to the object. It then loads the external objects for them that the viewer may see.
3. It builds the list of candidate users to act as:
   - the story's author first;
   - then the object's owner, active, passive and CC users;
   - falsy PHIDs are dropped, and the related users are de-duplicated.
4. It groups the issues by JIRA install (`applicationDomain`). For each install it queries the candidates' usable JIRA accounts and re-orders them into candidate order, one account per user.
5. For every issue it tries the accounts in turn. It posts a comment, then a remote link, as the `jira.post-comment` and `jira.post-link` options allow.
   - It stops at the first account for which every enabled post goes through.
   - An `HTTPFutureResponseStatus` is logged, and the next account is tried.
   - Any other exception ends the run.

How the project is laid out:

- **Inputs.** `Doorkeeper.FeedContext` holds everything the worker reads: the edge, external-object and account stores, the configuration, and the publisher's view of the object. The JIRA server is a function `respond` from a request to its outcome.
- **`PhpArrays`.** The PHP and libphutil array functions the worker is built from, over sequences. PHP arrays with keys are ordered key/value sequences.
- **`Candidates`, `Accounts`.** `findUsersToPossess`, the queries, `mgroup` by install, and the `mpull`/`array_select_keys` account re-ordering.
- **`Publishing`.** Functions that say what a run does:
  - the requests it sends, in order;
  - the lines it logs;
  - how it ends (`Completed`, `PermanentFailure` or `Crashed`).
- **`Worker`.** The class `FeedWorkerJira` has the cached provider, the sent requests and the log as fields. Each of its methods is proved to change them exactly as the corresponding `Publishing` function says.
  - The nested `foreach` loops of `publishFeedStory` are separate methods: `PublishDomains`, `PublishObjects` and `PublishIssue`, with `TryAccount` as the body of the `try`.
  - The lookups and early exits are in `PublishWithProvider`, built on the pure function `Publishing.PlanFor`.
- **`IssueFacts`, `JobFacts`, `Scenario`.** Lemmas that state what the worker promises about those functions. `Scenario` is a worked example.

Where a plain description of the feature and the code disagree, the model follows the code:

- **The author is not de-duplicated.** The author is put in front of the de-duplicated related users without being checked against them (lines 149-158). So an author who is also, say, an active user occurs twice in the candidate list.
  - `Scenario.ScenarioCandidates` shows this: author U2, owner U1, active U2, CC U3 give `[U2, U1, U2, U3]`, not `[U2, U1, U3]`.
  - The duplicate is harmless for the accounts. `array_select_keys` collapses it, so the accounts come out in the order U1, U3 (`Scenario.ScenarioAccounts`, `Accounts.ResolveAccountsSpec`).
- **Only `HTTPFutureResponseStatus` is caught** (line 88). Any other exception while resolving a JIRA future ends the run at that request (`JobFacts.CrashesOnlyOnOtherExceptions`).
- **A partial success repeats the comment.** Suppose an account's comment goes through and its link then fails with an HTTP status. The next account posts the same comment again (`IssueFacts.PartialSuccessRepeatsComment`).

## Model

| member | source | states |
|---|---|---|
| PhpArrays.Filter | src/applications/doorkeeper/worker/DoorkeeperFeedWorkerJIRA.php:149 | array_filter keeps exactly the elements the test accepts, and is never longer than its input |
| PhpArrays.FilterAppend | src/applications/doorkeeper/worker/DoorkeeperFeedWorkerJIRA.php:155-158 | filtering a concatenation filters each part separately, so the second array_filter treats the author and the related users apart |
| PhpArrays.FilterKeepsAll | src/applications/doorkeeper/worker/DoorkeeperFeedWorkerJIRA.php:158 | a filter that accepts every element leaves the list unchanged, so re-filtering the already filtered related users changes nothing |
| PhpArrays.ArrayUnique | src/applications/doorkeeper/worker/DoorkeeperFeedWorkerJIRA.php:149 | array_unique returns each value once, the same set of values, ordered by first occurrence in its input |
| PhpArrays.ArrayUniqueKeepsDistinct | src/applications/doorkeeper/worker/DoorkeeperFeedWorkerJIRA.php:149 | array_unique leaves a list without repeats exactly as it is |
| PhpArrays.FilterKeepsFirstOrder | src/applications/doorkeeper/worker/DoorkeeperFeedWorkerJIRA.php:149 | of two values array_filter keeps, the one first occurring earlier in the result first occurs earlier in the input |
| PhpArrays.MPull | src/applications/doorkeeper/worker/DoorkeeperFeedWorkerJIRA.php:73 | mpull: a fold that puts each account under its user PHID, so a later account of the same user replaces the earlier one in place |
| PhpArrays.MPullSpec | src/applications/doorkeeper/worker/DoorkeeperFeedWorkerJIRA.php:73 | mpull keys the accounts by user in first-occurrence order, and for a user with several accounts keeps the last one |
| PhpArrays.ArraySelectKeys | src/applications/doorkeeper/worker/DoorkeeperFeedWorkerJIRA.php:74 | array_select_keys: walks the key list and keeps, under each key the array has, the array's value for it; a key listed twice is put twice, in place |
| PhpArrays.ArraySelectKeysOrder | src/applications/doorkeeper/worker/DoorkeeperFeedWorkerJIRA.php:74 | array_select_keys keeps exactly the listed keys the array has, each once, in order of their first occurrence in the key list |
| PhpArrays.ArraySelectKeysValues | src/applications/doorkeeper/worker/DoorkeeperFeedWorkerJIRA.php:74 | array_select_keys takes each value it keeps from the array, under the same key |
| PhpArrays.MGroup | src/applications/doorkeeper/worker/DoorkeeperFeedWorkerJIRA.php:57 | mgroup: a fold that appends each element to the group of its key, opening a group at the key's first occurrence |
| PhpArrays.MGroupKeys | src/applications/doorkeeper/worker/DoorkeeperFeedWorkerJIRA.php:57 | mgroup has one group per distinct key, in order of first occurrence |
| PhpArrays.MGroupValues | src/applications/doorkeeper/worker/DoorkeeperFeedWorkerJIRA.php:57 | the group of a key holds exactly the elements with that key, in their original order |
| Doorkeeper.ConfigFlag | src/applications/doorkeeper/option/PhabricatorJIRAConfigOptions.php:21-34 | a boolean option read from the environment configuration: its configured value, else its default, true |
| Doorkeeper.ShouldPostComment | src/applications/doorkeeper/worker/DoorkeeperFeedWorkerJIRA.php:163-165 | shouldPostComment: the `jira.post-comment` option |
| Doorkeeper.ShouldPostLink | src/applications/doorkeeper/worker/DoorkeeperFeedWorkerJIRA.php:167-169 | shouldPostLink: the `jira.post-link` option |
| Doorkeeper.FlagsDefaultOn | src/applications/doorkeeper/option/PhabricatorJIRAConfigOptions.php:21-34 | for any configuration: an option it does not set is on, each option independently of the other; an option it sets has the value it sets |
| Doorkeeper.IsEnabled | src/applications/doorkeeper/worker/DoorkeeperFeedWorkerJIRA.php:17-19 | isEnabled: the worker is enabled exactly when a JIRA provider is configured |
| Candidates.RelatedUsers | src/applications/doorkeeper/worker/DoorkeeperFeedWorkerJIRA.php:139-148 | array_merge of the owner, the active, the passive and the CC users, in that order |
| Candidates.FindUsersToPossess | src/applications/doorkeeper/worker/DoorkeeperFeedWorkerJIRA.php:130-161 | findUsersToPossess: the author put in front of the truthy, de-duplicated related users, with falsy entries dropped once more |
| Candidates.RelatedCandidates | src/applications/doorkeeper/worker/DoorkeeperFeedWorkerJIRA.php:139-149 | the de-duplicated related users have no repeats and are exactly the truthy owner, active, passive and CC PHIDs |
| Candidates.CandidateOrder | src/applications/doorkeeper/worker/DoorkeeperFeedWorkerJIRA.php:155-158 | the candidate list is the author, when truthy, followed by the de-duplicated related users |
| Candidates.RelatedCandidatesOrder | src/applications/doorkeeper/worker/DoorkeeperFeedWorkerJIRA.php:144-149 | the related users keep the order in which they first occur in the owner, active, passive and CC lists |
| Candidates.CandidateContents | src/applications/doorkeeper/worker/DoorkeeperFeedWorkerJIRA.php:149-158 | every candidate is truthy; the candidates are exactly the truthy author and related users; a truthy author comes first; only the author can occur twice |
| Candidates.NoCandidates | src/applications/doorkeeper/worker/DoorkeeperFeedWorkerJIRA.php:51-55 | the candidate list is empty exactly when the author and every related user are falsy |
| Accounts.LoadDestinationPhids | src/applications/doorkeeper/worker/DoorkeeperFeedWorkerJIRA.php:33-35 | the PHIDs of the JIRA issues linked to the object by an edge, none when it has no edge |
| Accounts.QueryExternalObjects | src/applications/doorkeeper/worker/DoorkeeperFeedWorkerJIRA.php:41-44 | the external-object query: the stored objects, in store order, with one of the linked PHIDs that the viewer can see |
| Accounts.QueryExternalObjectsSpec | src/applications/doorkeeper/worker/DoorkeeperFeedWorkerJIRA.php:41-44 | the external-object query returns exactly the stored objects with the linked PHIDs that the viewer can see |
| Accounts.GroupByDomain | src/applications/doorkeeper/worker/DoorkeeperFeedWorkerJIRA.php:57 | mgroup of the external objects by application domain |
| Accounts.GroupByDomainSpec | src/applications/doorkeeper/worker/DoorkeeperFeedWorkerJIRA.php:57 | each install of the objects has one group, in order of first appearance; a group holds only objects of its install; every object is in a group |
| Accounts.QueryAccounts | src/applications/doorkeeper/worker/DoorkeeperFeedWorkerJIRA.php:59-69 | the account query: the stored accounts, in store order, of one of the candidates, of the provider's type and the install's domain, that the viewer can view and edit |
| Accounts.QueryAccountsSpec | src/applications/doorkeeper/worker/DoorkeeperFeedWorkerJIRA.php:59-69 | the account query returns exactly the stored accounts of the candidates that have the provider's type and the install's domain and that the viewer can view and edit |
| Accounts.ResolveAccounts | src/applications/doorkeeper/worker/DoorkeeperFeedWorkerJIRA.php:71-74 | the queried accounts keyed by user with mpull, then put in candidate order with array_select_keys, then their values |
| Accounts.ResolveAccountsSpec | src/applications/doorkeeper/worker/DoorkeeperFeedWorkerJIRA.php:59-74 | the accounts tried on an install are usable ones of candidates, in strictly increasing candidate order (so at most one per user); a candidate appears exactly when it has a usable account, and then with the last such account the query returned |
| Accounts.ResolvedFor | src/applications/doorkeeper/worker/DoorkeeperFeedWorkerJIRA.php:73-74 | a candidate is represented among the accounts exactly when one of their accounts is usable on the install |
| Publishing.RenderStoryText | src/applications/doorkeeper/worker/DoorkeeperFeedWorkerJIRA.php:220-228 | renderStoryText: the story text, a blank line, then the object URI |
| Publishing.CommentRequest | src/applications/doorkeeper/worker/DoorkeeperFeedWorkerJIRA.php:171-184 | postComment's request: as the account, to the issue's comment endpoint, with the rendered story as body |
| Publishing.RemoteLinkRequest | src/applications/doorkeeper/worker/DoorkeeperFeedWorkerJIRA.php:186-218 | postLink's request: as the account, to the issue's remote-link endpoint, with the object's globalId, relationship, URI, monogram, title and closed state |
| Publishing.AccountAttempt | src/applications/doorkeeper/worker/DoorkeeperFeedWorkerJIRA.php:78-87 | the body of the `try` for one account: the comment, then the link, each when enabled, stopping at the first request that fails |
| Publishing.IssueAttemptsFrom | src/applications/doorkeeper/worker/DoorkeeperFeedWorkerJIRA.php:77-95 | the account loop from account i on: stop at an account that goes through, abort on a failure other than an HTTP status, else log the failure and go on |
| Publishing.IssueAttempts | src/applications/doorkeeper/worker/DoorkeeperFeedWorkerJIRA.php:77-95 | the account loop for one issue, from the first account |
| Publishing.ObjectsPublicationFrom | src/applications/doorkeeper/worker/DoorkeeperFeedWorkerJIRA.php:76-96 | the issue loop of one install from issue o on: each issue's requests and log lines in turn, ending at the first escaping exception |
| Publishing.DomainsPublicationFrom | src/applications/doorkeeper/worker/DoorkeeperFeedWorkerJIRA.php:58-97 | the install loop from group d on: each install's accounts resolved afresh, then its issues published, ending at the first escaping exception |
| Publishing.PlanFor | src/applications/doorkeeper/worker/DoorkeeperFeedWorkerJIRA.php:33-57 | the lookups of publishFeedStory: stop with the matching log line when there is no linked issue, no readable external object or no candidate, else publish to the objects grouped by install |
| Publishing.ProviderFor | src/applications/doorkeeper/worker/DoorkeeperFeedWorkerJIRA.php:110-120 | getProvider: the cached provider if there is one, else the configured one, else none |
| Publishing.ProviderRun | src/applications/doorkeeper/worker/DoorkeeperFeedWorkerJIRA.php:33-97 | publishFeedStory once the provider is held: an early exit logs its line and sends nothing, otherwise the install loop runs |
| Publishing.StoryPublication | src/applications/doorkeeper/worker/DoorkeeperFeedWorkerJIRA.php:26-98 | a whole run: a permanent failure without a provider; otherwise the provider is cached and the run ends completed, or crashed on the request whose exception escaped |
| Worker.FeedWorkerJira.constructor | src/applications/doorkeeper/worker/DoorkeeperFeedWorkerJIRA.php:7-9 | a new worker holds no provider and has sent and logged nothing |
| Worker.FeedWorkerJira.GetProvider | src/applications/doorkeeper/worker/DoorkeeperFeedWorkerJIRA.php:110-120 | returns the cached provider if there is one and leaves it; otherwise caches and returns the configured one; None (the permanent failure) when there is neither, leaving the cache empty |
| Worker.FeedWorkerJira.Send | src/applications/doorkeeper/worker/DoorkeeperFeedWorkerJIRA.php:177-183 | resolving a JIRA future appends the request to those sent and returns the server's outcome for it |
| Worker.FeedWorkerJira.PostComment | src/applications/doorkeeper/worker/DoorkeeperFeedWorkerJIRA.php:171-184 | sends exactly the comment request for the account and issue, and nothing else |
| Worker.FeedWorkerJira.PostLink | src/applications/doorkeeper/worker/DoorkeeperFeedWorkerJIRA.php:186-218 | sends exactly the remote-link request for the account and issue, and nothing else |
| Worker.FeedWorkerJira.TryAccount | src/applications/doorkeeper/worker/DoorkeeperFeedWorkerJIRA.php:78-87 | the body of the `try` sends the comment and then the link as enabled, stopping at the first failure, as `AccountAttempt` describes |
| Worker.FeedWorkerJira.PublishIssue | src/applications/doorkeeper/worker/DoorkeeperFeedWorkerJIRA.php:77-95 | the loop over accounts sends and logs what `IssueAttempts` describes after what was there before, and returns its outcome |
| Worker.FeedWorkerJira.PublishObjects | src/applications/doorkeeper/worker/DoorkeeperFeedWorkerJIRA.php:76-96 | the loop over one install's issues appends what `ObjectsPublicationFrom` describes and reports the request whose exception escaped |
| Worker.FeedWorkerJira.PublishDomains | src/applications/doorkeeper/worker/DoorkeeperFeedWorkerJIRA.php:58-97 | the loop over installs resolves each install's accounts and appends what `DomainsPublicationFrom` describes |
| Worker.FeedWorkerJira.PublishWithProvider | src/applications/doorkeeper/worker/DoorkeeperFeedWorkerJIRA.php:33-97 | once a provider is held, the lookups, early exits and loops append what `ProviderRun` describes |
| Worker.FeedWorkerJira.PublishFeedStory | src/applications/doorkeeper/worker/DoorkeeperFeedWorkerJIRA.php:26-98 | the whole run leaves exactly the provider, sent requests, log and status that `StoryPublication` gives for the cached and configured providers |
| IssueFacts.GlobalIdPhid | src/applications/doorkeeper/worker/DoorkeeperFeedWorkerJIRA.php:198 | reads a globalId back: Some exactly when it starts with the worker's prefix, and the prefix followed by the result is the globalId |
| IssueFacts.IssueKeyOf | src/applications/doorkeeper/worker/DoorkeeperFeedWorkerJIRA.php:179 | reads an issue key back from an API path: when found, the issue prefix, the key and the suffix rebuild the path |
| IssueFacts.PathRoundTrip | src/applications/doorkeeper/worker/DoorkeeperFeedWorkerJIRA.php:177-194 | the comment and remote-link paths both give back the issue key they were built from |
| IssueFacts.CommentPayload | src/applications/doorkeeper/worker/DoorkeeperFeedWorkerJIRA.php:171-184 | a comment is made as the account, to the issue's comment endpoint, with body the story text, a blank line and the object URI |
| IssueFacts.RemoteLinkPayload | src/applications/doorkeeper/worker/DoorkeeperFeedWorkerJIRA.php:186-218 | a remote link is made as the account, to the issue's remote-link endpoint; its globalId names the object's PHID, the relationship is "implemented in", url, title and summary are the object's URI, monogram and title, and it is resolved exactly when the object is closed |
| IssueFacts.PlannedRequests | src/applications/doorkeeper/worker/DoorkeeperFeedWorkerJIRA.php:81-85 | the requests one account would send: the comment exactly when commenting is on, the link exactly when linking is on, nothing else, at most two |
| IssueFacts.AttemptSpec | src/applications/doorkeeper/worker/DoorkeeperFeedWorkerJIRA.php:78-88 | one account sends a prefix of its planned requests, all as itself; it goes through exactly when it sends the whole plan and all are answered; otherwise every request but the last was answered, and the last failed with an HTTP status (caught) or another exception (escaping, on that request) |
| IssueFacts.FailedAttemptNotRaised | src/applications/doorkeeper/worker/DoorkeeperFeedWorkerJIRA.php:88-94 | an account that failed with an HTTP status met no other exception |
| IssueFacts.IssueAttemptsShape | src/applications/doorkeeper/worker/DoorkeeperFeedWorkerJIRA.php:76-95 | with k the first account that does not fail with an HTTP status: accounts 0..k are tried and no others, one failure line is logged per account before k, and the issue is published by k, aborted by it, or, if there is no such account, left unpublished |
| IssueFacts.FirstSuccessStops | src/applications/doorkeeper/worker/DoorkeeperFeedWorkerJIRA.php:77-87 | if accounts before k fail with an HTTP status and account k goes through, exactly accounts 0..k are tried, each failure is logged, and the issue is published by k |
| IssueFacts.AllAccountsFail | src/applications/doorkeeper/worker/DoorkeeperFeedWorkerJIRA.php:88-94 | an issue is left unpublished exactly when every account fails with an HTTP status; then every account was tried and logged with the issue key and its user |
| IssueFacts.IssueAbortsOnOtherException | src/applications/doorkeeper/worker/DoorkeeperFeedWorkerJIRA.php:88 | an issue is aborted only by a request answered with an exception other than an HTTP status, and that request is the last one made for it |
| IssueFacts.IssueCatchesOnlyStatus | src/applications/doorkeeper/worker/DoorkeeperFeedWorkerJIRA.php:88-94 | an issue that is not aborted met no exception other than HTTP status failures |
| IssueFacts.BothFlagsOffIssue | src/applications/doorkeeper/worker/DoorkeeperFeedWorkerJIRA.php:81-87 | with both options off, the first account goes through with no request and nothing is logged |
| IssueFacts.CommentOffOnlyLinks | src/applications/doorkeeper/worker/DoorkeeperFeedWorkerJIRA.php:81-85 | with commenting off, every request for an issue is its remote link |
| IssueFacts.IssueRequestsTarget | src/applications/doorkeeper/worker/DoorkeeperFeedWorkerJIRA.php:76-85 | every request made for an issue is its comment or its remote link, made as one of the accounts tried |
| IssueFacts.PartialSuccessRepeatsComment | src/applications/doorkeeper/worker/DoorkeeperFeedWorkerJIRA.php:81-88 | when the first account's comment goes through and its link fails with an HTTP status, the third request is the second account's comment: same path, same body; the failure is logged first |
| JobFacts.MissingProviderFailsPermanently | src/applications/doorkeeper/worker/DoorkeeperFeedWorkerJIRA.php:110-116 | with no cached and no configured provider, the run fails permanently without sending or logging anything |
| JobFacts.PermanentFailureIffNoProvider | src/applications/doorkeeper/worker/DoorkeeperFeedWorkerJIRA.php:18-20 | the run fails permanently exactly when no provider is cached and the worker is not enabled; otherwise it holds the cached provider, or the configured one |
| JobFacts.CachedProviderNeverLookedUp | src/applications/doorkeeper/worker/DoorkeeperFeedWorkerJIRA.php:110-119 | once a provider is cached, the run is the same whatever provider is configured, and keeps the cached one |
| JobFacts.EarlyExits | src/applications/doorkeeper/worker/DoorkeeperFeedWorkerJIRA.php:33-55 | with a provider, no linked issue, no readable external object, or no candidate each end the run normally with its own log line and no request |
| JobFacts.StoryPublicationRun | src/applications/doorkeeper/worker/DoorkeeperFeedWorkerJIRA.php:26-98 | a run that stops before publishing sends nothing and does not crash; otherwise it sends, logs and crashes as its publishing part does |
| JobFacts.GroupsServed | src/applications/doorkeeper/worker/DoorkeeperFeedWorkerJIRA.php:57-85 | publishing to issues grouped by install only sends requests that serve one of those issues, as an account usable on its install |
| JobFacts.RequestsServeLinkedIssues | src/applications/doorkeeper/worker/DoorkeeperFeedWorkerJIRA.php:33-85 | every request of a run is the comment or remote link of a readable linked issue, made as an account of a candidate, of the provider's type and of that issue's install, that the viewer may view and edit |
| JobFacts.BothFlagsOffNoRequests | src/applications/doorkeeper/worker/DoorkeeperFeedWorkerJIRA.php:81-87 | with both options off, a run sends nothing, logs at most one line and never crashes |
| JobFacts.CommentOffPostsLinksOnly | src/applications/doorkeeper/worker/DoorkeeperFeedWorkerJIRA.php:81-85 | with commenting off, a run posts remote links only |
| JobFacts.CrashesOnlyOnOtherExceptions | src/applications/doorkeeper/worker/DoorkeeperFeedWorkerJIRA.php:76-96 | a run crashes exactly when one of its requests meets an exception other than an HTTP status, and then on that request, its last |
| Scenario.ScenarioCandidates | src/applications/doorkeeper/worker/DoorkeeperFeedWorkerJIRA.php:144-158 | author U2, owner U1, active U2 and CC U3 give the candidates U2, U1, U2, U3: the author is repeated |
| Scenario.ScenarioAccounts | src/applications/doorkeeper/worker/DoorkeeperFeedWorkerJIRA.php:59-74 | with accounts for U1 and U3 only, the accounts tried are U1's then U3's |
| Scenario.ScenarioFirstAttempt | src/applications/doorkeeper/worker/DoorkeeperFeedWorkerJIRA.php:81-82 | with commenting on, the first request for the issue is U1's comment |
| Scenario.ScenarioRun | src/applications/doorkeeper/worker/DoorkeeperFeedWorkerJIRA.php:59-82 | the worked example end to end: with commenting on, the candidates, the accounts resolved from them on install D and the account loop for R1 make U1's comment the first request |

## Left out

- **JIRA transport.** `newJIRAFuture(...)->resolveJSON()` is the function `respond`. It maps a request to `Ok`, `HttpStatusFailure` (an `HTTPFutureResponseStatus`) or `OtherException`. The same request always gets the same outcome within a run. The JSON answer itself is not used by the worker and is not modelled.
- **Lookups and policies.** The edge query, `DoorkeeperExternalObjectQuery` and `PhabricatorExternalAccountQuery` are filters over stores given as sequences, in the order the queries return rows. The policy and capability checks are booleans on the rows. Exceptions thrown by these queries are not modelled.
- **Globals.**
  - `PhabricatorJIRAAuthProvider::getJIRAProvider()` is the parameter `configured`.
  - `PhabricatorEnv::getEnvConfig` is the map `config`.
  - An unset option takes its default, true.
- Worker.FeedWorkerJira.PostComment: does not repeat the `getProvider()` call of `postComment`. By then the provider is cached, so that call returns it unchanged.
- Worker.FeedWorkerJira.PostLink: does not repeat the `getProvider()` call of `postLink`, for the same reason.
- **Logging.** `phlog` is left out. `$this->log` becomes the `log` field, one `LogEntry` per line; the message text and `pht` strings are not modelled.
- **Payload.** The remote link's icon (a constant URL and title) is not modelled. The other fields are.
- **Job framework.** The `DoorkeeperFeedWorker` base class and its queue are not part of this model. This includes `getFeedStory`, `getViewer`, `getStoryObject`, `getPublisher` and retries. What those accessors return is a field of `FeedContext`. A thrown `PhabricatorWorkerPermanentFailureException` is the status `PermanentFailure`, and an escaping exception is `Crashed`.
- **Publisher data.** The owner is a single PHID and the active, passive and CC users are lists of PHIDs. A null PHID is the empty string, which PHP treats as falsy like `"0"`.
- **PHP value semantics.** `array_unique` and `array_select_keys` compare PHIDs as strings. Numeric-string key conversion does not arise for PHIDs and is not modelled.
