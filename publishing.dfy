/**
 * What one run of the JIRA feed worker does, as functions of what it sees:
 * the requests it sends to JIRA, in order, the lines it logs, and how the run
 * ends. The worker class is proved to do exactly this.
 */
module Publishing {
  import opened Wrappers
  import opened PhpArrays
  import opened Doorkeeper
  import opened Candidates
  import opened Accounts

  /* ---------------------------------------------------------------------- */
  /* Payloads                                                                */

  /** The comment text: the story text, a blank line, and the object's URI. */
  function RenderStoryText(p: Publisher): string {
    p.storyText + "\n\n" + p.objectUri
  }

  /** The JIRA REST API paths, around the issue key. */
  const IssuePathPrefix := "rest/api/2/issue/"
  const CommentSuffix := "/comment"
  const RemoteLinkSuffix := "/remotelink"

  function CommentPath(jiraKey: string): string {
    IssuePathPrefix + jiraKey + CommentSuffix
  }

  function RemoteLinkPath(jiraKey: string): string {
    IssuePathPrefix + jiraKey + RemoteLinkSuffix
  }

  const GlobalIdPrefix := "phabricatorPhid="

  function CommentRequest(ctx: FeedContext, account: ExternalAccount, jiraKey: string): Request {
    Request(account, CommentPath(jiraKey), Comment(RenderStoryText(ctx.publisher)))
  }

  function RemoteLinkRequest(ctx: FeedContext, account: ExternalAccount, jiraKey: string): Request {
    Request(
      account,
      RemoteLinkPath(jiraKey),
      RemoteLink(
        GlobalIdPrefix + ctx.storyObject.phid,
        "org.phabricator.differential",
        "Differential",
        "implemented in",
        ctx.publisher.objectUri,
        ctx.storyObject.monogram,
        ctx.storyObject.title,
        ctx.publisher.objectClosed))
  }

  /* ---------------------------------------------------------------------- */
  /* One account, one issue                                                  */

  /**
   * How trying one account ends: every enabled action went through, an
   * HTTPFutureResponseStatus was caught, or another exception escaped while
   * resolving `request`.
   */
  datatype AttemptResult = Succeeded | HttpFailed | Raised(request: Request)

  datatype AttemptTrace = AttemptTrace(requests: seq<Request>, result: AttemptResult)

  function FailedWith(request: Request, response: Response): AttemptResult
    requires response != Ok
  {
    if response == HttpStatusFailure then HttpFailed else Raised(request)
  }

  /** The body of the `try`: post the comment if enabled, then the link if enabled. */
  function AccountAttempt(ctx: FeedContext, account: ExternalAccount, jiraKey: string): AttemptTrace {
    var comment := CommentRequest(ctx, account, jiraKey);
    var link := RemoteLinkRequest(ctx, account, jiraKey);
    var sent := if ShouldPostComment(ctx.config) then [comment] else [];
    if ShouldPostComment(ctx.config) && ctx.respond(comment) != Ok then
      AttemptTrace(sent, FailedWith(comment, ctx.respond(comment)))
    else if !ShouldPostLink(ctx.config) then
      AttemptTrace(sent, Succeeded)
    else if ctx.respond(link) == Ok then
      AttemptTrace(sent + [link], Succeeded)
    else
      AttemptTrace(sent + [link], FailedWith(link, ctx.respond(link)))
  }

  /* ---------------------------------------------------------------------- */
  /* One issue, all accounts                                                 */

  /**
   * How publishing to one issue ends: as the first account that went through,
   * with every account failed, or with an exception that aborts the run.
   */
  datatype IssueOutcome = Published(account: ExternalAccount) | Unpublished | Aborted(request: Request)

  datatype IssueTrace = IssueTrace(requests: seq<Request>, log: seq<LogEntry>, outcome: IssueOutcome)

  /** `t`, after `requests` were sent and `log` was written. */
  function After(requests: seq<Request>, log: seq<LogEntry>, t: IssueTrace): IssueTrace {
    IssueTrace(requests + t.requests, log + t.log, t.outcome)
  }

  lemma AfterAfter(r1: seq<Request>, l1: seq<LogEntry>, r2: seq<Request>, l2: seq<LogEntry>, t: IssueTrace)
    ensures After(r1, l1, After(r2, l2, t)) == After(r1 + r2, l1 + l2, t)
  {
    assert r1 + (r2 + t.requests) == (r1 + r2) + t.requests;
    assert l1 + (l2 + t.log) == (l1 + l2) + t.log;
  }

  /**
   * The inner `foreach` over accounts from the `i`th on: stop at the first
   * account that goes through or raises; log an HTTP status failure and go on.
   */
  function IssueAttemptsFrom(ctx: FeedContext, accounts: seq<ExternalAccount>, i: nat, jiraKey: string): IssueTrace
    requires i <= |accounts|
    decreases |accounts| - i
  {
    if i == |accounts| then IssueTrace([], [], Unpublished)
    else
      var attempt := AccountAttempt(ctx, accounts[i], jiraKey);
      match attempt.result
      case Succeeded => IssueTrace(attempt.requests, [], Published(accounts[i]))
      case Raised(request) => IssueTrace(attempt.requests, [], Aborted(request))
      case HttpFailed =>
        After(attempt.requests, [UpdateFailed(jiraKey, accounts[i].userPhid)],
              IssueAttemptsFrom(ctx, accounts, i + 1, jiraKey))
  }

  /** The inner `foreach` over accounts, with its `break` and its `catch`. */
  function IssueAttempts(ctx: FeedContext, accounts: seq<ExternalAccount>, jiraKey: string): IssueTrace {
    IssueAttemptsFrom(ctx, accounts, 0, jiraKey)
  }

  /* ---------------------------------------------------------------------- */
  /* All issues                                                              */

  /** Requests and log lines of part of a run, and the request whose exception ended it, if any. */
  datatype BatchTrace = BatchTrace(requests: seq<Request>, log: seq<LogEntry>, raised: Option<Request>)

  const NoTrace := BatchTrace([], [], None)

  /** `a`, then `b` unless `a` ended in an exception. */
  function Then(a: BatchTrace, b: BatchTrace): BatchTrace {
    if a.raised.Some? then a else BatchTrace(a.requests + b.requests, a.log + b.log, b.raised)
  }

  lemma ThenAssociative(a: BatchTrace, b: BatchTrace, c: BatchTrace)
    ensures Then(Then(a, b), c) == Then(a, Then(b, c))
  {
    if a.raised.None? && b.raised.None? {
      assert a.requests + b.requests + c.requests == a.requests + (b.requests + c.requests);
      assert a.log + b.log + c.log == a.log + (b.log + c.log);
    }
  }

  /** `b`, after `requests` were sent and `log` was written. */
  function Resume(requests: seq<Request>, log: seq<LogEntry>, b: BatchTrace): BatchTrace {
    Then(BatchTrace(requests, log, None), b)
  }

  /** One more part of the run: either it raised and the run stops there, or the run resumes after it. */
  lemma ResumeThen(requests: seq<Request>, log: seq<LogEntry>, a: BatchTrace, b: BatchTrace)
    ensures a.raised.Some? ==>
      Resume(requests, log, Then(a, b)) == BatchTrace(requests + a.requests, log + a.log, a.raised)
    ensures a.raised.None? ==>
      Resume(requests, log, Then(a, b)) == Resume(requests + a.requests, log + a.log, b)
  {
    ThenAssociative(BatchTrace(requests, log, None), a, b);
  }

  function IssueBatch(t: IssueTrace): BatchTrace {
    BatchTrace(t.requests, t.log, if t.outcome.Aborted? then Some(t.outcome.request) else None)
  }

  /** The `foreach` over one install's issues from the `o`th on, each tried with the same accounts. */
  function ObjectsPublicationFrom(ctx: FeedContext, accounts: seq<ExternalAccount>, xobjs: seq<ExternalObject>, o: nat): BatchTrace
    requires o <= |xobjs|
    decreases |xobjs| - o
  {
    if o == |xobjs| then NoTrace
    else Then(IssueBatch(IssueAttempts(ctx, accounts, xobjs[o].objectId)),
              ObjectsPublicationFrom(ctx, accounts, xobjs, o + 1))
  }

  /** The accounts to try for the issues of one install. */
  function DomainAccounts(ctx: FeedContext, providerType: string, users: seq<Phid>, domain: string): seq<ExternalAccount> {
    ResolveAccounts(ctx.externalAccounts, users, providerType, domain)
  }

  /** The `foreach` over installs from the `g`th on: the accounts are looked up anew for each install. */
  function DomainsPublicationFrom(ctx: FeedContext, providerType: string, users: seq<Phid>,
                                  groups: OrderedMap<string, seq<ExternalObject>>, g: nat): BatchTrace
    requires g <= |groups|
    decreases |groups| - g
  {
    if g == |groups| then NoTrace
    else
      Then(ObjectsPublicationFrom(ctx, DomainAccounts(ctx, providerType, users, groups[g].0), groups[g].1, 0),
           DomainsPublicationFrom(ctx, providerType, users, groups, g + 1))
  }

  /* ---------------------------------------------------------------------- */
  /* The whole run                                                           */

  /** How a run ends: normally, with the permanent failure, or with an uncaught exception. */
  datatype JobStatus = Completed | PermanentFailure | Crashed(request: Request)

  /** A run: the provider the worker holds afterwards, what it sent and logged, and how it ended. */
  datatype JobTrace = JobTrace(provider: Option<Provider>, requests: seq<Request>, log: seq<LogEntry>, status: JobStatus)

  /** getProvider: the cached provider if there is one, else the configured one (None: the permanent failure). */
  function ProviderFor(cached: Option<Provider>, configured: Option<Provider>): Option<Provider> {
    if cached.Some? then cached else configured
  }

  /**
   * What publishFeedStory finds before it sends anything: the reason it stops
   * early, or the candidate users and the readable linked issues grouped by
   * JIRA install.
   */
  datatype Plan = Stop(entry: LogEntry) | Publish(users: seq<Phid>, groups: OrderedMap<string, seq<ExternalObject>>)

  /** The lookups of publishFeedStory, with its three early exits. */
  function PlanFor(ctx: FeedContext): Plan {
    var issuePhids := LoadDestinationPhids(ctx.issueEdges, ctx.storyObject.phid);
    if issuePhids == [] then Stop(NoLinkedIssues)
    else
      var xobjs := QueryExternalObjects(ctx.externalObjects, issuePhids);
      if xobjs == [] then Stop(NoExternalObjects)
      else
        var users := FindUsersToPossess(ctx.authorPhid, ctx.publisher);
        if users == [] then Stop(NoUsersToActAs)
        else Publish(users, GroupByDomain(xobjs))
  }

  /** What the run does once it holds a provider of type `providerType`. */
  function ProviderRun(providerType: string, ctx: FeedContext): BatchTrace {
    match PlanFor(ctx)
    case Stop(entry) => BatchTrace([], [entry], None)
    case Publish(users, groups) => DomainsPublicationFrom(ctx, providerType, users, groups, 0)
  }

  /** The run that publishFeedStory makes, given the provider cached before it and the configured one. */
  function StoryPublication(cached: Option<Provider>, configured: Option<Provider>, ctx: FeedContext): JobTrace {
    var provider := ProviderFor(cached, configured);
    if provider.None? then JobTrace(None, [], [], PermanentFailure)
    else
      var run := ProviderRun(provider.value.providerType, ctx);
      JobTrace(provider, run.requests, run.log, if run.raised.Some? then Crashed(run.raised.value) else Completed)
  }
}
