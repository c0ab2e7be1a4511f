/**
 * DoorkeeperFeedWorkerJIRA: the worker that publishes one feed story into the
 * JIRA issues linked to the story's object. Its state is the cached provider,
 * the requests it has sent to JIRA and the lines it has logged; each method is
 * proved to act as the corresponding function of module Publishing.
 */
module Worker {
  import opened Wrappers
  import opened PhpArrays
  import opened Doorkeeper
  import opened Candidates
  import opened Accounts
  import opened Publishing

  class FeedWorkerJira {
    /** The JIRA provider, once getProvider has found it. */
    var provider: Option<Provider>
    /** Every request sent to JIRA, in order. */
    var requests: seq<Request>
    /** Every line logged, in order. */
    var log: seq<LogEntry>

    constructor ()
      ensures provider == None && requests == [] && log == []
    {
      provider := None;
      requests := [];
      log := [];
    }

    /**
     * getProvider: the cached provider, else the configured one, which is
     * then cached; None stands for the permanent failure "No JIRA provider
     * configured", which leaves the cache empty.
     */
    method GetProvider(configured: Option<Provider>) returns (p: Option<Provider>)
      modifies this`provider
      ensures p == ProviderFor(old(provider), configured)
      ensures provider == p
      ensures old(provider).Some? ==> p == old(provider)
    {
      if provider.None? {
        if configured.None? {
          return None;
        }
        provider := configured;
      }
      p := provider;
    }

    /** Resolve one JIRA future: the request is sent, and the server's outcome returned. */
    method Send(ctx: FeedContext, request: Request) returns (response: Response)
      modifies this`requests
      ensures requests == old(requests) + [request]
      ensures response == ctx.respond(request)
    {
      requests := requests + [request];
      response := ctx.respond(request);
    }

    /** postComment: POST the story text and the object's URI as a comment on the issue. */
    method PostComment(ctx: FeedContext, account: ExternalAccount, jiraKey: string) returns (response: Response)
      modifies this`requests
      ensures requests == old(requests) + [CommentRequest(ctx, account, jiraKey)]
      ensures response == ctx.respond(CommentRequest(ctx, account, jiraKey))
    {
      response := Send(ctx, CommentRequest(ctx, account, jiraKey));
    }

    /** postLink: POST a remote link from the issue to the story's object. */
    method PostLink(ctx: FeedContext, account: ExternalAccount, jiraKey: string) returns (response: Response)
      modifies this`requests
      ensures requests == old(requests) + [RemoteLinkRequest(ctx, account, jiraKey)]
      ensures response == ctx.respond(RemoteLinkRequest(ctx, account, jiraKey))
    {
      response := Send(ctx, RemoteLinkRequest(ctx, account, jiraKey));
    }

    /** The `try` block for one account: the comment, then the link, as the options allow. */
    method TryAccount(ctx: FeedContext, account: ExternalAccount, jiraKey: string) returns (result: AttemptResult)
      modifies this`requests
      ensures requests == old(requests) + AccountAttempt(ctx, account, jiraKey).requests
      ensures result == AccountAttempt(ctx, account, jiraKey).result
    {
      if ShouldPostComment(ctx.config) {
        var response := PostComment(ctx, account, jiraKey);
        if response != Ok {
          return FailedWith(CommentRequest(ctx, account, jiraKey), response);
        }
      }
      if ShouldPostLink(ctx.config) {
        var response := PostLink(ctx, account, jiraKey);
        if response != Ok {
          return FailedWith(RemoteLinkRequest(ctx, account, jiraKey), response);
        }
      }
      return Succeeded;
    }

    /**
     * The loop over accounts for one issue: try each in order, log and move
     * on after an HTTP status failure, stop at the first that goes through,
     * and let any other exception out (as Aborted).
     */
    method PublishIssue(ctx: FeedContext, accounts: seq<ExternalAccount>, jiraKey: string) returns (outcome: IssueOutcome)
      modifies this`requests, this`log
      ensures IssueTrace(requests, log, outcome) == After(old(requests), old(log), IssueAttempts(ctx, accounts, jiraKey))
    {
      ghost var whole := After(requests, log, IssueAttempts(ctx, accounts, jiraKey));
      outcome := Unpublished;
      var i := 0;
      while i < |accounts|
        invariant 0 <= i <= |accounts|
        invariant outcome == Unpublished
        invariant whole == After(requests, log, IssueAttemptsFrom(ctx, accounts, i, jiraKey))
      {
        ghost var requests0, log0 := requests, log;
        var result := TryAccount(ctx, accounts[i], jiraKey);
        if result == Succeeded {
          outcome := Published(accounts[i]);
          break;
        }
        if result.Raised? {
          outcome := Aborted(result.request);
          break;
        }
        log := log + [UpdateFailed(jiraKey, accounts[i].userPhid)];
        AfterAfter(requests0, log0, AccountAttempt(ctx, accounts[i], jiraKey).requests,
                   [UpdateFailed(jiraKey, accounts[i].userPhid)], IssueAttemptsFrom(ctx, accounts, i + 1, jiraKey));
        i := i + 1;
      }
    }

    /**
     * publishFeedStory: get the provider, find the linked issues and the
     * users to act as, then publish to every issue, install by install.
     */
    method PublishFeedStory(ctx: FeedContext, configured: Option<Provider>) returns (status: JobStatus)
      modifies this
      ensures var t := StoryPublication(old(provider), configured, ctx);
        && provider == t.provider
        && requests == old(requests) + t.requests
        && log == old(log) + t.log
        && status == t.status
    {
      var p := GetProvider(configured);
      if p.None? {
        return PermanentFailure;
      }
      var raised := PublishWithProvider(ctx, p.value.providerType);
      status := if raised.Some? then Crashed(raised.value) else Completed;
    }

    /**
     * The rest of publishFeedStory: the lookups, each of which may end the
     * run with a log line, then every install in turn.
     */
    method PublishWithProvider(ctx: FeedContext, providerType: string) returns (raised: Option<Request>)
      modifies this`requests, this`log
      ensures BatchTrace(requests, log, raised) == Resume(old(requests), old(log), ProviderRun(providerType, ctx))
    {
      var plan := PlanFor(ctx);
      match plan
      case Stop(entry) =>
        log := log + [entry];
        raised := None;
        assert requests == requests + [];
      case Publish(users, groups) =>
        raised := PublishDomains(ctx, providerType, users, groups);
    }

    /**
     * The `foreach` over installs: resolve the accounts of the install, then
     * publish to each of its issues; the request whose exception escaped, if any.
     */
    method PublishDomains(ctx: FeedContext, providerType: string, users: seq<Phid>,
                          groups: OrderedMap<string, seq<ExternalObject>>) returns (raised: Option<Request>)
      modifies this`requests, this`log
      ensures BatchTrace(requests, log, raised) == Resume(old(requests), old(log), DomainsPublicationFrom(ctx, providerType, users, groups, 0))
    {
      ghost var whole := Resume(requests, log, DomainsPublicationFrom(ctx, providerType, users, groups, 0));
      var g := 0;
      while g < |groups|
        invariant 0 <= g <= |groups|
        invariant whole == Resume(requests, log, DomainsPublicationFrom(ctx, providerType, users, groups, g))
      {
        var accounts := ResolveAccounts(ctx.externalAccounts, users, providerType, groups[g].0);
        ghost var requests0, log0 := requests, log;
        ghost var install := ObjectsPublicationFrom(ctx, accounts, groups[g].1, 0);
        raised := PublishObjects(ctx, accounts, groups[g].1);
        ResumeThen(requests0, log0, install, DomainsPublicationFrom(ctx, providerType, users, groups, g + 1));
        if raised.Some? {
          return;
        }
        g := g + 1;
      }
      raised := None;
    }

    /** The `foreach` over one install's issues, all tried with the same accounts. */
    method PublishObjects(ctx: FeedContext, accounts: seq<ExternalAccount>, xobjs: seq<ExternalObject>)
      returns (raised: Option<Request>)
      modifies this`requests, this`log
      ensures BatchTrace(requests, log, raised) == Resume(old(requests), old(log), ObjectsPublicationFrom(ctx, accounts, xobjs, 0))
    {
      ghost var whole := Resume(requests, log, ObjectsPublicationFrom(ctx, accounts, xobjs, 0));
      var o := 0;
      while o < |xobjs|
        invariant 0 <= o <= |xobjs|
        invariant whole == Resume(requests, log, ObjectsPublicationFrom(ctx, accounts, xobjs, o))
      {
        ghost var requests0, log0 := requests, log;
        ghost var issue := IssueBatch(IssueAttempts(ctx, accounts, xobjs[o].objectId));
        var outcome := PublishIssue(ctx, accounts, xobjs[o].objectId);
        ResumeThen(requests0, log0, issue, ObjectsPublicationFrom(ctx, accounts, xobjs, o + 1));
        if outcome.Aborted? {
          return Some(outcome.request);
        }
        o := o + 1;
      }
      raised := None;
    }
  }
}
