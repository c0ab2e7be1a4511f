/**
 * What the worker promises about a whole run: the permanent failure without
 * a provider, the cached provider, the early exits, which requests it makes
 * and for which issues, and which exceptions end the run.
 */
module JobFacts {
  import opened Wrappers
  import opened PhpArrays
  import opened Doorkeeper
  import opened Candidates
  import opened Accounts
  import opened Publishing
  import opened IssueFacts

  /* ---------------------------------------------------------------------- */
  /* Provider and early exits                                                */

  /** Without a cached or a configured provider the run fails permanently, before any lookup or request. */
  lemma MissingProviderFailsPermanently(ctx: FeedContext)
    ensures StoryPublication(None, None, ctx) == JobTrace(None, [], [], PermanentFailure)
  {
  }

  /**
   * The permanent failure happens exactly when the worker is not enabled and
   * no provider is cached; otherwise the worker holds the cached provider, or
   * the configured one.
   */
  lemma PermanentFailureIffNoProvider(cached: Option<Provider>, configured: Option<Provider>, ctx: FeedContext)
    ensures var t := StoryPublication(cached, configured, ctx);
      && (t.status == PermanentFailure <==> cached.None? && !IsEnabled(configured))
      && t.provider == (if cached.Some? then cached else configured)
  {
  }

  /** Once a provider is cached, the configured provider is never consulted. */
  lemma CachedProviderNeverLookedUp(p: Provider, configured: Option<Provider>, ctx: FeedContext)
    ensures StoryPublication(Some(p), configured, ctx) == StoryPublication(Some(p), None, ctx)
    ensures StoryPublication(Some(p), configured, ctx).provider == Some(p)
  {
  }

  /**
   * With a provider, each of these ends the run normally, logged, with no
   * request: no linked issue, no readable external object, no candidate user.
   */
  lemma EarlyExits(cached: Option<Provider>, configured: Option<Provider>, ctx: FeedContext)
    requires ProviderFor(cached, configured).Some?
    ensures var t := StoryPublication(cached, configured, ctx);
      var issuePhids := LoadDestinationPhids(ctx.issueEdges, ctx.storyObject.phid);
      var xobjs := QueryExternalObjects(ctx.externalObjects, issuePhids);
      && (issuePhids == [] ==> t.requests == [] && t.log == [NoLinkedIssues] && t.status == Completed)
      && (issuePhids != [] && xobjs == [] ==> t.requests == [] && t.log == [NoExternalObjects] && t.status == Completed)
      && (issuePhids != [] && xobjs != [] && FindUsersToPossess(ctx.authorPhid, ctx.publisher) == [] ==>
            t.requests == [] && t.log == [NoUsersToActAs] && t.status == Completed)
  {
  }

  /* ---------------------------------------------------------------------- */
  /* Where requests come from                                                */

  /** Every request of an install's issues is made for one of those issues. */
  lemma {:induction false} ObjectsRequests(ctx: FeedContext, accounts: seq<ExternalAccount>, xobjs: seq<ExternalObject>, o: nat)
    requires o <= |xobjs|
    ensures forall q :: q in ObjectsPublicationFrom(ctx, accounts, xobjs, o).requests ==>
      exists j :: o <= j < |xobjs| && q in IssueAttempts(ctx, accounts, xobjs[j].objectId).requests
    decreases |xobjs| - o
  {
    if o < |xobjs| {
      ObjectsRequests(ctx, accounts, xobjs, o + 1);
    }
  }

  /** Every request of the installs is made for an issue of one of them, with that install's accounts. */
  lemma {:induction false} DomainsRequests(ctx: FeedContext, providerType: string, users: seq<Phid>,
                                           groups: OrderedMap<string, seq<ExternalObject>>, g: nat)
    requires g <= |groups|
    ensures forall q :: q in DomainsPublicationFrom(ctx, providerType, users, groups, g).requests ==>
      exists h :: g <= h < |groups| &&
        q in ObjectsPublicationFrom(ctx, DomainAccounts(ctx, providerType, users, groups[h].0), groups[h].1, 0).requests
    decreases |groups| - g
  {
    if g < |groups| {
      DomainsRequests(ctx, providerType, users, groups, g + 1);
    }
  }

  /** The publishing part of the run, when the run gets that far. */
  predicate Publishes(cached: Option<Provider>, configured: Option<Provider>, ctx: FeedContext) {
    ProviderFor(cached, configured).Some? && PlanFor(ctx).Publish?
  }

  /** The readable external objects of the issues linked to the story's object. */
  function LinkedObjects(ctx: FeedContext): seq<ExternalObject> {
    QueryExternalObjects(ctx.externalObjects, LoadDestinationPhids(ctx.issueEdges, ctx.storyObject.phid))
  }

  /** A run that gets as far as publishing acts as the candidates, on the linked objects grouped by install. */
  lemma PublishPlan(ctx: FeedContext)
    requires PlanFor(ctx).Publish?
    ensures PlanFor(ctx).users == FindUsersToPossess(ctx.authorPhid, ctx.publisher) != []
    ensures PlanFor(ctx).groups == GroupByDomain(LinkedObjects(ctx))
    ensures LinkedObjects(ctx) != []
  {
  }

  /** The publishing part of a run that gets that far: every install, in turn. */
  function LinkedRun(cached: Option<Provider>, configured: Option<Provider>, ctx: FeedContext): BatchTrace
    requires Publishes(cached, configured, ctx)
  {
    DomainsPublicationFrom(ctx, ProviderFor(cached, configured).value.providerType, PlanFor(ctx).users, PlanFor(ctx).groups, 0)
  }

  /** A run sends what its publishing part sends, and crashes where that part raises; a run that stops earlier sends nothing. */
  lemma StoryPublicationRun(cached: Option<Provider>, configured: Option<Provider>, ctx: FeedContext)
    ensures var t := StoryPublication(cached, configured, ctx);
      && (!Publishes(cached, configured, ctx) ==> t.requests == [] && !t.status.Crashed?)
      && (Publishes(cached, configured, ctx) ==>
            var run := LinkedRun(cached, configured, ctx);
            && t.requests == run.requests
            && t.log == run.log
            && t.status == (if run.raised.Some? then Crashed(run.raised.value) else Completed))
  {
  }

  /** `q` is the comment or remote link for the issue of `x`, as an account usable for `x`'s install. */
  predicate Serves(ctx: FeedContext, providerType: string, x: ExternalObject, q: Request) {
    && (q == CommentRequest(ctx, q.account, x.objectId) || q == RemoteLinkRequest(ctx, q.account, x.objectId))
    && q.account in ctx.externalAccounts
    && Usable(q.account, FindUsersToPossess(ctx.authorPhid, ctx.publisher), providerType, x.applicationDomain)
  }

  /** A request made for issue `j` of install `h` serves that issue. */
  lemma ServesIssue(ctx: FeedContext, providerType: string, users: seq<Phid>,
                    groups: OrderedMap<string, seq<ExternalObject>>, h: nat, j: nat, q: Request)
    requires users == FindUsersToPossess(ctx.authorPhid, ctx.publisher)
    requires h < |groups| && j < |groups[h].1|
    requires q in IssueAttempts(ctx, DomainAccounts(ctx, providerType, users, groups[h].0), groups[h].1[j].objectId).requests
    ensures groups[h].1[j].applicationDomain == groups[h].0 ==> Serves(ctx, providerType, groups[h].1[j], q)
  {
    var accounts := DomainAccounts(ctx, providerType, users, groups[h].0);
    IssueRequestsTarget(ctx, accounts, groups[h].1[j].objectId);
    ResolveAccountsSpec(ctx.externalAccounts, users, providerType, groups[h].0);
    var i :| 0 <= i < |accounts| && accounts[i] == q.account;
  }

  /** Publishing to objects grouped by install only makes requests that serve one of those objects. */
  lemma GroupsServed(ctx: FeedContext, providerType: string, xobjs: seq<ExternalObject>)
    ensures var users := FindUsersToPossess(ctx.authorPhid, ctx.publisher);
      forall q :: q in DomainsPublicationFrom(ctx, providerType, users, GroupByDomain(xobjs), 0).requests ==>
        exists x :: x in xobjs && Serves(ctx, providerType, x, q)
  {
    var users := FindUsersToPossess(ctx.authorPhid, ctx.publisher);
    var groups := GroupByDomain(xobjs);
    DomainsRequests(ctx, providerType, users, groups, 0);
    GroupMembers(xobjs);
    forall q | q in DomainsPublicationFrom(ctx, providerType, users, groups, 0).requests
      ensures exists x :: x in xobjs && Serves(ctx, providerType, x, q)
    {
      var h :| 0 <= h < |groups| &&
        q in ObjectsPublicationFrom(ctx, DomainAccounts(ctx, providerType, users, groups[h].0), groups[h].1, 0).requests;
      ObjectsRequests(ctx, DomainAccounts(ctx, providerType, users, groups[h].0), groups[h].1, 0);
      var j :| 0 <= j < |groups[h].1| &&
        q in IssueAttempts(ctx, DomainAccounts(ctx, providerType, users, groups[h].0), groups[h].1[j].objectId).requests;
      assert groups[h].1[j] in groups[h].1;
      ServesIssue(ctx, providerType, users, groups, h, j, q);
    }
  }

  /**
   * Every request of a run is the comment or the remote link for one of the
   * readable linked issues, made as an account of a candidate user, of the
   * provider's type and of that issue's install, that the viewer may see and
   * edit.
   */
  lemma RequestsServeLinkedIssues(cached: Option<Provider>, configured: Option<Provider>, ctx: FeedContext)
    ensures var t := StoryPublication(cached, configured, ctx);
      forall q :: q in t.requests ==>
        && Publishes(cached, configured, ctx)
        && exists x :: x in LinkedObjects(ctx) && Serves(ctx, ProviderFor(cached, configured).value.providerType, x, q)
  {
    StoryPublicationRun(cached, configured, ctx);
    if Publishes(cached, configured, ctx) {
      PublishPlan(ctx);
      GroupsServed(ctx, ProviderFor(cached, configured).value.providerType, LinkedObjects(ctx));
    }
  }

  /* ---------------------------------------------------------------------- */
  /* The two options                                                         */

  /** With both options off, no issue gets a request. */
  lemma {:induction false} ObjectsQuiet(ctx: FeedContext, accounts: seq<ExternalAccount>, xobjs: seq<ExternalObject>, o: nat)
    requires !ShouldPostComment(ctx.config) && !ShouldPostLink(ctx.config)
    requires o <= |xobjs|
    ensures ObjectsPublicationFrom(ctx, accounts, xobjs, o) == NoTrace
    decreases |xobjs| - o
  {
    if o < |xobjs| {
      BothFlagsOffIssue(ctx, accounts, xobjs[o].objectId);
      ObjectsQuiet(ctx, accounts, xobjs, o + 1);
    }
  }

  lemma {:induction false} DomainsQuiet(ctx: FeedContext, providerType: string, users: seq<Phid>,
                                        groups: OrderedMap<string, seq<ExternalObject>>, g: nat)
    requires !ShouldPostComment(ctx.config) && !ShouldPostLink(ctx.config)
    requires g <= |groups|
    ensures DomainsPublicationFrom(ctx, providerType, users, groups, g) == NoTrace
    decreases |groups| - g
  {
    if g < |groups| {
      ObjectsQuiet(ctx, DomainAccounts(ctx, providerType, users, groups[g].0), groups[g].1, 0);
      DomainsQuiet(ctx, providerType, users, groups, g + 1);
    }
  }

  /** With both options off, a run sends nothing to JIRA, logs no failure and never crashes. */
  lemma BothFlagsOffNoRequests(cached: Option<Provider>, configured: Option<Provider>, ctx: FeedContext)
    requires !ShouldPostComment(ctx.config) && !ShouldPostLink(ctx.config)
    ensures var t := StoryPublication(cached, configured, ctx);
      && t.requests == []
      && |t.log| <= 1
      && !t.status.Crashed?
  {
    StoryPublicationRun(cached, configured, ctx);
    if Publishes(cached, configured, ctx) {
      DomainsQuiet(ctx, ProviderFor(cached, configured).value.providerType, PlanFor(ctx).users, PlanFor(ctx).groups, 0);
    }
  }

  /** With the comment option off, the publishing part posts remote links only. */
  lemma LinkedRunLinksOnly(cached: Option<Provider>, configured: Option<Provider>, ctx: FeedContext)
    requires Publishes(cached, configured, ctx)
    requires !ShouldPostComment(ctx.config)
    ensures forall q :: q in LinkedRun(cached, configured, ctx).requests ==> q.payload.RemoteLink?
  {
    var providerType := ProviderFor(cached, configured).value.providerType;
    var users := PlanFor(ctx).users;
    var groups := PlanFor(ctx).groups;
    DomainsRequests(ctx, providerType, users, groups, 0);
    forall q | q in LinkedRun(cached, configured, ctx).requests
      ensures q.payload.RemoteLink?
    {
      var h :| 0 <= h < |groups| &&
        q in ObjectsPublicationFrom(ctx, DomainAccounts(ctx, providerType, users, groups[h].0), groups[h].1, 0).requests;
      var accounts := DomainAccounts(ctx, providerType, users, groups[h].0);
      ObjectsRequests(ctx, accounts, groups[h].1, 0);
      var j :| 0 <= j < |groups[h].1| && q in IssueAttempts(ctx, accounts, groups[h].1[j].objectId).requests;
      CommentOffOnlyLinks(ctx, accounts, groups[h].1[j].objectId);
    }
  }

  /** With the comment option off, a run posts remote links only. */
  lemma CommentOffPostsLinksOnly(cached: Option<Provider>, configured: Option<Provider>, ctx: FeedContext)
    requires !ShouldPostComment(ctx.config)
    ensures forall q :: q in StoryPublication(cached, configured, ctx).requests ==> q.payload.RemoteLink?
  {
    StoryPublicationRun(cached, configured, ctx);
    if Publishes(cached, configured, ctx) {
      LinkedRunLinksOnly(cached, configured, ctx);
    }
  }

  /* ---------------------------------------------------------------------- */
  /* Exceptions                                                              */

  /**
   * A part of a run that raised did so on its last request, which met a
   * non-status exception; a part that did not raise met none.
   */
  predicate RaisedOnLast(ctx: FeedContext, b: BatchTrace) {
    && (b.raised.Some? ==>
          b.requests != [] && b.requests[|b.requests| - 1] == b.raised.value && ctx.respond(b.raised.value) == OtherException)
    && (b.raised.None? ==> forall q :: q in b.requests ==> ctx.respond(q) != OtherException)
  }

  lemma ThenRaisedOnLast(ctx: FeedContext, a: BatchTrace, b: BatchTrace)
    requires RaisedOnLast(ctx, a) && RaisedOnLast(ctx, b)
    ensures RaisedOnLast(ctx, Then(a, b))
  {
    if a.raised.None? && b.raised.Some? {
      var s := a.requests + b.requests;
      assert s[|s| - 1] == b.requests[|b.requests| - 1];
    }
  }

  lemma {:induction false} ObjectsRaisedOnLast(ctx: FeedContext, accounts: seq<ExternalAccount>, xobjs: seq<ExternalObject>, o: nat)
    requires o <= |xobjs|
    ensures RaisedOnLast(ctx, ObjectsPublicationFrom(ctx, accounts, xobjs, o))
    decreases |xobjs| - o
  {
    if o < |xobjs| {
      IssueAbortsOnOtherException(ctx, accounts, xobjs[o].objectId);
      IssueCatchesOnlyStatus(ctx, accounts, xobjs[o].objectId);
      ObjectsRaisedOnLast(ctx, accounts, xobjs, o + 1);
      ThenRaisedOnLast(ctx, IssueBatch(IssueAttempts(ctx, accounts, xobjs[o].objectId)),
                       ObjectsPublicationFrom(ctx, accounts, xobjs, o + 1));
    }
  }

  lemma {:induction false} DomainsRaisedOnLast(ctx: FeedContext, providerType: string, users: seq<Phid>,
                                               groups: OrderedMap<string, seq<ExternalObject>>, g: nat)
    requires g <= |groups|
    ensures RaisedOnLast(ctx, DomainsPublicationFrom(ctx, providerType, users, groups, g))
    decreases |groups| - g
  {
    if g < |groups| {
      var accounts := DomainAccounts(ctx, providerType, users, groups[g].0);
      ObjectsRaisedOnLast(ctx, accounts, groups[g].1, 0);
      DomainsRaisedOnLast(ctx, providerType, users, groups, g + 1);
      ThenRaisedOnLast(ctx, ObjectsPublicationFrom(ctx, accounts, groups[g].1, 0),
                       DomainsPublicationFrom(ctx, providerType, users, groups, g + 1));
    }
  }

  /**
   * Only HTTPFutureResponseStatus is caught: a run crashes exactly when one
   * of its requests meets another exception, and then that request is its
   * last. In particular, issues whose accounts all fail with an HTTP status
   * never end the run abnormally.
   */
  lemma CrashesOnlyOnOtherExceptions(cached: Option<Provider>, configured: Option<Provider>, ctx: FeedContext)
    ensures var t := StoryPublication(cached, configured, ctx);
      && (t.status.Crashed? <==> exists q :: q in t.requests && ctx.respond(q) == OtherException)
      && (t.status.Crashed? ==> t.requests != [] && t.status.request == t.requests[|t.requests| - 1])
  {
    StoryPublicationRun(cached, configured, ctx);
    if Publishes(cached, configured, ctx) {
      var run := LinkedRun(cached, configured, ctx);
      DomainsRaisedOnLast(ctx, ProviderFor(cached, configured).value.providerType, PlanFor(ctx).users, PlanFor(ctx).groups, 0);
      if run.raised.Some? {
        assert run.requests[|run.requests| - 1] in run.requests;
      }
    }
  }
}
