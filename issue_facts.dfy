/**
 * What the worker promises about the requests it makes for one issue: the
 * payloads it sends, the comment-before-link order of one account's attempt,
 * and the fallback from account to account.
 */
module IssueFacts {
  import opened Wrappers
  import opened Doorkeeper
  import opened Publishing

  /* ---------------------------------------------------------------------- */
  /* Payloads                                                                */

  /** The PHID a remote link's globalId names, when it carries the worker's prefix. */
  function GlobalIdPhid(globalId: string): (r: Option<Phid>)
    ensures r.Some? <==> |GlobalIdPrefix| <= |globalId| && globalId[..|GlobalIdPrefix|] == GlobalIdPrefix
    ensures r.Some? ==> GlobalIdPrefix + r.value == globalId
  {
    if |GlobalIdPrefix| <= |globalId| && globalId[..|GlobalIdPrefix|] == GlobalIdPrefix then
      assert globalId == globalId[..|GlobalIdPrefix|] + globalId[|GlobalIdPrefix|..];
      Some(globalId[|GlobalIdPrefix|..])
    else None
  }

  /** The issue key of an API path that ends in `suffix`, when it is one. */
  function IssueKeyOf(path: string, suffix: string): (r: Option<string>)
    ensures r.Some? ==> IssuePathPrefix + r.value + suffix == path
  {
    var n := |IssuePathPrefix|;
    if n + |suffix| <= |path| && path[..n] == IssuePathPrefix && path[|path| - |suffix|..] == suffix then
      var key := path[n..|path| - |suffix|];
      assert path == path[..n] + key + path[|path| - |suffix|..];
      Some(key)
    else None
  }

  /** Both API paths give back the issue key they were built from. */
  lemma PathRoundTrip(jiraKey: string)
    ensures IssueKeyOf(CommentPath(jiraKey), CommentSuffix) == Some(jiraKey)
    ensures IssueKeyOf(RemoteLinkPath(jiraKey), RemoteLinkSuffix) == Some(jiraKey)
  {
    var n := |IssuePathPrefix|;
    var c := CommentPath(jiraKey);
    assert c[..n] == IssuePathPrefix;
    assert c[|c| - |CommentSuffix|..] == CommentSuffix;
    assert c[n..|c| - |CommentSuffix|] == jiraKey;
    var l := RemoteLinkPath(jiraKey);
    assert l[..n] == IssuePathPrefix;
    assert l[|l| - |RemoteLinkSuffix|..] == RemoteLinkSuffix;
    assert l[n..|l| - |RemoteLinkSuffix|] == jiraKey;
  }

  /**
   * postComment: made as the account, to the issue's comment endpoint, with
   * the story text, a blank line and the object's URI as body.
   */
  lemma CommentPayload(ctx: FeedContext, account: ExternalAccount, jiraKey: string)
    ensures var r := CommentRequest(ctx, account, jiraKey);
      var text := ctx.publisher.storyText;
      && r.account == account
      && IssueKeyOf(r.path, CommentSuffix) == Some(jiraKey)
      && r.payload.Comment?
      && |r.payload.body| == |text| + 2 + |ctx.publisher.objectUri|
      && r.payload.body[..|text|] == text
      && r.payload.body[|text|..|text| + 2] == "\n\n"
      && r.payload.body[|text| + 2..] == ctx.publisher.objectUri
  {
    PathRoundTrip(jiraKey);
    var text := ctx.publisher.storyText;
    var body := CommentRequest(ctx, account, jiraKey).payload.body;
    assert body == text + "\n\n" + ctx.publisher.objectUri;
    assert body[..|text|] == text;
    assert body[|text|..|text| + 2] == "\n\n";
  }

  /**
   * postLink: made as the account, to the issue's remote-link endpoint; the
   * globalId names the story object, the link is "implemented in" the
   * object's URI, titled by its monogram and title, and resolved exactly when
   * the object is closed.
   */
  lemma RemoteLinkPayload(ctx: FeedContext, account: ExternalAccount, jiraKey: string)
    ensures var r := RemoteLinkRequest(ctx, account, jiraKey);
      && r.account == account
      && IssueKeyOf(r.path, RemoteLinkSuffix) == Some(jiraKey)
      && r.payload.RemoteLink?
      && GlobalIdPhid(r.payload.globalId) == Some(ctx.storyObject.phid)
      && r.payload.relationship == "implemented in"
      && r.payload.url == ctx.publisher.objectUri
      && r.payload.title == ctx.storyObject.monogram
      && r.payload.summary == ctx.storyObject.title
      && (r.payload.resolved <==> ctx.publisher.objectClosed)
  {
    PathRoundTrip(jiraKey);
    var g := RemoteLinkRequest(ctx, account, jiraKey).payload.globalId;
    assert g[..|GlobalIdPrefix|] == GlobalIdPrefix;
    assert g[|GlobalIdPrefix|..] == ctx.storyObject.phid;
  }

  /* ---------------------------------------------------------------------- */
  /* One account                                                             */

  /** What one account sends when everything goes through: the comment, then the link, each if enabled. */
  function PlannedRequests(ctx: FeedContext, account: ExternalAccount, jiraKey: string): (r: seq<Request>)
    ensures CommentRequest(ctx, account, jiraKey) in r <==> ShouldPostComment(ctx.config)
    ensures RemoteLinkRequest(ctx, account, jiraKey) in r <==> ShouldPostLink(ctx.config)
    ensures forall q :: q in r ==> q == CommentRequest(ctx, account, jiraKey) || q == RemoteLinkRequest(ctx, account, jiraKey)
    ensures |r| <= 2
  {
    (if ShouldPostComment(ctx.config) then [CommentRequest(ctx, account, jiraKey)] else [])
      + (if ShouldPostLink(ctx.config) then [RemoteLinkRequest(ctx, account, jiraKey)] else [])
  }

  /**
   * One account's attempt sends a prefix of the plan, all as that account;
   * it succeeds exactly when it sends the whole plan and every request is
   * answered; otherwise every request but the last was answered, and the last
   * one failed: with an HTTP status (caught) or another exception (raised).
   */
  lemma AttemptSpec(ctx: FeedContext, account: ExternalAccount, jiraKey: string)
    ensures var a := AccountAttempt(ctx, account, jiraKey);
      var plan := PlannedRequests(ctx, account, jiraKey);
      && a.requests <= plan
      && (forall r :: r in a.requests ==> r.account == account)
      && (a.result == Succeeded <==> a.requests == plan && forall r :: r in plan ==> ctx.respond(r) == Ok)
      && (a.result != Succeeded ==>
            && a.requests != []
            && (forall j :: 0 <= j < |a.requests| - 1 ==> ctx.respond(a.requests[j]) == Ok)
            && ctx.respond(a.requests[|a.requests| - 1]) != Ok)
      && (a.result == HttpFailed ==> ctx.respond(a.requests[|a.requests| - 1]) == HttpStatusFailure)
      && (a.result.Raised? ==>
            a.result.request == a.requests[|a.requests| - 1] && ctx.respond(a.result.request) == OtherException)
  {
    var comment := CommentRequest(ctx, account, jiraKey);
    var link := RemoteLinkRequest(ctx, account, jiraKey);
    if ShouldPostComment(ctx.config) && ShouldPostLink(ctx.config) {
      assert PlannedRequests(ctx, account, jiraKey) == [comment, link];
    }
  }

  /** A failed attempt neither went through nor raised: every request it made was answered or refused with a status. */
  lemma FailedAttemptNotRaised(ctx: FeedContext, account: ExternalAccount, jiraKey: string)
    requires AccountAttempt(ctx, account, jiraKey).result == HttpFailed
    ensures forall r :: r in AccountAttempt(ctx, account, jiraKey).requests ==> ctx.respond(r) != OtherException
  {
    AttemptSpec(ctx, account, jiraKey);
    var a := AccountAttempt(ctx, account, jiraKey);
    forall r | r in a.requests
      ensures ctx.respond(r) != OtherException
    {
      var j :| 0 <= j < |a.requests| && a.requests[j] == r;
      if j < |a.requests| - 1 {
        assert ctx.respond(a.requests[j]) == Ok;
      }
    }
  }

  /* ---------------------------------------------------------------------- */
  /* One issue, all accounts                                                 */

  predicate Failed(ctx: FeedContext, account: ExternalAccount, jiraKey: string) {
    AccountAttempt(ctx, account, jiraKey).result == HttpFailed
  }

  /** The position of the first account whose attempt is not an HTTP status failure; |accounts| if none. */
  function FirstStop(ctx: FeedContext, accounts: seq<ExternalAccount>, jiraKey: string): (k: nat)
    ensures k <= |accounts|
    ensures forall j :: 0 <= j < k ==> Failed(ctx, accounts[j], jiraKey)
    ensures k < |accounts| ==> !Failed(ctx, accounts[k], jiraKey)
  {
    if accounts == [] || !Failed(ctx, accounts[0], jiraKey) then 0
    else 1 + FirstStop(ctx, accounts[1..], jiraKey)
  }

  /** Everything sent when each of `accounts` is tried in turn. */
  function AttemptsRequests(ctx: FeedContext, accounts: seq<ExternalAccount>, jiraKey: string): seq<Request> {
    if accounts == [] then []
    else AccountAttempt(ctx, accounts[0], jiraKey).requests + AttemptsRequests(ctx, accounts[1..], jiraKey)
  }

  /** Each request of the tried accounts comes from the attempt of one of them. */
  lemma {:induction false} AttemptsRequestsOrigin(ctx: FeedContext, accounts: seq<ExternalAccount>, jiraKey: string)
    ensures forall q :: q in AttemptsRequests(ctx, accounts, jiraKey) ==>
      exists j :: 0 <= j < |accounts| && q in AccountAttempt(ctx, accounts[j], jiraKey).requests
  {
    if accounts != [] {
      AttemptsRequestsOrigin(ctx, accounts[1..], jiraKey);
      forall q | q in AttemptsRequests(ctx, accounts, jiraKey)
        ensures exists j :: 0 <= j < |accounts| && q in AccountAttempt(ctx, accounts[j], jiraKey).requests
      {
        if q !in AccountAttempt(ctx, accounts[0], jiraKey).requests {
          assert q in AttemptsRequests(ctx, accounts[1..], jiraKey);
          var j :| 0 <= j < |accounts[1..]| && q in AccountAttempt(ctx, accounts[1..][j], jiraKey).requests;
          assert accounts[1..][j] == accounts[j + 1];
        }
      }
    }
  }

  /** One failure line per account, with the issue key and the account's user. */
  function FailureLog(accounts: seq<ExternalAccount>, jiraKey: string): (r: seq<LogEntry>)
    ensures |r| == |accounts|
    ensures forall j :: 0 <= j < |accounts| ==> r[j] == UpdateFailed(jiraKey, accounts[j].userPhid)
  {
    if accounts == [] then [] else [UpdateFailed(jiraKey, accounts[0].userPhid)] + FailureLog(accounts[1..], jiraKey)
  }

  /** Trying the accounts from position `i` on is trying the suffix from its start. */
  lemma {:induction false} IssueAttemptsSuffix(ctx: FeedContext, accounts: seq<ExternalAccount>, i: nat, jiraKey: string)
    requires i <= |accounts|
    ensures IssueAttemptsFrom(ctx, accounts, i, jiraKey) == IssueAttempts(ctx, accounts[i..], jiraKey)
    decreases |accounts| - i
  {
    if i < |accounts| {
      IssueAttemptsSuffix(ctx, accounts, i + 1, jiraKey);
      IssueAttemptsSuffix(ctx, accounts[i..], 1, jiraKey);
      assert accounts[i..][1..] == accounts[i + 1..];
    }
  }

  /** The account loop, one account at a time. */
  lemma IssueAttemptsCons(ctx: FeedContext, accounts: seq<ExternalAccount>, jiraKey: string)
    requires accounts != []
    ensures var attempt := AccountAttempt(ctx, accounts[0], jiraKey);
      IssueAttempts(ctx, accounts, jiraKey) ==
        match attempt.result
        case Succeeded => IssueTrace(attempt.requests, [], Published(accounts[0]))
        case Raised(request) => IssueTrace(attempt.requests, [], Aborted(request))
        case HttpFailed =>
          After(attempt.requests, [UpdateFailed(jiraKey, accounts[0].userPhid)], IssueAttempts(ctx, accounts[1..], jiraKey))
  {
    IssueAttemptsSuffix(ctx, accounts, 1, jiraKey);
  }

  /**
   * The account loop, in closed form: with k the first account that does not
   * fail with an HTTP status, accounts 0..k are tried and no other, the
   * accounts before k are logged as failed, and the issue is published by
   * account k, aborted by it, or (k past the end) left unpublished.
   */
  lemma {:induction false} IssueAttemptsShape(ctx: FeedContext, accounts: seq<ExternalAccount>, jiraKey: string)
    ensures var t := IssueAttempts(ctx, accounts, jiraKey);
      var k := FirstStop(ctx, accounts, jiraKey);
      && t.log == FailureLog(accounts[..k], jiraKey)
      && (k == |accounts| ==> t.requests == AttemptsRequests(ctx, accounts, jiraKey) && t.outcome == Unpublished)
      && (k < |accounts| ==>
            var last := AccountAttempt(ctx, accounts[k], jiraKey);
            && t.requests == AttemptsRequests(ctx, accounts[..k + 1], jiraKey)
            && t.outcome == (if last.result == Succeeded then Published(accounts[k]) else Aborted(last.result.request)))
  {
    if accounts != [] {
      IssueAttemptsCons(ctx, accounts, jiraKey);
      var k := FirstStop(ctx, accounts, jiraKey);
      if Failed(ctx, accounts[0], jiraKey) {
        var rest := accounts[1..];
        IssueAttemptsShape(ctx, rest, jiraKey);
        assert accounts[..k][1..] == rest[..k - 1];
        if k < |accounts| {
          assert accounts[..k + 1][1..] == rest[..k];
        } else {
          assert accounts[1..] == rest;
        }
      } else {
        assert accounts[..1][1..] == [];
      }
    }
  }

  /** Every request of the tried accounts is the comment or the link of the issue, made as one of them. */
  lemma AttemptsRequestsMembers(ctx: FeedContext, accounts: seq<ExternalAccount>, jiraKey: string)
    ensures forall q :: q in AttemptsRequests(ctx, accounts, jiraKey) ==>
      && q.account in accounts
      && (q == CommentRequest(ctx, q.account, jiraKey) || q == RemoteLinkRequest(ctx, q.account, jiraKey))
  {
    AttemptsRequestsOrigin(ctx, accounts, jiraKey);
    forall q | q in AttemptsRequests(ctx, accounts, jiraKey)
      ensures q.account in accounts
      ensures q == CommentRequest(ctx, q.account, jiraKey) || q == RemoteLinkRequest(ctx, q.account, jiraKey)
    {
      var j :| 0 <= j < |accounts| && q in AccountAttempt(ctx, accounts[j], jiraKey).requests;
      AttemptSpec(ctx, accounts[j], jiraKey);
      var a := AccountAttempt(ctx, accounts[j], jiraKey);
      var plan := PlannedRequests(ctx, accounts[j], jiraKey);
      assert q in plan[..|a.requests|];
    }
  }

  /** Trying one more account appends its attempt. */
  lemma {:induction false} AttemptsRequestsSnoc(ctx: FeedContext, accounts: seq<ExternalAccount>, a: ExternalAccount, jiraKey: string)
    ensures AttemptsRequests(ctx, accounts + [a], jiraKey) ==
            AttemptsRequests(ctx, accounts, jiraKey) + AccountAttempt(ctx, a, jiraKey).requests
  {
    if accounts == [] {
      assert ([a])[1..] == [];
    } else {
      AttemptsRequestsSnoc(ctx, accounts[1..], a, jiraKey);
      assert (accounts + [a])[1..] == accounts[1..] + [a];
    }
  }

  /** Requests of accounts that all failed were never answered with a non-status exception. */
  lemma FailedRequestsNotRaised(ctx: FeedContext, accounts: seq<ExternalAccount>, jiraKey: string)
    requires forall j :: 0 <= j < |accounts| ==> Failed(ctx, accounts[j], jiraKey)
    ensures forall q :: q in AttemptsRequests(ctx, accounts, jiraKey) ==> ctx.respond(q) != OtherException
  {
    AttemptsRequestsOrigin(ctx, accounts, jiraKey);
    forall q | q in AttemptsRequests(ctx, accounts, jiraKey)
      ensures ctx.respond(q) != OtherException
    {
      var j :| 0 <= j < |accounts| && q in AccountAttempt(ctx, accounts[j], jiraKey).requests;
      FailedAttemptNotRaised(ctx, accounts[j], jiraKey);
    }
  }

  /**
   * First success stops: when accounts 0..k-1 fail with an HTTP status and
   * account k goes through, exactly accounts 0..k are tried, each failure is
   * logged, and the issue is published by account k.
   */
  lemma FirstSuccessStops(ctx: FeedContext, accounts: seq<ExternalAccount>, jiraKey: string, k: nat)
    requires k < |accounts|
    requires forall j :: 0 <= j < k ==> Failed(ctx, accounts[j], jiraKey)
    requires AccountAttempt(ctx, accounts[k], jiraKey).result == Succeeded
    ensures var t := IssueAttempts(ctx, accounts, jiraKey);
      && t.outcome == Published(accounts[k])
      && t.requests == AttemptsRequests(ctx, accounts[..k + 1], jiraKey)
      && t.log == FailureLog(accounts[..k], jiraKey)
      && (forall q :: q in t.requests ==> q.account in accounts[..k + 1])
  {
    IssueAttemptsShape(ctx, accounts, jiraKey);
    assert FirstStop(ctx, accounts, jiraKey) == k;
    AttemptsRequestsMembers(ctx, accounts[..k + 1], jiraKey);
  }

  /**
   * An issue is left unpublished exactly when every account fails with an
   * HTTP status; then every account was tried and logged, and nothing raised.
   */
  lemma AllAccountsFail(ctx: FeedContext, accounts: seq<ExternalAccount>, jiraKey: string)
    ensures var t := IssueAttempts(ctx, accounts, jiraKey);
      && (t.outcome == Unpublished <==> forall j :: 0 <= j < |accounts| ==> Failed(ctx, accounts[j], jiraKey))
      && (t.outcome == Unpublished ==>
            && t.requests == AttemptsRequests(ctx, accounts, jiraKey)
            && t.log == FailureLog(accounts, jiraKey))
  {
    IssueAttemptsShape(ctx, accounts, jiraKey);
    assert accounts[..|accounts|] == accounts;
  }

  /**
   * Only HTTPFutureResponseStatus is caught: an issue aborts on a request
   * answered with another exception, the last request made for it.
   */
  lemma IssueAbortsOnOtherException(ctx: FeedContext, accounts: seq<ExternalAccount>, jiraKey: string)
    ensures var t := IssueAttempts(ctx, accounts, jiraKey);
      t.outcome.Aborted? ==>
        && t.requests != []
        && t.outcome.request == t.requests[|t.requests| - 1]
        && ctx.respond(t.outcome.request) == OtherException
  {
    IssueAttemptsShape(ctx, accounts, jiraKey);
    var k := FirstStop(ctx, accounts, jiraKey);
    if k < |accounts| {
      var last := AccountAttempt(ctx, accounts[k], jiraKey);
      if last.result.Raised? {
        var before := AttemptsRequests(ctx, accounts[..k], jiraKey);
        assert AttemptsRequests(ctx, accounts[..k + 1], jiraKey) == before + last.requests by {
          assert accounts[..k + 1] == accounts[..k] + [accounts[k]];
          AttemptsRequestsSnoc(ctx, accounts[..k], accounts[k], jiraKey);
        }
        assert && last.requests != []
               && last.result.request == last.requests[|last.requests| - 1]
               && ctx.respond(last.result.request) == OtherException by {
          AttemptSpec(ctx, accounts[k], jiraKey);
        }
        assert (before + last.requests)[|before + last.requests| - 1] == last.requests[|last.requests| - 1];
      }
    }
  }

  /** An issue that does not abort met no exception other than an HTTP status failure. */
  lemma IssueCatchesOnlyStatus(ctx: FeedContext, accounts: seq<ExternalAccount>, jiraKey: string)
    ensures var t := IssueAttempts(ctx, accounts, jiraKey);
      !t.outcome.Aborted? ==> forall q :: q in t.requests ==> ctx.respond(q) != OtherException
  {
    IssueAttemptsShape(ctx, accounts, jiraKey);
    var k := FirstStop(ctx, accounts, jiraKey);
    FailedRequestsNotRaised(ctx, accounts[..k], jiraKey);
    if k < |accounts| {
      var last := AccountAttempt(ctx, accounts[k], jiraKey);
      if !last.result.Raised? {
        assert AttemptsRequests(ctx, accounts[..k + 1], jiraKey) == AttemptsRequests(ctx, accounts[..k], jiraKey) + last.requests by {
          assert accounts[..k + 1] == accounts[..k] + [accounts[k]];
          AttemptsRequestsSnoc(ctx, accounts[..k], accounts[k], jiraKey);
        }
        assert forall q :: q in last.requests ==> ctx.respond(q) == Ok by {
          AttemptSpec(ctx, accounts[k], jiraKey);
        }
      }
    } else {
      assert accounts[..k] == accounts;
    }
  }

  /** With both options off, the first account goes through without a single request. */
  lemma BothFlagsOffIssue(ctx: FeedContext, accounts: seq<ExternalAccount>, jiraKey: string)
    requires !ShouldPostComment(ctx.config) && !ShouldPostLink(ctx.config)
    ensures IssueAttempts(ctx, accounts, jiraKey) ==
            IssueTrace([], [], if accounts == [] then Unpublished else Published(accounts[0]))
  {
    if accounts != [] {
      IssueAttemptsCons(ctx, accounts, jiraKey);
    }
  }

  /** With the comment option off, only remote links are posted. */
  lemma CommentOffOnlyLinks(ctx: FeedContext, accounts: seq<ExternalAccount>, jiraKey: string)
    requires !ShouldPostComment(ctx.config)
    ensures forall q :: q in IssueAttempts(ctx, accounts, jiraKey).requests ==>
              q == RemoteLinkRequest(ctx, q.account, jiraKey)
  {
    IssueRequestsTarget(ctx, accounts, jiraKey);
    forall q | q in IssueAttempts(ctx, accounts, jiraKey).requests
      ensures q == RemoteLinkRequest(ctx, q.account, jiraKey)
    {
      var j :| 0 <= j < |accounts| && q in AccountAttempt(ctx, accounts[j], jiraKey).requests;
      AttemptSpec(ctx, accounts[j], jiraKey);
      var a := AccountAttempt(ctx, accounts[j], jiraKey);
      assert q in PlannedRequests(ctx, accounts[j], jiraKey)[..|a.requests|];
    }
  }

  /**
   * Every request made for an issue is its comment or its remote link, made
   * as one of the accounts tried, and comes from one of their attempts.
   */
  lemma IssueRequestsTarget(ctx: FeedContext, accounts: seq<ExternalAccount>, jiraKey: string)
    ensures forall q :: q in IssueAttempts(ctx, accounts, jiraKey).requests ==>
      && q.account in accounts
      && (q == CommentRequest(ctx, q.account, jiraKey) || q == RemoteLinkRequest(ctx, q.account, jiraKey))
      && exists j :: 0 <= j < |accounts| && q in AccountAttempt(ctx, accounts[j], jiraKey).requests
  {
    IssueAttemptsShape(ctx, accounts, jiraKey);
    var k := FirstStop(ctx, accounts, jiraKey);
    var tried := if k < |accounts| then accounts[..k + 1] else accounts;
    AttemptsRequestsMembers(ctx, tried, jiraKey);
    AttemptsRequestsOrigin(ctx, tried, jiraKey);
    forall q | q in AttemptsRequests(ctx, tried, jiraKey)
      ensures q.account in accounts
      ensures exists j :: 0 <= j < |accounts| && q in AccountAttempt(ctx, accounts[j], jiraKey).requests
    {
      var j :| 0 <= j < |tried| && q in AccountAttempt(ctx, tried[j], jiraKey).requests;
      assert tried[j] == accounts[j];
    }
  }

  /**
   * A partial success repeats the comment: when the first account's comment
   * goes through and its link fails with an HTTP status, the second account
   * posts the same comment to the same issue again.
   */
  lemma PartialSuccessRepeatsComment(ctx: FeedContext, accounts: seq<ExternalAccount>, jiraKey: string)
    requires |accounts| >= 2
    requires ShouldPostComment(ctx.config) && ShouldPostLink(ctx.config)
    requires ctx.respond(CommentRequest(ctx, accounts[0], jiraKey)) == Ok
    requires ctx.respond(RemoteLinkRequest(ctx, accounts[0], jiraKey)) == HttpStatusFailure
    ensures var t := IssueAttempts(ctx, accounts, jiraKey);
      && |t.requests| >= 3
      && t.requests[..3] == [CommentRequest(ctx, accounts[0], jiraKey),
                             RemoteLinkRequest(ctx, accounts[0], jiraKey),
                             CommentRequest(ctx, accounts[1], jiraKey)]
      && t.requests[2].path == t.requests[0].path
      && t.requests[2].payload == t.requests[0].payload
      && t.log[0] == UpdateFailed(jiraKey, accounts[0].userPhid)
  {
    IssueAttemptsCons(ctx, accounts, jiraKey);
    IssueAttemptsCons(ctx, accounts[1..], jiraKey);
  }
}
