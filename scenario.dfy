/**
 * A worked example: a revision owned by U1, with active user U2, CC user U3
 * and author U2, linked to issue R1 on install D, where U1 and U3 have JIRA
 * accounts on D and U2 has none.
 */
module Scenario {
  import opened Wrappers
  import opened PhpArrays
  import opened Doorkeeper
  import opened Candidates
  import opened Accounts
  import opened Publishing
  import opened IssueFacts

  /** The JIRA accounts of U1 and U3 on install D. */
  const AcctA := ExternalAccount("XA", "U1", "jira", "D", true, true)
  const AcctC := ExternalAccount("XC", "U3", "jira", "D", true, true)

  function ScenarioPublisher(): Publisher {
    Publisher("U1", ["U2"], [], ["U3"], "https://example/D1", "updated", false)
  }

  /**
   * The author is put in front of the de-duplicated related users without
   * being checked against them, so U2 occurs twice.
   */
  lemma ScenarioCandidates()
    ensures FindUsersToPossess("U2", ScenarioPublisher()) == ["U2", "U1", "U2", "U3"]
  {
    var p := ScenarioPublisher();
    var all := RelatedUsers(p);
    assert all == ["U1", "U2", "U3"];
    assert Truthy("U1") && Truthy("U2") && Truthy("U3");
    FilterKeepsAll(Truthy, all);
    assert NoDuplicates(all);
    ArrayUniqueKeepsDistinct(all);
    assert RelatedCandidates(p) == all;
    CandidateOrder("U2", p);
    assert FindUsersToPossess("U2", p) == ["U2"] + all;
    AuthorInFront();
  }

  lemma AuthorInFront()
    ensures ["U2"] + ["U1", "U2", "U3"] == ["U2", "U1", "U2", "U3"]
  {
  }

  lemma ScenarioQuery()
    ensures QueryAccounts([AcctA, AcctC], ["U2", "U1", "U2", "U3"], "jira", "D") == [AcctA, AcctC]
  {
    var users := ["U2", "U1", "U2", "U3"];
    assert Usable(AcctA, users, "jira", "D") && Usable(AcctC, users, "jira", "D");
    FilterKeepsAll((a: ExternalAccount) => Usable(a, users, "jira", "D"), [AcctA, AcctC]);
  }

  lemma ScenarioPull()
    ensures MPull(UserPhidOf, [AcctA, AcctC]) == [("U1", AcctA), ("U3", AcctC)]
  {
    var q := [AcctA, AcctC];
    assert q[..1] == [AcctA] && q[..1][..0] == [];
    assert MPull(UserPhidOf, q[..1]) == [("U1", AcctA)];
    AppendUserC();
  }

  lemma AppendUserC()
    ensures Put([("U1", AcctA)], "U3", AcctC) == [("U1", AcctA), ("U3", AcctC)]
  {
    var m := [("U1", AcctA)];
    assert m[1..] == [];
    assert Put(m, "U3", AcctC) == [("U1", AcctA)] + Put([], "U3", AcctC);
  }

  lemma ScenarioSelect()
    ensures ArraySelectKeys([("U1", AcctA), ("U3", AcctC)], ["U2", "U1", "U2", "U3"]) == [("U1", AcctA), ("U3", AcctC)]
  {
    var m := [("U1", AcctA), ("U3", AcctC)];
    var users := ["U2", "U1", "U2", "U3"];
    assert users[..3] == ["U2", "U1", "U2"] && users[..3][..2] == ["U2", "U1"];
    assert users[..3][..2][..1] == ["U2"] && users[..3][..2][..1][..0] == [];
    assert Lookup(m, "U2") == None;
    assert ArraySelectKeys(m, ["U2"]) == [];
    assert ArraySelectKeys(m, ["U2", "U1"]) == [("U1", AcctA)];
    assert ArraySelectKeys(m, ["U2", "U1", "U2"]) == [("U1", AcctA)];
    assert m[1..] == [("U3", AcctC)];
    assert Lookup(m, "U3") == Some(AcctC);
    AppendUserC();
  }

  /**
   * The accounts for D follow the candidates: U2 has none, U1's comes first,
   * and the second U2 adds nothing.
   */
  lemma ScenarioAccounts()
    ensures ResolveAccounts([AcctA, AcctC], ["U2", "U1", "U2", "U3"], "jira", "D") == [AcctA, AcctC]
  {
    ScenarioQuery();
    ScenarioPull();
    ScenarioSelect();
  }

  /** With comments enabled, the first request for R1, made with those accounts, is U1's comment. */
  lemma ScenarioFirstAttempt(ctx: FeedContext)
    requires ShouldPostComment(ctx.config)
    ensures var t := IssueAttempts(ctx, [AcctA, AcctC], "R1");
      t.requests != [] && t.requests[0] == CommentRequest(ctx, AcctA, "R1")
  {
    IssueAttemptsCons(ctx, [AcctA, AcctC], "R1");
    var first := AccountAttempt(ctx, AcctA, "R1");
    assert first.requests[0] == CommentRequest(ctx, AcctA, "R1");
  }

  /**
    * The whole worked example: from the story's candidates, through the
    * accounts of install D, to U1's comment as the first request for R1.
    */
  lemma ScenarioRun(ctx: FeedContext)
    requires ShouldPostComment(ctx.config)
    ensures var accounts := ResolveAccounts([AcctA, AcctC], FindUsersToPossess("U2", ScenarioPublisher()), "jira", "D");
      var t := IssueAttempts(ctx, accounts, "R1");
      t.requests != [] && t.requests[0] == CommentRequest(ctx, AcctA, "R1")
  {
    ScenarioCandidates();
    ScenarioAccounts();
    ScenarioFirstAttempt(ctx);
  }
}
