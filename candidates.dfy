/**
 * The users the worker may act as when publishing a story: the story's author
 * first, then the object's owner, active, passive and CC users.
 */
module Candidates {
  import opened PhpArrays
  import opened Doorkeeper

  /** array_merge of the owner and the three user lists, in that order. */
  function RelatedUsers(p: Publisher): seq<Phid> {
    [p.ownerPhid] + p.activeUserPhids + p.passiveUserPhids + p.ccUserPhids
  }

  /**
   * The candidate list: the related users, falsy entries dropped and
   * de-duplicated, with the author put in front of them; falsy entries are
   * dropped again, but the author is not checked against the related users.
   */
  function FindUsersToPossess(authorPhid: Phid, p: Publisher): seq<Phid> {
    Filter(Truthy, [authorPhid] + RelatedCandidates(p))
  }

  /** The related part of the candidate list: what follows the author. */
  function RelatedCandidates(p: Publisher): (r: seq<Phid>)
    ensures NoDuplicates(r)
    ensures forall x :: x in r <==> Truthy(x) && x in RelatedUsers(p)
  {
    ArrayUnique(Filter(Truthy, RelatedUsers(p)))
  }

  /** The candidate list is the author, when truthy, followed by the de-duplicated related users. */
  lemma CandidateOrder(authorPhid: Phid, p: Publisher)
    ensures FindUsersToPossess(authorPhid, p) ==
            (if Truthy(authorPhid) then [authorPhid] else []) + RelatedCandidates(p)
  {
    var rel := RelatedCandidates(p);
    var author := [authorPhid];
    assert author[..0] == [];
    assert Filter(Truthy, author) == if Truthy(authorPhid) then author else [];
    FilterAppend(Truthy, author, rel);
    FilterKeepsAll(Truthy, rel);
  }

  /**
   * The related users keep the order in which they first occur in the owner,
   * active, passive and CC lists.
   */
  lemma RelatedCandidatesOrder(p: Publisher)
    ensures forall i, j :: 0 <= i < j < |RelatedCandidates(p)| ==>
              FirstIndex(RelatedUsers(p), RelatedCandidates(p)[i]) < FirstIndex(RelatedUsers(p), RelatedCandidates(p)[j])
  {
    var all := RelatedUsers(p);
    var r := RelatedCandidates(p);
    forall i, j | 0 <= i < j < |r|
      ensures FirstIndex(all, r[i]) < FirstIndex(all, r[j])
    {
      FilterKeepsFirstOrder(Truthy, all, r[i], r[j]);
    }
  }

  /**
   * What the candidate list holds: only truthy PHIDs, exactly the truthy
   * author and related users, the author first when truthy, and no repeats
   * except that the author may occur a second time among the related users.
   */
  lemma CandidateContents(authorPhid: Phid, p: Publisher)
    ensures var r := FindUsersToPossess(authorPhid, p);
      && (forall x :: x in r ==> Truthy(x))
      && (forall x :: x in r <==> Truthy(x) && (x == authorPhid || x in RelatedUsers(p)))
      && (Truthy(authorPhid) ==> r[0] == authorPhid)
      && (forall i, j :: 0 <= i < j < |r| && r[i] == r[j] ==> i == 0 && r[i] == authorPhid)
  {
    CandidateOrder(authorPhid, p);
  }

  /** The candidate list is empty exactly when the author and every related user are falsy. */
  lemma NoCandidates(authorPhid: Phid, p: Publisher)
    ensures FindUsersToPossess(authorPhid, p) == [] <==>
            !Truthy(authorPhid) && forall x :: x in RelatedUsers(p) ==> !Truthy(x)
  {
    CandidateOrder(authorPhid, p);
    var rel := RelatedCandidates(p);
    if rel != [] {
      assert rel[0] in rel;
    }
  }
}
