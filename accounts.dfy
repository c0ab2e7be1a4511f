/**
 * Finding the JIRA issues linked to a story's object, grouping them by JIRA
 * install, and choosing, for one install, the linked accounts to publish as.
 * The stores are sequences in the order their queries return rows; the
 * viewer's policy checks are the rows' boolean capabilities.
 */
module Accounts {
  import opened Wrappers
  import opened PhpArrays
  import opened Doorkeeper

  /** The destinations of the object's "has JIRA issue" edges. */
  function LoadDestinationPhids(edges: map<Phid, seq<Phid>>, source: Phid): seq<Phid> {
    if source in edges then edges[source] else []
  }

  /** DoorkeeperExternalObjectQuery with PHIDs: the stored objects with those PHIDs that the viewer can see. */
  function QueryExternalObjects(store: seq<ExternalObject>, phids: seq<Phid>): seq<ExternalObject> {
    Filter((x: ExternalObject) => x.phid in phids && x.visible, store)
  }

  /** The query returns exactly the stored objects with those PHIDs that the viewer can see. */
  lemma QueryExternalObjectsSpec(store: seq<ExternalObject>, phids: seq<Phid>)
    ensures forall x :: x in QueryExternalObjects(store, phids) <==> x in store && x.phid in phids && x.visible
  {
  }

  function DomainOf(x: ExternalObject): string {
    x.applicationDomain
  }

  /** mgroup($xobjs, 'getApplicationDomain'). */
  function GroupByDomain(xobjs: seq<ExternalObject>): OrderedMap<string, seq<ExternalObject>> {
    MGroup(DomainOf, xobjs)
  }

  /**
   * Each JIRA install of the objects has exactly one group, in order of first
   * appearance, and a group holds exactly the objects of its install.
   */
  lemma GroupByDomainSpec(xobjs: seq<ExternalObject>)
    ensures Keys(GroupByDomain(xobjs)) == ArrayUnique(Project(DomainOf, xobjs))
    ensures forall i :: 0 <= i < |GroupByDomain(xobjs)| ==>
              forall x :: x in GroupByDomain(xobjs)[i].1 ==> x in xobjs && x.applicationDomain == GroupByDomain(xobjs)[i].0
    ensures forall x :: x in xobjs ==>
              exists i :: 0 <= i < |GroupByDomain(xobjs)| && x in GroupByDomain(xobjs)[i].1
  {
    MGroupKeys(DomainOf, xobjs);
    GroupMembers(xobjs);
    GroupsCover(xobjs);
  }

  lemma GroupMembers(xobjs: seq<ExternalObject>)
    ensures forall i :: 0 <= i < |GroupByDomain(xobjs)| ==>
              forall x :: x in GroupByDomain(xobjs)[i].1 ==> x in xobjs && x.applicationDomain == GroupByDomain(xobjs)[i].0
  {
    var g := GroupByDomain(xobjs);
    forall i | 0 <= i < |g|
      ensures forall x :: x in g[i].1 ==> x in xobjs && x.applicationDomain == g[i].0
    {
      GroupAt(xobjs, i);
    }
  }

  lemma GroupsCover(xobjs: seq<ExternalObject>)
    ensures forall x :: x in xobjs ==>
              exists i :: 0 <= i < |GroupByDomain(xobjs)| && x in GroupByDomain(xobjs)[i].1
  {
    var g := GroupByDomain(xobjs);
    MGroupKeys(DomainOf, xobjs);
    forall x | x in xobjs
      ensures exists i :: 0 <= i < |g| && x in g[i].1
    {
      var k :| 0 <= k < |xobjs| && xobjs[k] == x;
      assert Project(DomainOf, xobjs)[k] == DomainOf(x);
      assert DomainOf(x) in Keys(g);
      var i :| 0 <= i < |Keys(g)| && Keys(g)[i] == DomainOf(x);
      GroupAt(xobjs, i);
      assert x in g[i].1;
    }
  }

  /** The group at position `i` is the objects of its install. */
  lemma GroupAt(xobjs: seq<ExternalObject>, i: nat)
    requires i < |GroupByDomain(xobjs)|
    ensures GroupByDomain(xobjs)[i].1 == WithKey(DomainOf, xobjs, GroupByDomain(xobjs)[i].0)
  {
    var g := GroupByDomain(xobjs);
    MGroupKeys(DomainOf, xobjs);
    MGroupValues(DomainOf, xobjs);
    assert Keys(g)[i] == g[i].0;
    LookupAt(g, i);
  }

  /**
   * An account the account query returns for these users, provider type and
   * JIRA install: one of the users', of that type and install, and one the
   * viewer can both view and edit.
   */
  predicate Usable(a: ExternalAccount, users: seq<Phid>, providerType: string, domain: string) {
    && a.userPhid in users
    && a.accountType == providerType
    && a.accountDomain == domain
    && a.canView
    && a.canEdit
  }

  /** PhabricatorExternalAccountQuery restricted to the users, the provider's type and one install. */
  function QueryAccounts(store: seq<ExternalAccount>, users: seq<Phid>, providerType: string, domain: string)
    : seq<ExternalAccount>
  {
    Filter((a: ExternalAccount) => Usable(a, users, providerType, domain), store)
  }

  /** The query returns exactly the stored accounts usable for these users on this install. */
  lemma QueryAccountsSpec(store: seq<ExternalAccount>, users: seq<Phid>, providerType: string, domain: string)
    ensures forall a :: a in QueryAccounts(store, users, providerType, domain) <==> a in store && Usable(a, users, providerType, domain)
  {
  }

  function UserPhidOf(a: ExternalAccount): Phid {
    a.userPhid
  }

  /**
   * The accounts to try for one install: the query's accounts keyed by user
   * (mpull), then picked out in candidate order (array_select_keys).
   */
  function ResolveAccounts(store: seq<ExternalAccount>, users: seq<Phid>, providerType: string, domain: string)
    : seq<ExternalAccount>
  {
    Values(ArraySelectKeys(MPull(UserPhidOf, QueryAccounts(store, users, providerType, domain)), users))
  }

  /** Some account of `user` is usable on this install. */
  predicate HasUsableAccount(store: seq<ExternalAccount>, users: seq<Phid>, providerType: string, domain: string, user: Phid) {
    exists a :: a in store && a.userPhid == user && Usable(a, users, providerType, domain)
  }

  /**
   * The accounts to try for an install are usable accounts of the candidates,
   * at most one per candidate, in the order the candidates first appear; a
   * candidate is represented exactly when it has a usable account, and by the
   * last such account the query returned.
   */
  lemma ResolveAccountsSpec(store: seq<ExternalAccount>, users: seq<Phid>, providerType: string, domain: string)
    ensures var r := ResolveAccounts(store, users, providerType, domain);
      && (forall i :: 0 <= i < |r| ==> r[i] in store && Usable(r[i], users, providerType, domain))
      && (forall i, j :: 0 <= i < j < |r| ==> FirstIndex(users, r[i].userPhid) < FirstIndex(users, r[j].userPhid))
      && (forall u :: u in users ==>
            ((exists i :: 0 <= i < |r| && r[i].userPhid == u) <==> HasUsableAccount(store, users, providerType, domain, u)))
      && (forall i :: 0 <= i < |r| ==>
            LastWithKey(UserPhidOf, QueryAccounts(store, users, providerType, domain), r[i].userPhid) == Some(r[i]))
  {
    var q := QueryAccounts(store, users, providerType, domain);
    var r := ResolveAccounts(store, users, providerType, domain);
    var keys := Keys(ArraySelectKeys(MPull(UserPhidOf, q), users));
    forall i | 0 <= i < |r|
      ensures r[i].userPhid == keys[i]
      ensures LastWithKey(UserPhidOf, q, r[i].userPhid) == Some(r[i])
      ensures r[i] in store && Usable(r[i], users, providerType, domain)
    {
      ResolvedAt(store, users, providerType, domain, i);
      assert r[i] in q by {
        LastWithKeyFound(UserPhidOf, q, keys[i]);
      }
      QueryAccountsSpec(store, users, providerType, domain);
    }
    assert forall i, j :: 0 <= i < j < |r| ==> FirstIndex(users, r[i].userPhid) < FirstIndex(users, r[j].userPhid) by {
      ArraySelectKeysOrder(MPull(UserPhidOf, q), users);
    }
    forall u | u in users
      ensures (exists i :: 0 <= i < |r| && r[i].userPhid == u) <==> HasUsableAccount(store, users, providerType, domain, u)
    {
      ResolvedFor(store, users, providerType, domain, u);
    }
  }

  /** The account at position `i` is the last usable one of the candidate keyed there. */
  lemma ResolvedAt(store: seq<ExternalAccount>, users: seq<Phid>, providerType: string, domain: string, i: nat)
    requires i < |ResolveAccounts(store, users, providerType, domain)|
    ensures var sel := ArraySelectKeys(MPull(UserPhidOf, QueryAccounts(store, users, providerType, domain)), users);
      var r := ResolveAccounts(store, users, providerType, domain);
      && r[i].userPhid == Keys(sel)[i]
      && LastWithKey(UserPhidOf, QueryAccounts(store, users, providerType, domain), Keys(sel)[i]) == Some(r[i])
  {
    var q := QueryAccounts(store, users, providerType, domain);
    var m := MPull(UserPhidOf, q);
    var sel := ArraySelectKeys(m, users);
    var r := Values(sel);
    MPullSpec(UserPhidOf, q);
    ArraySelectKeysOrder(m, users);
    ArraySelectKeysValues(m, users);
    var k := Keys(sel)[i];
    assert k == sel[i].0 && r[i] == sel[i].1;
    LookupAt(sel, i);
    assert k in users;
    LastWithKeyFound(UserPhidOf, q, k);
  }

  /** A candidate is represented exactly when it has a usable account. */
  lemma ResolvedFor(store: seq<ExternalAccount>, users: seq<Phid>, providerType: string, domain: string, u: Phid)
    requires u in users
    ensures var r := ResolveAccounts(store, users, providerType, domain);
      (exists i :: 0 <= i < |r| && r[i].userPhid == u) <==> HasUsableAccount(store, users, providerType, domain, u)
  {
    if HasUsableAccount(store, users, providerType, domain, u) {
      UsableIsResolved(store, users, providerType, domain, u);
    }
    var r := ResolveAccounts(store, users, providerType, domain);
    if exists i :: 0 <= i < |r| && r[i].userPhid == u {
      var i :| 0 <= i < |r| && r[i].userPhid == u;
      ResolvedIsUsable(store, users, providerType, domain, i);
    }
  }

  lemma UsableIsResolved(store: seq<ExternalAccount>, users: seq<Phid>, providerType: string, domain: string, u: Phid)
    requires u in users
    requires HasUsableAccount(store, users, providerType, domain, u)
    ensures var r := ResolveAccounts(store, users, providerType, domain);
      exists i :: 0 <= i < |r| && r[i].userPhid == u
  {
    var q := QueryAccounts(store, users, providerType, domain);
    var m := MPull(UserPhidOf, q);
    var sel := ArraySelectKeys(m, users);
    var a :| a in store && a.userPhid == u && Usable(a, users, providerType, domain);
    assert u in Project(UserPhidOf, q) by {
      QueryAccountsSpec(store, users, providerType, domain);
      var k :| 0 <= k < |q| && q[k] == a;
      assert Project(UserPhidOf, q)[k] == u;
    }
    assert u in Keys(m) by {
      MPullSpec(UserPhidOf, q);
    }
    assert u in Keys(sel) by {
      ArraySelectKeysOrder(m, users);
    }
    var i :| 0 <= i < |Keys(sel)| && Keys(sel)[i] == u;
    ResolvedAt(store, users, providerType, domain, i);
  }

  lemma ResolvedIsUsable(store: seq<ExternalAccount>, users: seq<Phid>, providerType: string, domain: string, i: nat)
    requires i < |ResolveAccounts(store, users, providerType, domain)|
    ensures var a := ResolveAccounts(store, users, providerType, domain)[i];
      HasUsableAccount(store, users, providerType, domain, a.userPhid)
  {
    var q := QueryAccounts(store, users, providerType, domain);
    var a := ResolveAccounts(store, users, providerType, domain)[i];
    ResolvedAt(store, users, providerType, domain, i);
    LastWithKeyFound(UserPhidOf, q, a.userPhid);
    QueryAccountsSpec(store, users, providerType, domain);
    assert a in q;
  }
}
