/**
 * The entities the JIRA feed worker reads and writes. Everything the worker
 * looks up (the edge store, the external-object and account stores and the
 * configuration) arrives as a value; the JIRA server is a function from the
 * request sent to its outcome.
 */
module Doorkeeper {
  import opened Wrappers

  /** A Phabricator object identifier; a null PHID is the empty string. */
  type Phid = string

  /** The active JIRA authentication provider. */
  datatype Provider = Provider(providerType: string)

  /**
   * A Doorkeeper external object: one JIRA issue on one JIRA install
   * (`applicationDomain`), with the JIRA key `objectId`. `visible` says
   * whether the worker's viewer may see it.
   */
  datatype ExternalObject = ExternalObject(
    phid: Phid,
    applicationDomain: string,
    objectId: string,
    visible: bool)

  /**
   * A user's linked external account; `canView` and `canEdit` are the
   * viewer's capabilities on it.
   */
  datatype ExternalAccount = ExternalAccount(
    phid: Phid,
    userPhid: Phid,
    accountType: string,
    accountDomain: string,
    canView: bool,
    canEdit: bool)

  /** The object the feed story is about. */
  datatype StoryObject = StoryObject(phid: Phid, monogram: string, title: string)

  /** What the feed-story publisher reports about the story's object. */
  datatype Publisher = Publisher(
    ownerPhid: Phid,
    activeUserPhids: seq<Phid>,
    passiveUserPhids: seq<Phid>,
    ccUserPhids: seq<Phid>,
    objectUri: string,
    storyText: string,
    objectClosed: bool)

  /** The JSON body of a POST to the JIRA REST API. */
  datatype Payload =
    | Comment(body: string)
    | RemoteLink(
        globalId: string,
        applicationType: string,
        applicationName: string,
        relationship: string,
        url: string,
        title: string,
        summary: string,
        resolved: bool)

  /** A POST to JIRA, made as `account`, to the API path `path`. */
  datatype Request = Request(account: ExternalAccount, path: string, payload: Payload)

  /**
   * How resolving a JIRA future ends: a JSON answer, an HTTPFutureResponseStatus
   * exception, or any other exception.
   */
  datatype Response = Ok | HttpStatusFailure | OtherException

  /** The worker's log lines. */
  datatype LogEntry =
    | NoLinkedIssues
    | NoExternalObjects
    | NoUsersToActAs
    | UpdateFailed(objectId: string, userPhid: Phid)

  /** Everything one run of the worker sees. */
  datatype FeedContext = FeedContext(
    authorPhid: Phid,
    storyObject: StoryObject,
    publisher: Publisher,
    issueEdges: map<Phid, seq<Phid>>,
    externalObjects: seq<ExternalObject>,
    externalAccounts: seq<ExternalAccount>,
    config: map<string, bool>,
    respond: Request -> Response)

  const PostCommentOption := "jira.post-comment"
  const PostLinkOption := "jira.post-link"

  /** A boolean option's value: its configured value, else its default (both options default to true). */
  function ConfigFlag(config: map<string, bool>, option: string): bool {
    if option in config then config[option] else true
  }

  function ShouldPostComment(config: map<string, bool>): bool {
    ConfigFlag(config, PostCommentOption)
  }

  function ShouldPostLink(config: map<string, bool>): bool {
    ConfigFlag(config, PostLinkOption)
  }

  /**
    * Each option defaults to true on its own: whatever else the configuration
    * holds, an option it leaves out is on, and one it sets has the set value.
    */
  lemma FlagsDefaultOn(config: map<string, bool>)
    ensures PostCommentOption !in config ==> ShouldPostComment(config)
    ensures PostLinkOption !in config ==> ShouldPostLink(config)
    ensures PostCommentOption in config ==> ShouldPostComment(config) == config[PostCommentOption]
    ensures PostLinkOption in config ==> ShouldPostLink(config) == config[PostLinkOption]
  {
  }

  /** The worker is enabled exactly when a JIRA provider is configured. */
  predicate IsEnabled(jiraProvider: Option<Provider>) {
    jiraProvider.Some?
  }
}
