/** The notification records the GitHub notifications endpoint returns,
    restricted to the fields background.js reads. */
module Notifications {
  import opened Wrappers

  datatype Repository = Repository(fullName: string, htmlUrl: string, url: string)

  /** A notification's subject.  `kind` is the `type` field; `repository`
      is present only for subjects that carry their own repository. */
  datatype Subject = Subject(kind: string, url: string, title: string, repository: Option<Repository>)

  datatype Notification = Notification(
    id: string,
    unread: bool,
    reason: string,
    subject: Subject,
    repository: Repository,
    updatedAt: string)

  const PullRequest: string := "PullRequest"
  const Issue: string := "Issue"
  const Commit: string := "Commit"
  const RepositoryInvitation: string := "RepositoryInvitation"
  const RepositoryVulnerabilityAlert: string := "RepositoryVulnerabilityAlert"

  /** The reasons for which a desktop notification may be shown. */
  const InterestingReasons: set<string> :=
    {"assign", "comment", "mention", "review_requested", "author", "manual", "subscribed"}

  /** The source's chain of comparisons with these reasons. */
  predicate IsInterestingReason(reason: string): (b: bool)
    ensures b <==> reason in InterestingReasons
  {
    reason == "assign" || reason == "comment" || reason == "mention" || reason == "review_requested"
    || reason == "author" || reason == "manual" || reason == "subscribed"
  }

  /** Subject types whose page is `<repository>/issues/<number>`. */
  predicate IsIssueLike(kind: string) {
    kind == Commit || kind == Issue || kind == PullRequest
  }
}
