/** The per-notification decision of `checkNotifications` in
    background.js, with `isOpenPR` as a pure function of the answers the
    pull-request lookup returned.  First matching rule wins. */
module Classifier {
  import opened Wrappers
  import opened Request
  import opened Notifications
  import opened Urls

  /** The two caches of background.js: `notificationURLs` (id to the URL
      stored when the notification was shown; None is a stored
      `undefined`) and `readNotifications` (ids marked read locally). */
  datatype Caches = Caches(notificationURLs: map<string, Option<string>>, readNotifications: map<string, bool>)

  /** What the pull-request lookup of `isOpenPR` gets: the outcome of its
      fetch and the `state` field of the JSON body. */
  datatype PrLookup = PrLookup(fetched: FetchOutcome, state: string)

  /** The suppression rules, in the order the source tries them. */
  datatype Suppression =
    | NotUnread
    | LocallyRead
    | AlreadyShown
    | UninterestingReason
    | CommentNotOnPullRequest
    | ClosedPullRequest

  /** Outcome for one notification: suppressed by a rule, shown with the URL
      stored for it, or dropped because the callback threw on a subject URL
      without an id. */
  datatype Decision = Suppressed(rule: Suppression) | Shown(url: Option<string>) | Dropped(error: UrlError)

  /** JavaScript truthiness of a cached URL: undefined and "" are falsy. */
  predicate IsSet(url: Option<string>) {
    url.Some? && url.value != ""
  }

  predicate IsLocallyRead(c: Caches, id: string) {
    id in c.readNotifications && c.readNotifications[id]
  }

  predicate IsAlreadyShown(c: Caches, id: string) {
    id in c.notificationURLs && IsSet(c.notificationURLs[id])
  }

  /** The URL `isOpenPR` fetches: the repository's API URL, "/pulls/"
      and the number, which can be read back from it. */
  function PullRequestApiUrl(n: Notification, number: string): (r: string)
    ensures |n.repository.url| <= |r| && r[..|n.repository.url|] == n.repository.url
    ensures number != [] && AllDigits(number) ==> IdFromApiUrl(r) == Some(number)
  {
    var url := n.repository.url + "/pulls/" + number;
    assert url[..|n.repository.url|] == n.repository.url;
    if number != [] && AllDigits(number) then
      assert url == n.repository.url + "/pulls" + "/" + number;
      IdOfJoined(n.repository.url + "/pulls", number);
      url
    else url
  }

  /** `isOpenPR`: Failure where extracting the number throws (outside the
      try block); true whenever the lookup request fails (fail open);
      otherwise whether the state is "open". */
  function PullRequestIsOpen(n: Notification, token: Option<string>, pr: PrLookup): (r: Result<bool, UrlError>)
    ensures r.Failure? <==> IdFromApiUrl(n.subject.url).None?
    ensures r.Success? && RequestResult(token, pr.fetched, None).Failure? ==> r.value
    ensures r == Success(false) <==>
      IdFromApiUrl(n.subject.url).Some? && RequestResult(token, pr.fetched, None).Success? && pr.state != "open"
  {
    match IdFromApiUrl(n.subject.url)
    case None => Failure(MissingId(n.subject.url))
    case Some(_) =>
      match RequestResult(token, pr.fetched, None)
      case Failure(_) => Success(true)
      case Success(_) => Success(pr.state == "open")
  }

  /** The condition under which each rule, taken alone, suppresses. */
  predicate Fires(rule: Suppression, n: Notification, c: Caches, limitCommentsToPRsOnly: bool, open: Result<bool, UrlError>) {
    match rule
    case NotUnread => !n.unread
    case LocallyRead => IsLocallyRead(c, n.id)
    case AlreadyShown => IsAlreadyShown(c, n.id)
    case UninterestingReason => !IsInterestingReason(n.reason)
    case CommentNotOnPullRequest => limitCommentsToPRsOnly && n.reason == "comment" && n.subject.kind != PullRequest
    case ClosedPullRequest => n.subject.kind == PullRequest && open == Success(false)
  }

  /** Position of a rule in the source's sequence of checks. */
  function Rank(rule: Suppression): nat {
    match rule
    case NotUnread => 0
    case LocallyRead => 1
    case AlreadyShown => 2
    case UninterestingReason => 3
    case CommentNotOnPullRequest => 4
    case ClosedPullRequest => 5
  }

  /** The checks made before the first await: cache lookups and the reason. */
  function LocalSuppression(n: Notification, c: Caches, limitCommentsToPRsOnly: bool): (r: Option<Suppression>)
    ensures r.Some? ==> r.value != ClosedPullRequest
    ensures r.Some? ==> (Fires(r.value, n, c, limitCommentsToPRsOnly, Success(true))
      && forall rule :: Rank(rule) < Rank(r.value) ==> !Fires(rule, n, c, limitCommentsToPRsOnly, Success(true)))
    ensures r.None? ==> forall rule :: rule != ClosedPullRequest ==> !Fires(rule, n, c, limitCommentsToPRsOnly, Success(true))
  {
    if !n.unread then Some(NotUnread)
    else if IsLocallyRead(c, n.id) then Some(LocallyRead)
    else if IsAlreadyShown(c, n.id) then Some(AlreadyShown)
    else if !IsInterestingReason(n.reason) then Some(UninterestingReason)
    else if limitCommentsToPRsOnly && n.reason == "comment" && n.subject.kind != PullRequest then
      Some(CommentNotOnPullRequest)
    else None
  }

  /** Accepting a notification: resolve its URL, or drop it when that throws. */
  function Resolve(n: Notification): (d: Decision)
    ensures d.Shown? <==> NotificationUrl(n).Success?
    ensures d.Shown? ==> d.url == NotificationUrl(n).value
    ensures !d.Shown? ==> d == Dropped(NotificationUrl(n).error)
  {
    match NotificationUrl(n)
    case Failure(e) => Dropped(e)
    case Success(url) => Shown(url)
  }

  /** One notification's classification.  Suppression names the FIRST rule
      that fires; a notification is shown exactly when no rule fires and its
      URL resolves, and it is dropped exactly when no rule fires and URL
      resolution throws. */
  function Classify(n: Notification, c: Caches, limitCommentsToPRsOnly: bool, token: Option<string>, pr: PrLookup): (d: Decision)
    ensures d.Suppressed? ==>
      Fires(d.rule, n, c, limitCommentsToPRsOnly, PullRequestIsOpen(n, token, pr))
      && forall rule :: Rank(rule) < Rank(d.rule) ==> !Fires(rule, n, c, limitCommentsToPRsOnly, PullRequestIsOpen(n, token, pr))
    ensures (exists rule :: Fires(rule, n, c, limitCommentsToPRsOnly, PullRequestIsOpen(n, token, pr))) ==> d.Suppressed?
    ensures d.Shown? <==>
      (forall rule :: !Fires(rule, n, c, limitCommentsToPRsOnly, PullRequestIsOpen(n, token, pr)))
      && NotificationUrl(n).Success?
    ensures d.Shown? ==> d.url == NotificationUrl(n).value && LocalSuppression(n, c, limitCommentsToPRsOnly).None?
    ensures d.Dropped? ==> NotificationUrl(n) == Failure(d.error)
  {
    var open := PullRequestIsOpen(n, token, pr);
    match LocalSuppression(n, c, limitCommentsToPRsOnly)
    case Some(rule) =>
      assert forall r :: Rank(r) < Rank(rule) ==> !Fires(r, n, c, limitCommentsToPRsOnly, open);
      Suppressed(rule)
    case None =>
      if n.subject.kind == PullRequest then
        match open
        case Failure(e) => Dropped(e)
        case Success(isOpen) =>
          if isOpen then Resolve(n) else Suppressed(ClosedPullRequest)
      else Resolve(n)
  }
}
