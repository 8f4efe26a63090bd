/** background.js as an object: POLL_INTERVAL, the access token and the two
    caches are fields, and each function of the script that changes them is
    a method.  Every method is proved to follow the state functions of
    module Background.  Browser calls (notification display, tabs, windows,
    storage) are left out; network answers are parameters. */
module Script {
  import opened Wrappers
  import opened Request
  import opened Notifications
  import opened Urls
  import opened Classifier
  import opened Background

  class BackgroundScript {
    var pollInterval: int
    var accessToken: Option<string>
    var notificationURLs: map<string, Option<string>>
    var readNotifications: map<string, bool>

    /** The fields as a State value. */
    function Model(): State
      reads this
    {
      State(pollInterval, accessToken, Caches(notificationURLs, readNotifications))
    }

    /** The script's top level and `start`: default interval, empty caches,
        and the token read from the preference store. */
    constructor (token: Option<string>)
      ensures Model() == State(DefaultPollInterval, token, Caches(map[], map[]))
    {
      pollInterval := DefaultPollInterval;
      accessToken := token;
      notificationURLs := map[];
      readNotifications := map[];
    }

    /** `setMinPollInterval`: lengthen the interval, never shorten it. */
    method SetMinPollInterval(interval: int)
      modifies this
      ensures Model() == old(Model()).(pollInterval := RaisedInterval(old(pollInterval), interval))
    {
      if interval > pollInterval {
        pollInterval := interval;
      }
    }

    /** `getAccessToken`, without the configuration alert it displays. */
    method GetAccessToken() returns (r: Result<string, RequestError>)
      ensures r == TokenResult(accessToken)
    {
      if !HasToken(accessToken) {
        return Failure(MissingToken);
      }
      return Success(accessToken.value);
    }

    /** `apiRequest`: prepare the options, classify the answer of fetch, and
        apply the X-Poll-Interval hint of a successful answer.  `sent` is
        the request handed to fetch. */
    method ApiRequest(url: string, requestOptions: RequestOptions, requireStatus: Option<int>, fetched: FetchOutcome)
      returns (r: Result<Response, RequestError>, sent: Option<Request>)
      modifies this
      ensures r == RequestResult(old(accessToken), fetched, requireStatus)
      ensures sent == SentRequest(url, requestOptions, old(accessToken))
      ensures Model() == old(Model()).(pollInterval := IntervalAfter(old(pollInterval), r))
    {
      var token := GetAccessToken();
      if token.Failure? {
        return Failure(token.error), None;
      }
      var options := PrepareOptions(requestOptions, token.value);
      sent := Some(Request(url, options));
      match fetched
      case NetworkError =>
        r := Failure(NetworkFailure);
      case Responded(response) =>
        if !IsOk(response.status) {
          r := Failure(HttpStatus(response.status));
        } else if RequiresStatus(requireStatus) && response.status != requireStatus.value {
          r := Failure(UnexpectedStatus(response.status));
        } else {
          if response.pollHint.Some? {
            SetMinPollInterval(response.pollHint.value * 1000);
          }
          r := Success(response);
        }
    }

    /** `isOpenPR`. */
    method IsOpenPR(n: Notification, pr: PrLookup) returns (r: Result<bool, UrlError>)
      modifies this
      ensures r == PullRequestIsOpen(n, old(accessToken), pr)
      ensures Model() == old(Model()).(pollInterval :=
        if r.Success? then IntervalAfter(old(pollInterval), RequestResult(old(accessToken), pr.fetched, None))
        else old(pollInterval))
    {
      var number := IdFromApiUrl(n.subject.url);
      if number.None? {
        return Failure(MissingId(n.subject.url));
      }
      var response, _ := ApiRequest(PullRequestApiUrl(n, number.value), NoOptions, None, pr.fetched);
      if response.Failure? {
        return Success(true);
      }
      return Success(pr.state == "open");
    }

    /** The body of the `forEach` callback of `checkNotifications`, for one
        notification, run to completion. */
    method ProcessNotification(item: Item, limitCommentsToPRsOnly: bool) returns (d: Decision)
      modifies this
      ensures d == DecisionIn(old(Model()), item, limitCommentsToPRsOnly)
      ensures Model() == Step(old(Model()), item, limitCommentsToPRsOnly)
    {
      var n := item.notification;
      ghost var st := Model();
      if !n.unread {
        d := Suppressed(NotUnread);
      } else if IsLocallyRead(Model().caches, n.id) {
        d := Suppressed(LocallyRead);
      } else if IsAlreadyShown(Model().caches, n.id) {
        d := Suppressed(AlreadyShown);
      } else if !IsInterestingReason(n.reason) {
        d := Suppressed(UninterestingReason);
      } else if limitCommentsToPRsOnly && n.reason == "comment" && n.subject.kind != PullRequest {
        d := Suppressed(CommentNotOnPullRequest);
      } else {
        d := ShowIfOpen(item, limitCommentsToPRsOnly);
        return;
      }
      assert LocalSuppression(n, st.caches, limitCommentsToPRsOnly) == Some(d.rule);
    }

    /** The rest of the callback once every local check has passed: the
        pull-request lookup, URL resolution and recording the URL. */
    method ShowIfOpen(item: Item, limitCommentsToPRsOnly: bool) returns (d: Decision)
      requires LocalSuppression(item.notification, Model().caches, limitCommentsToPRsOnly).None?
      modifies this
      ensures d == DecisionIn(old(Model()), item, limitCommentsToPRsOnly)
      ensures Model() == Step(old(Model()), item, limitCommentsToPRsOnly)
    {
      var n := item.notification;
      ghost var st := Model();
      if n.subject.kind == PullRequest {
        var open := IsOpenPR(n, item.pr);
        if open.Failure? {
          assert DecisionIn(st, item, limitCommentsToPRsOnly) == Dropped(open.error);
          assert Step(st, item, limitCommentsToPRsOnly) == st;
          return Dropped(open.error);
        }
        if !open.value {
          assert DecisionIn(st, item, limitCommentsToPRsOnly) == Suppressed(ClosedPullRequest);
          assert Step(st, item, limitCommentsToPRsOnly) == Model();
          return Suppressed(ClosedPullRequest);
        }
      }
      assert DecisionIn(st, item, limitCommentsToPRsOnly) == Resolve(n);
      var url := NotificationUrl(n);
      if url.Failure? {
        return Dropped(url.error);
      }
      notificationURLs := notificationURLs[n.id := url.value];
      d := Shown(url.value);
    }

    /** `checkNotifications`: list the notifications since `since`, then
        process each in order.  A failed listing is caught and ends the run. */
    method CheckNotifications(since: string, listed: FetchOutcome, items: seq<Item>)
      modifies this
      ensures Model() == Poll(old(Model()), listed, items, false)
    {
      var response, _ := ApiRequest(NotificationsUrl(since), NoOptions, None, listed);
      if response.Failure? {
        return;
      }
      var limitCommentsToPRsOnly := false;
      ghost var start := Model();
      var i := 0;
      while i < |items|
        invariant 0 <= i <= |items|
        invariant Model() == Batch(start, items[..i], limitCommentsToPRsOnly)
      {
        assert items[..i + 1][..i] == items[..i];
        var decision := ProcessNotification(items[i], limitCommentsToPRsOnly);
        i := i + 1;
      }
      assert items[..|items|] == items;
    }

    /** `markNotificationAsRead`: PATCH the thread and require 205. */
    method MarkNotificationAsRead(id: string, now: string, fetched: FetchOutcome)
      returns (r: Result<Response, RequestError>, sent: Option<Request>)
      modifies this
      ensures r == RequestResult(old(accessToken), fetched, Some(HttpStatusReset))
      ensures sent == SentRequest(ThreadUrl(id), MarkReadOptions(now), old(accessToken))
      ensures Model() == old(Model()).(pollInterval := IntervalAfter(old(pollInterval), r))
    {
      r, sent := ApiRequest(ThreadUrl(id), MarkReadOptions(now), Some(HttpStatusReset), fetched);
    }

    /** `handleNotificationClick`, without clearing the desktop notification
        and opening the tab: mark the thread read and record it locally. */
    method HandleNotificationClick(id: string, now: string, marked: FetchOutcome) returns (outcome: ClickOutcome)
      modifies this
      ensures (Model(), outcome) == Click(old(Model()), id, marked)
    {
      if IsAlreadyShown(Model().caches, id) {
        var result, _ := MarkNotificationAsRead(id, now, marked);
        if result.Failure? {
          return MarkReadFailed(result.error);
        }
        readNotifications := readNotifications[id := true];
        outcome := Acknowledged;
      } else {
        outcome := NoUrl;
      }
    }
  }
}
