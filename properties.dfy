/** Properties of the decision logic of background.js, stated over the
    state functions of module Background. */
module Properties {
  import opened Wrappers
  import opened Request
  import opened Notifications
  import opened Urls
  import opened Classifier
  import opened Background

  /** A notification that is not unread, is marked read locally, or is
      already shown is suppressed by that rule whatever its reason, and
      nothing in the state changes. */
  lemma CachedOrReadIsSuppressed(st: State, item: Item, limitCommentsToPRsOnly: bool)
    requires !item.notification.unread || IsLocallyRead(st.caches, item.notification.id)
      || IsAlreadyShown(st.caches, item.notification.id)
    ensures !item.notification.unread ==> DecisionIn(st, item, limitCommentsToPRsOnly) == Suppressed(NotUnread)
    ensures item.notification.unread && IsLocallyRead(st.caches, item.notification.id) ==>
      DecisionIn(st, item, limitCommentsToPRsOnly) == Suppressed(LocallyRead)
    ensures item.notification.unread && !IsLocallyRead(st.caches, item.notification.id) ==>
      DecisionIn(st, item, limitCommentsToPRsOnly) == Suppressed(AlreadyShown)
    ensures Step(st, item, limitCommentsToPRsOnly) == st
  {
  }

  /** A reason outside the interesting set suppresses and changes nothing. */
  lemma UninterestingReasonIsSuppressed(st: State, item: Item, limitCommentsToPRsOnly: bool)
    requires item.notification.unread
    requires !IsLocallyRead(st.caches, item.notification.id) && !IsAlreadyShown(st.caches, item.notification.id)
    requires !IsInterestingReason(item.notification.reason)
    ensures DecisionIn(st, item, limitCommentsToPRsOnly) == Suppressed(UninterestingReason)
    ensures Step(st, item, limitCommentsToPRsOnly) == st
  {
  }

  /** With the comment restriction on, a comment on anything but a pull
      request is suppressed; with it off, that rule never applies. */
  lemma CommentRestriction(st: State, item: Item)
    requires item.notification.unread
    requires !IsLocallyRead(st.caches, item.notification.id) && !IsAlreadyShown(st.caches, item.notification.id)
    requires item.notification.reason == "comment" && item.notification.subject.kind != PullRequest
    ensures DecisionIn(st, item, true) == Suppressed(CommentNotOnPullRequest)
    ensures Step(st, item, true) == st
    ensures !DecisionIn(st, item, false).Suppressed?
  {
  }

  /** A pull request the lookup reports as not open is suppressed; only the
      lookup's poll hint can change the state. */
  lemma ClosedPullRequestIsSuppressed(st: State, item: Item, limitCommentsToPRsOnly: bool)
    requires LocalSuppression(item.notification, st.caches, limitCommentsToPRsOnly).None?
    requires item.notification.subject.kind == PullRequest && IdFromApiUrl(item.notification.subject.url).Some?
    requires RequestResult(st.accessToken, item.pr.fetched, None).Success? && item.pr.state != "open"
    ensures DecisionIn(st, item, limitCommentsToPRsOnly) == Suppressed(ClosedPullRequest)
    ensures Step(st, item, limitCommentsToPRsOnly)
      == st.(pollInterval := IntervalAfter(st.pollInterval, RequestResult(st.accessToken, item.pr.fetched, None)))
  {
  }

  /** When the lookup request fails for any reason, the pull request counts
      as open: it is shown at its issue page and recorded. */
  lemma FailedLookupFailsOpen(st: State, item: Item, limitCommentsToPRsOnly: bool)
    requires LocalSuppression(item.notification, st.caches, limitCommentsToPRsOnly).None?
    requires item.notification.subject.kind == PullRequest && IdFromApiUrl(item.notification.subject.url).Some?
    requires RequestResult(st.accessToken, item.pr.fetched, None).Failure?
    ensures var url := Some(item.notification.repository.htmlUrl + "/issues/" + IdFromApiUrl(item.notification.subject.url).value);
      DecisionIn(st, item, limitCommentsToPRsOnly) == Shown(url)
      && Step(st, item, limitCommentsToPRsOnly)
         == st.(caches := st.caches.(notificationURLs := st.caches.notificationURLs[item.notification.id := url]))
  {
  }

  /** An accepted notification records its URL under its id, and nothing else. */
  lemma AcceptanceRecordsUrl(st: State, item: Item, limitCommentsToPRsOnly: bool)
    requires DecisionIn(st, item, limitCommentsToPRsOnly).Shown?
    ensures var url := DecisionIn(st, item, limitCommentsToPRsOnly).url;
      url == NotificationUrl(item.notification).value
      && Step(st, item, limitCommentsToPRsOnly).caches
         == Caches(st.caches.notificationURLs[item.notification.id := url], st.caches.readNotifications)
  {
  }

  /** Showing is idempotent: once a notification is shown with a URL,
      classifying the same record again, whatever its lookup answers, is
      suppressed as already shown and changes nothing. */
  lemma ShowingIsIdempotent(st: State, item: Item, again: PrLookup, limitCommentsToPRsOnly: bool)
    requires DecisionIn(st, item, limitCommentsToPRsOnly).Shown?
    requires IsSet(DecisionIn(st, item, limitCommentsToPRsOnly).url)
    ensures var next := Step(st, item, limitCommentsToPRsOnly);
      DecisionIn(next, Item(item.notification, again), limitCommentsToPRsOnly) == Suppressed(AlreadyShown)
      && Step(next, Item(item.notification, again), limitCommentsToPRsOnly) == next
  {
    var next := Step(st, item, limitCommentsToPRsOnly);
    assert IsAlreadyShown(next.caches, item.notification.id);
  }

  /** When no URL could be resolved (undefined is stored), the cache entry is
      falsy, so the same notification is shown again on the next poll. */
  lemma UnresolvedUrlIsShownAgain(st: State, item: Item, limitCommentsToPRsOnly: bool)
    requires DecisionIn(st, item, limitCommentsToPRsOnly).Shown?
    requires !IsSet(DecisionIn(st, item, limitCommentsToPRsOnly).url)
    ensures DecisionIn(Step(st, item, limitCommentsToPRsOnly), item, limitCommentsToPRsOnly)
      == DecisionIn(st, item, limitCommentsToPRsOnly)
  {
    var next := Step(st, item, limitCommentsToPRsOnly);
    assert !IsAlreadyShown(next.caches, item.notification.id);
    assert next.caches.readNotifications == st.caches.readNotifications;
  }

  /** Caches that agree on one id give the same decision for it. */
  lemma {:induction false} ClassifyIsLocalToId(n: Notification, c1: Caches, c2: Caches, limitCommentsToPRsOnly: bool, token: Option<string>, pr: PrLookup)
    requires IsLocallyRead(c1, n.id) == IsLocallyRead(c2, n.id)
    requires IsAlreadyShown(c1, n.id) == IsAlreadyShown(c2, n.id)
    ensures Classify(n, c1, limitCommentsToPRsOnly, token, pr) == Classify(n, c2, limitCommentsToPRsOnly, token, pr)
    ensures LocalSuppression(n, c1, limitCommentsToPRsOnly) == LocalSuppression(n, c2, limitCommentsToPRsOnly)
  {
    assert LocalSuppression(n, c1, limitCommentsToPRsOnly) == LocalSuppression(n, c2, limitCommentsToPRsOnly);
  }

  /** Processing one notification does not change the decision for a
      notification with another id. */
  lemma StepKeepsOtherDecision(st: State, a: Item, b: Item, limitCommentsToPRsOnly: bool)
    requires a.notification.id != b.notification.id
    ensures var sa := Step(st, a, limitCommentsToPRsOnly);
      DecisionIn(sa, b, limitCommentsToPRsOnly) == DecisionIn(st, b, limitCommentsToPRsOnly)
      && ReachesPullRequestFetch(b.notification, sa.caches, limitCommentsToPRsOnly)
         == ReachesPullRequestFetch(b.notification, st.caches, limitCommentsToPRsOnly)
  {
    var sa := Step(st, a, limitCommentsToPRsOnly);
    ClassifyIsLocalToId(b.notification, st.caches, sa.caches, limitCommentsToPRsOnly, st.accessToken, b.pr);
  }

  /** Processing two notifications with different ids in either order gives
      the same state, so the sequential model does not depend on the order
      in which the source's concurrent callbacks finish. */
  lemma {:induction false} StepsCommute(st: State, a: Item, b: Item, limitCommentsToPRsOnly: bool)
    requires a.notification.id != b.notification.id
    ensures Step(Step(st, a, limitCommentsToPRsOnly), b, limitCommentsToPRsOnly)
      == Step(Step(st, b, limitCommentsToPRsOnly), a, limitCommentsToPRsOnly)
  {
    var sa := Step(st, a, limitCommentsToPRsOnly);
    var sb := Step(st, b, limitCommentsToPRsOnly);
    StepKeepsOtherDecision(st, a, b, limitCommentsToPRsOnly);
    StepKeepsOtherDecision(st, b, a, limitCommentsToPRsOnly);
    var la, lb := Lookup(st, a, limitCommentsToPRsOnly), Lookup(st, b, limitCommentsToPRsOnly);
    assert Lookup(sa, b, limitCommentsToPRsOnly) == lb;
    assert Lookup(sb, a, limitCommentsToPRsOnly) == la;
    var da, db := DecisionIn(st, a, limitCommentsToPRsOnly), DecisionIn(st, b, limitCommentsToPRsOnly);
    LookupsCommute(st.pollInterval, la, lb);
    RecordsCommute(st.caches.notificationURLs, a.notification.id, da, b.notification.id, db);
  }

  /** The poll hints of two lookups may be applied in either order. */
  lemma LookupsCommute(interval: int, la: Option<Result<Response, RequestError>>, lb: Option<Result<Response, RequestError>>)
    ensures IntervalAfterLookup(IntervalAfterLookup(interval, la), lb) == IntervalAfterLookup(IntervalAfterLookup(interval, lb), la)
  {
  }

  /** Recording decisions for two different ids may happen in either order. */
  lemma RecordsCommute(urls: map<string, Option<string>>, a: string, da: Decision, b: string, db: Decision)
    requires a != b
    ensures Record(Record(urls, a, da), b, db) == Record(Record(urls, b, db), a, da)
  {
  }

  /** Item i of the list is accepted when its turn comes. */
  predicate AcceptedAt(st: State, items: seq<Item>, i: nat, limitCommentsToPRsOnly: bool)
    requires i < |items|
  {
    DecisionIn(Batch(st, items[..i], limitCommentsToPRsOnly), items[i], limitCommentsToPRsOnly).Shown?
  }

  /** What a prefix of the list has recorded survives the rest of it: no
      key is lost, and a truthy URL keeps its value. */
  lemma {:induction false} BatchKeeps(st: State, items: seq<Item>, j: nat, limitCommentsToPRsOnly: bool)
    requires j <= |items|
    ensures forall id :: id in Batch(st, items[..j], limitCommentsToPRsOnly).caches.notificationURLs ==>
      id in Batch(st, items, limitCommentsToPRsOnly).caches.notificationURLs
    ensures forall id :: IsAlreadyShown(Batch(st, items[..j], limitCommentsToPRsOnly).caches, id) ==>
      Batch(st, items, limitCommentsToPRsOnly).caches.notificationURLs[id]
      == Batch(st, items[..j], limitCommentsToPRsOnly).caches.notificationURLs[id]
    decreases |items|
  {
    if j == |items| {
      assert items[..j] == items;
    } else {
      var init := items[..|items| - 1];
      assert init[..j] == items[..j];
      BatchKeeps(st, init, j, limitCommentsToPRsOnly);
    }
  }

  /** Every notification accepted during a poll's loop is in the URL cache
      afterwards, with the URL it was shown with when that URL is truthy
      (a later duplicate could overwrite a falsy one). */
  lemma {:induction false} ShownIsRecorded(st: State, items: seq<Item>, i: nat, limitCommentsToPRsOnly: bool)
    requires i < |items| && AcceptedAt(st, items, i, limitCommentsToPRsOnly)
    ensures items[i].notification.id in Batch(st, items, limitCommentsToPRsOnly).caches.notificationURLs
    ensures var d := DecisionIn(Batch(st, items[..i], limitCommentsToPRsOnly), items[i], limitCommentsToPRsOnly);
      IsSet(d.url) ==> (IsAlreadyShown(Batch(st, items, limitCommentsToPRsOnly).caches, items[i].notification.id)
        && Batch(st, items, limitCommentsToPRsOnly).caches.notificationURLs[items[i].notification.id] == d.url)
  {
    var before := Batch(st, items[..i], limitCommentsToPRsOnly);
    assert items[..i + 1][..i] == items[..i];
    assert Batch(st, items[..i + 1], limitCommentsToPRsOnly) == Step(before, items[i], limitCommentsToPRsOnly);
    BatchKeeps(st, items, i + 1, limitCommentsToPRsOnly);
  }

  /** Whether an item is accepted depends only on the items before it. */
  lemma AcceptedInPrefix(st: State, items: seq<Item>, k: nat, i: nat, limitCommentsToPRsOnly: bool)
    requires i < k <= |items|
    ensures AcceptedAt(st, items[..k], i, limitCommentsToPRsOnly) == AcceptedAt(st, items, i, limitCommentsToPRsOnly)
  {
    assert items[..k][..i] == items[..i];
  }

  /** A key one callback adds is the id of its notification, which was shown. */
  lemma StepAddsOnlyShown(st: State, item: Item, id: string, limitCommentsToPRsOnly: bool)
    requires id in Step(st, item, limitCommentsToPRsOnly).caches.notificationURLs
    requires id !in st.caches.notificationURLs
    ensures item.notification.id == id && DecisionIn(st, item, limitCommentsToPRsOnly).Shown?
  {
  }

  /** Conversely, an id the loop adds to the URL cache belongs to an item
      that was accepted when its turn came. */
  lemma {:induction false} RecordedWasShown(st: State, items: seq<Item>, id: string, limitCommentsToPRsOnly: bool)
    requires id in Batch(st, items, limitCommentsToPRsOnly).caches.notificationURLs
    requires id !in st.caches.notificationURLs
    ensures exists i :: 0 <= i < |items| && items[i].notification.id == id && AcceptedAt(st, items, i, limitCommentsToPRsOnly)
    decreases |items|
  {
    if items == [] {
      assert false;
    }
    var init := items[..|items| - 1];
    var k := |items| - 1;
    assert items[..k] == init;
    var before := Batch(st, init, limitCommentsToPRsOnly);
    assert Batch(st, items, limitCommentsToPRsOnly) == Step(before, items[k], limitCommentsToPRsOnly);
    if id in before.caches.notificationURLs {
      RecordedWasShown(st, init, id, limitCommentsToPRsOnly);
      var i :| 0 <= i < |init| && init[i].notification.id == id
        && AcceptedAt(st, init, i, limitCommentsToPRsOnly);
      AcceptedInPrefix(st, items, k, i, limitCommentsToPRsOnly);
    } else {
      StepAddsOnlyShown(before, items[k], id, limitCommentsToPRsOnly);
      assert AcceptedAt(st, items, k, limitCommentsToPRsOnly);
    }
  }

  /** A poll whose listing request succeeds records every notification its
      loop accepts, and records nothing else. */
  lemma PollRecordsShown(st: State, listed: FetchOutcome, items: seq<Item>, i: nat, id: string, limitCommentsToPRsOnly: bool)
    requires RequestResult(st.accessToken, listed, None).Success?
    requires i < |items|
    ensures var d := DecisionIn(Batch(ListingState(st, listed), items[..i], limitCommentsToPRsOnly), items[i], limitCommentsToPRsOnly);
      d.Shown? ==> (items[i].notification.id in Poll(st, listed, items, limitCommentsToPRsOnly).caches.notificationURLs
        && (IsSet(d.url) ==>
              Poll(st, listed, items, limitCommentsToPRsOnly).caches.notificationURLs[items[i].notification.id] == d.url))
    ensures id in Poll(st, listed, items, limitCommentsToPRsOnly).caches.notificationURLs && id !in st.caches.notificationURLs ==>
      exists j :: 0 <= j < |items| && items[j].notification.id == id && AcceptedAt(ListingState(st, listed), items, j, limitCommentsToPRsOnly)
  {
    var after := ListingState(st, listed);
    if DecisionIn(Batch(after, items[..i], limitCommentsToPRsOnly), items[i], limitCommentsToPRsOnly).Shown? {
      ShownIsRecorded(after, items, i, limitCommentsToPRsOnly);
    }
    if id in Poll(st, listed, items, limitCommentsToPRsOnly).caches.notificationURLs && id !in st.caches.notificationURLs {
      RecordedWasShown(after, items, id, limitCommentsToPRsOnly);
    }
  }

  /** After an acknowledged click, the same notification is suppressed by the
      local read cache even if the server still reports it unread. */
  lemma AcknowledgedClickSuppresses(st: State, id: string, marked: FetchOutcome, item: Item, limitCommentsToPRsOnly: bool)
    requires Click(st, id, marked).1 == Acknowledged
    requires item.notification.id == id && item.notification.unread
    ensures DecisionIn(Click(st, id, marked).0, item, limitCommentsToPRsOnly) == Suppressed(LocallyRead)
    ensures Step(Click(st, id, marked).0, item, limitCommentsToPRsOnly) == Click(st, id, marked).0
  {
    assert IsLocallyRead(Click(st, id, marked).0.caches, id);
  }

  /** A mark-read request answered with 200 instead of 205 fails, and the
      read cache is left as it was. */
  lemma ClickAnswered200(st: State, id: string, pollHint: Option<int>)
    requires IsAlreadyShown(st.caches, id) && HasToken(st.accessToken)
    ensures Click(st, id, Responded(Response(200, pollHint))).1 == MarkReadFailed(UnexpectedStatus(200))
    ensures Click(st, id, Responded(Response(200, pollHint))).0.caches == st.caches
  {
  }

  /** "subscribed" belongs to the interesting reasons of the source. */
  lemma SubscribedIsInteresting()
    ensures IsInterestingReason("subscribed")
    ensures !IsInterestingReason("team_mention") && !IsInterestingReason("state_change")
  {
  }

  const ExampleRepository: Repository :=
    Repository("org/repo", "https://github.com/org/repo", "https://api.github.com/repos/org/repo")

  /** A mentioned, unread issue with empty caches is shown at its page. */
  lemma MentionedIssueIsShown(token: Option<string>, pr: PrLookup)
    ensures var n := Notification("1", true, "mention",
      Subject(Issue, "https://api.github.com/repos/org/repo/issues/42", "t", None), ExampleRepository, "");
      DecisionIn(State(DefaultPollInterval, token, Caches(map[], map[])), Item(n, pr), false)
      == Shown(Some("https://github.com/org/repo/issues/42"))
  {
    IssueScenario();
  }

  /** A pull request reported closed is suppressed; if its lookup fails at
      the network, it is shown. */
  lemma PullRequestScenario(token: Option<string>)
    requires HasToken(token)
    ensures var n := Notification("7", true, "review_requested",
      Subject(PullRequest, "https://api.github.com/repos/org/repo/pulls/28", "t", None), ExampleRepository, "");
      var st := State(DefaultPollInterval, token, Caches(map[], map[]));
      DecisionIn(st, Item(n, PrLookup(Responded(Response(200, None)), "closed")), false) == Suppressed(ClosedPullRequest)
      && DecisionIn(st, Item(n, PrLookup(NetworkError, "")), false) == Shown(Some("https://github.com/org/repo/issues/28"))
  {
    var u := "https://api.github.com/repos/org/repo/pulls/28";
    var n := Notification("7", true, "review_requested", Subject(PullRequest, u, "t", None), ExampleRepository, "");
    IdOfJoined("https://api.github.com/repos/org/repo/pulls", "28");
    assert "https://api.github.com/repos/org/repo/pulls" + "/" + "28" == u;
    assert IdFromApiUrl(u) == Some("28");
    assert "https://github.com/org/repo" + "/issues/" + "28" == "https://github.com/org/repo/issues/28";
    assert NotificationUrl(n) == Success(Some("https://github.com/org/repo/issues/28"));
    assert LocalSuppression(n, Caches(map[], map[]), false).None?;
    assert PullRequestIsOpen(n, token, PrLookup(Responded(Response(200, None)), "closed")) == Success(false);
    assert PullRequestIsOpen(n, token, PrLookup(NetworkError, "")) == Success(true);
  }
}
