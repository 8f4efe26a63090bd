/** The process-wide state of background.js as a value, and what each
    entry point does to it: one notification of a poll (`Step`), a whole
    poll (`Poll`), and a click (`Click`).  The class in script.dfy is
    proved to follow these functions. */
module Background {
  import opened Wrappers
  import opened Request
  import opened Notifications
  import opened Urls
  import opened Classifier

  /** POLL_INTERVAL, the access token and the two caches. */
  datatype State = State(pollInterval: int, accessToken: Option<string>, caches: Caches)

  /** One element of the notification list, with the answers its
      pull-request lookup would get (ignored unless that lookup is made). */
  datatype Item = Item(notification: Notification, pr: PrLookup)

  /** How a click ended: no cached URL, the mark-read request threw, or
      the id was recorded as read. */
  datatype ClickOutcome = NoUrl | MarkReadFailed(error: RequestError) | Acknowledged

  /** The classification reaches the pull-request request of `isOpenPR`. */
  predicate ReachesPullRequestFetch(n: Notification, c: Caches, limitCommentsToPRsOnly: bool) {
    LocalSuppression(n, c, limitCommentsToPRsOnly).None? && n.subject.kind == PullRequest
    && IdFromApiUrl(n.subject.url).Some?
  }

  /** The decision for an item in state `st`. */
  function DecisionIn(st: State, item: Item, limitCommentsToPRsOnly: bool): Decision {
    Classify(item.notification, st.caches, limitCommentsToPRsOnly, st.accessToken, item.pr)
  }

  /** State after one notification's callback has run to completion. */
  function Step(st: State, item: Item, limitCommentsToPRsOnly: bool): (r: State)
    ensures r.accessToken == st.accessToken
    ensures r.caches.readNotifications == st.caches.readNotifications
    ensures r.pollInterval >= st.pollInterval
    ensures r.pollInterval != st.pollInterval ==> ReachesPullRequestFetch(item.notification, st.caches, limitCommentsToPRsOnly)
    ensures !DecisionIn(st, item, limitCommentsToPRsOnly).Shown? ==> r.caches == st.caches
    ensures forall id :: id in st.caches.notificationURLs ==> id in r.caches.notificationURLs
    ensures forall id :: IsAlreadyShown(st.caches, id) ==>
      r.caches.notificationURLs[id] == st.caches.notificationURLs[id]
  {
    var d := DecisionIn(st, item, limitCommentsToPRsOnly);
    assert d.Shown? ==> LocalSuppression(item.notification, st.caches, limitCommentsToPRsOnly).None?;
    State(
      IntervalAfterLookup(st.pollInterval, Lookup(st, item, limitCommentsToPRsOnly)),
      st.accessToken,
      Caches(Record(st.caches.notificationURLs, item.notification.id, DecisionIn(st, item, limitCommentsToPRsOnly)),
             st.caches.readNotifications))
  }

  /** The answer of the pull-request request, when the classification makes one. */
  function Lookup(st: State, item: Item, limitCommentsToPRsOnly: bool): Option<Result<Response, RequestError>> {
    if ReachesPullRequestFetch(item.notification, st.caches, limitCommentsToPRsOnly) then
      Some(RequestResult(st.accessToken, item.pr.fetched, None))
    else None
  }

  function IntervalAfterLookup(interval: int, lookup: Option<Result<Response, RequestError>>): int {
    match lookup
    case None => interval
    case Some(r) => IntervalAfter(interval, r)
  }

  /** The URL cache after a decision: a shown notification's URL is stored. */
  function Record(urls: map<string, Option<string>>, id: string, d: Decision): (r: map<string, Option<string>>)
    ensures r.Keys == if d.Shown? then urls.Keys + {id} else urls.Keys
    ensures d.Shown? ==> r[id] == d.url
    ensures forall k :: k in urls && (k != id || !d.Shown?) ==> r[k] == urls[k]
  {
    if d.Shown? then urls[id := d.url] else urls
  }

  /** The ids of a list of items. */
  function ItemIds(items: seq<Item>): set<string> {
    if items == [] then {} else ItemIds(items[..|items| - 1]) + {items[|items| - 1].notification.id}
  }

  /** State after every item of the list, in order.  The read cache and the
      token do not change, the interval does not shrink, no shown URL is
      lost, and only the listed ids can be added. */
  function Batch(st: State, items: seq<Item>, limitCommentsToPRsOnly: bool): (r: State)
    ensures r.accessToken == st.accessToken
    ensures r.caches.readNotifications == st.caches.readNotifications
    ensures r.pollInterval >= st.pollInterval
    ensures forall id :: id in st.caches.notificationURLs ==> id in r.caches.notificationURLs
    ensures forall id :: IsAlreadyShown(st.caches, id) ==>
      IsAlreadyShown(r.caches, id) && r.caches.notificationURLs[id] == st.caches.notificationURLs[id]
    ensures forall id :: id in r.caches.notificationURLs ==> id in st.caches.notificationURLs || id in ItemIds(items)
    decreases |items|
  {
    if items == [] then st
    else Step(Batch(st, items[..|items| - 1], limitCommentsToPRsOnly), items[|items| - 1], limitCommentsToPRsOnly)
  }

  /** The address of the notification listing. */
  const NotificationsEndpoint: string := "https://api.github.com/notifications?participating=true&since="

  /** The URL of the notification listing request: participating
      notifications, since the given timestamp. */
  function NotificationsUrl(since: string): (r: string)
    ensures |r| == |NotificationsEndpoint| + |since|
    ensures r[..|NotificationsEndpoint|] == NotificationsEndpoint && r[|NotificationsEndpoint|..] == since
  {
    NotificationsEndpoint + since
  }

  /** One run of `checkNotifications`: the listing request, then every item.
      A failed listing leaves the whole state as it was. */
  function Poll(st: State, listed: FetchOutcome, items: seq<Item>, limitCommentsToPRsOnly: bool): (r: State)
    ensures RequestResult(st.accessToken, listed, None).Failure? ==> r == st
    ensures r.accessToken == st.accessToken
    ensures r.caches.readNotifications == st.caches.readNotifications
    ensures r.pollInterval >= st.pollInterval
    ensures forall id :: id in st.caches.notificationURLs ==> id in r.caches.notificationURLs
    ensures forall id :: IsAlreadyShown(st.caches, id) ==>
      IsAlreadyShown(r.caches, id) && r.caches.notificationURLs[id] == st.caches.notificationURLs[id]
    ensures forall id :: id in r.caches.notificationURLs ==> id in st.caches.notificationURLs || id in ItemIds(items)
  {
    if RequestResult(st.accessToken, listed, None).Success? then
      Batch(ListingState(st, listed), items, limitCommentsToPRsOnly)
    else ListingState(st, listed)
  }

  /** The state once the listing request has returned: only its poll hint
      has been applied. */
  function ListingState(st: State, listed: FetchOutcome): State {
    st.(pollInterval := IntervalAfter(st.pollInterval, RequestResult(st.accessToken, listed, None)))
  }

  /** The address of one notification thread, without its id. */
  const ThreadsEndpoint: string := "https://api.github.com/notifications/threads"

  /** The URL of the mark-read request: the thread endpoint, "/" and the
      id, so a numeric id can be read back from it. */
  function ThreadUrl(id: string): (r: string)
    ensures |r| == |ThreadsEndpoint| + 1 + |id|
    ensures r[..|ThreadsEndpoint|] == ThreadsEndpoint && r[|ThreadsEndpoint|] == '/'
    ensures r[|ThreadsEndpoint| + 1..] == id
    ensures id != [] && AllDigits(id) ==> IdFromApiUrl(r) == Some(id)
  {
    var url := ThreadsEndpoint + "/" + id;
    assert url[|ThreadsEndpoint| + 1..] == id;
    if id != [] && AllDigits(id) then
      IdOfJoined(ThreadsEndpoint, id);
      url
    else url
  }

  /** The opening of the mark-read body, up to the timestamp's value. */
  const LastReadAtOpening: string := "{\"last_read_at\":\""

  /** The options of the mark-read request: a PATCH whose body is the JSON
      object `{"last_read_at":"<now>"}`. */
  function MarkReadOptions(now: string): (o: RequestOptions)
    ensures o.httpMethod == "PATCH" && o.headers == map[]
    ensures o.body.Some? && |o.body.value| == |LastReadAtOpening| + |now| + 2
    ensures o.body.value[..|LastReadAtOpening|] == LastReadAtOpening
    ensures o.body.value[|LastReadAtOpening|..|LastReadAtOpening| + |now|] == now
    ensures o.body.value[|LastReadAtOpening| + |now|..] == "\"}"
  {
    var body := LastReadAtOpening + now + "\"}";
    assert body[|LastReadAtOpening|..|LastReadAtOpening| + |now|] == now;
    assert body[|LastReadAtOpening| + |now|..] == "\"}";
    RequestOptions("PATCH", map[], Some(body))
  }

  /** `handleNotificationClick`: the id is recorded as read only when a URL
      is cached for it and the mark-read request answered 205; the URL
      cache is never changed. */
  function Click(st: State, id: string, marked: FetchOutcome): (r: (State, ClickOutcome))
    ensures r.0.caches.notificationURLs == st.caches.notificationURLs
    ensures r.0.accessToken == st.accessToken
    ensures r.0.pollInterval >= st.pollInterval
    ensures r.1 != Acknowledged ==> r.0.pollInterval == st.pollInterval
    ensures r.1 == NoUrl <==> !IsAlreadyShown(st.caches, id)
    ensures r.1 == NoUrl ==> r.0 == st
    ensures r.1 == Acknowledged <==>
      IsAlreadyShown(st.caches, id) && HasToken(st.accessToken)
      && marked.Responded? && marked.response.status == HttpStatusReset
    ensures r.1 == Acknowledged ==> r.0.caches.readNotifications == st.caches.readNotifications[id := true]
    ensures r.1 != Acknowledged ==> r.0.caches.readNotifications == st.caches.readNotifications
  {
    if IsAlreadyShown(st.caches, id) then
      var result := RequestResult(st.accessToken, marked, Some(HttpStatusReset));
      var after := st.(pollInterval := IntervalAfter(st.pollInterval, result));
      match result
      case Failure(e) => (after, MarkReadFailed(e))
      case Success(_) =>
        (after.(caches := after.caches.(readNotifications := after.caches.readNotifications[id := true])), Acknowledged)
    else (st, NoUrl)
  }
}
