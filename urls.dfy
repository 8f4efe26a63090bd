/** URL resolution of background.js: `getIdFromApiUrl`, the regular
    expression /\/([0-9]+)$/ written out, and `getNotificationURL`. */
module Urls {
  import opened Wrappers
  import opened Notifications

  /** getIdFromApiUrl threw: the API URL has no trailing number. */
  datatype UrlError = MissingId(apiUrl: string)

  predicate IsDigit(c: char) {
    '0' <= c <= '9'
  }

  predicate AllDigits(s: string) {
    forall i :: 0 <= i < |s| ==> IsDigit(s[i])
  }

  /** The pattern /\/([0-9]+)$/ matches `s` starting at position k: a slash
      followed by one or more digits that run to the end. */
  predicate IdSegmentAt(s: string, k: int) {
    0 <= k < |s| - 1 && s[k] == '/' && AllDigits(s[k + 1..])
  }

  /** Length of the longest suffix of `s` made of digits only. */
  function DigitRunLength(s: string): (n: nat)
    ensures n <= |s|
  {
    if |s| == 0 || !IsDigit(s[|s| - 1]) then 0
    else 1 + DigitRunLength(s[..|s| - 1])
  }

  /** The suffix DigitRunLength measures is all digits and cannot be
      extended: the character before it, if any, is not a digit. */
  lemma {:induction false} DigitRunIsMaximal(s: string)
    ensures forall i :: |s| - DigitRunLength(s) <= i < |s| ==> IsDigit(s[i])
    ensures DigitRunLength(s) < |s| ==> !IsDigit(s[|s| - DigitRunLength(s) - 1])
  {
    if |s| > 0 && IsDigit(s[|s| - 1]) {
      var t := s[..|s| - 1];
      DigitRunIsMaximal(t);
      assert forall i :: 0 <= i < |t| ==> t[i] == s[i];
    }
  }

  /** `getIdFromApiUrl`: the trailing run of digits when a slash precedes
      it, None where the source throws. */
  function IdFromApiUrl(apiUrl: string): (r: Option<string>)
    ensures r.Some? ==>
      r.value != [] && AllDigits(r.value)
      && IdSegmentAt(apiUrl, |apiUrl| - |r.value| - 1)
      && apiUrl == apiUrl[..|apiUrl| - |r.value| - 1] + "/" + r.value
    ensures r.None? ==> forall k :: !IdSegmentAt(apiUrl, k)
  {
    var n := DigitRunLength(apiUrl);
    DigitRunIsMaximal(apiUrl);
    if 0 < n < |apiUrl| && apiUrl[|apiUrl| - n - 1] == '/' then
      assert apiUrl == apiUrl[..|apiUrl| - n - 1] + "/" + apiUrl[|apiUrl| - n..];
      Some(apiUrl[|apiUrl| - n..])
    else
      assert forall k :: !IdSegmentAt(apiUrl, k) by {
        forall k | IdSegmentAt(apiUrl, k) ensures false {
          SegmentIsDigitRun(apiUrl, k);
        }
      }
      None
  }

  /** A match at k means the longest digit suffix is exactly the part after k. */
  lemma SegmentIsDigitRun(s: string, k: int)
    requires IdSegmentAt(s, k)
    ensures DigitRunLength(s) == |s| - k - 1
  {
    DigitRunIsMaximal(s);

  }

  /** getIdFromApiUrl succeeds exactly when the pattern matches; the match
      is unique and the result is the digits after it. */
  lemma IdFoundAtMatch(s: string, k: int)
    requires IdSegmentAt(s, k)
    ensures IdFromApiUrl(s) == Some(s[k + 1..])
    ensures forall j :: IdSegmentAt(s, j) ==> j == k
  {
    SegmentIsDigitRun(s, k);
    forall j | IdSegmentAt(s, j) ensures j == k {
      SegmentIsDigitRun(s, j);
    }
  }

  /** Joining a prefix, a slash and a number and extracting the id gives
      the number back. */
  lemma {:induction false} IdOfJoined(prefix: string, digits: string)
    requires digits != [] && AllDigits(digits)
    ensures IdFromApiUrl(prefix + "/" + digits) == Some(digits)
  {
    var s := prefix + "/" + digits;
    assert s[|prefix| + 1..] == digits;
    IdFoundAtMatch(s, |prefix|);
  }

  /** `getNotificationURL`: Failure where the source throws (no id in the
      subject's API URL), Success(None) where it returns undefined. */
  function NotificationUrl(n: Notification): (r: Result<Option<string>, UrlError>)
    ensures r.Failure? <==> IsIssueLike(n.subject.kind) && IdFromApiUrl(n.subject.url).None?
    ensures r == Success(None) <==>
      n.subject.kind != RepositoryInvitation && n.subject.kind != RepositoryVulnerabilityAlert
      && !IsIssueLike(n.subject.kind) && n.subject.repository.None?
    ensures n.subject.kind == RepositoryInvitation ==>
      r == Success(Some(n.repository.htmlUrl + "/invitations"))
    ensures n.subject.kind == RepositoryVulnerabilityAlert ==>
      r == Success(Some(n.repository.htmlUrl + "/network/dependencies"))
    ensures IsIssueLike(n.subject.kind) && r.Success? ==>
      r.value.Some? && IdFromApiUrl(r.value.value) == IdFromApiUrl(n.subject.url)
      && r.value.value == n.repository.htmlUrl + "/issues/" + IdFromApiUrl(n.subject.url).value
    ensures (!IsIssueLike(n.subject.kind) && n.subject.kind != RepositoryInvitation
             && n.subject.kind != RepositoryVulnerabilityAlert && n.subject.repository.Some?) ==>
      r == Success(Some(n.subject.repository.value.htmlUrl))
  {
    var kind := n.subject.kind;
    if kind == RepositoryInvitation then
      Success(Some(n.repository.htmlUrl + "/invitations"))
    else if kind == RepositoryVulnerabilityAlert then
      Success(Some(n.repository.htmlUrl + "/network/dependencies"))
    else if IsIssueLike(kind) then
      match IdFromApiUrl(n.subject.url)
      case None => Failure(MissingId(n.subject.url))
      case Some(number) =>
        IdOfJoined(n.repository.htmlUrl + "/issues", number);
        assert n.repository.htmlUrl + "/issues/" + number == n.repository.htmlUrl + "/issues" + "/" + number;
        Success(Some(n.repository.htmlUrl + "/issues/" + number))
    else if n.subject.repository.Some? then
      Success(Some(n.subject.repository.value.htmlUrl))
    else
      Success(None)
  }

  /** An issue URL ending in /issues/42 resolves to the repository page of issue 42. */
  lemma IssueScenario()
    ensures NotificationUrl(Notification("1", true, "mention",
      Subject(Issue, "https://api.github.com/repos/org/repo/issues/42", "t", None),
      Repository("org/repo", "https://github.com/org/repo", "https://api.github.com/repos/org/repo"), ""))
      == Success(Some("https://github.com/org/repo/issues/42"))
  {
    IdOfJoined("https://api.github.com/repos/org/repo/issues", "42");
    assert "https://api.github.com/repos/org/repo/issues" + "/" + "42" == "https://api.github.com/repos/org/repo/issues/42";
    assert "https://github.com/org/repo" + "/issues/" + "42" == "https://github.com/org/repo/issues/42";
  }
}
