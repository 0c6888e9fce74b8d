/** The login step's handling of the `set-cookie` list (index.js:69-78):
    the CSRF token is the capture group of `/csrf_access_token=([^;]+)/`
    from the first cookie that matches, and the session header value is all
    cookies joined with "; ". */
module Cookies {

  import opened Wrappers

  const CsrfKey: string := "csrf_access_token="

  /** The regex matches at position `i` of `s`: the key starts there and is
      followed by at least one character other than ';' (the `[^;]+`). */
  predicate MatchesAt(s: string, i: nat) {
    i + |CsrfKey| < |s| && s[i..i + |CsrfKey|] == CsrfKey && s[i + |CsrfKey|] != ';'
  }

  /** The leftmost position at or after `i` where the regex matches, which is
      where an unanchored JavaScript regex search settles. */
  function FirstMatchFrom(s: string, i: nat): (r: Option<nat>)
    requires i <= |s|
    ensures r.Some? ==> i <= r.value && MatchesAt(s, r.value)
    ensures r.Some? ==> forall k :: i <= k < r.value ==> !MatchesAt(s, k)
    ensures r.None? ==> forall k :: i <= k ==> !MatchesAt(s, k)
    decreases |s| - i
  {
    if i + |CsrfKey| >= |s| then None
    else if MatchesAt(s, i) then Some(i)
    else FirstMatchFrom(s, i + 1)
  }

  /** What the greedy `[^;]+` consumes from position `j`: the longest run of
      characters other than ';'. */
  function ValueRun(s: string, j: nat): (r: string)
    requires j <= |s|
    ensures j + |r| <= |s| && r == s[j..j + |r|]
    ensures forall k :: 0 <= k < |r| ==> r[k] != ';'
    ensures j + |r| == |s| || s[j + |r|] == ';'
    decreases |s| - j
  {
    if j == |s| || s[j] == ';' then [] else [s[j]] + ValueRun(s, j + 1)
  }

  /** `cookie.match(/csrf_access_token=([^;]+)/)[1]`, or None when there is
      no match. */
  function CsrfCapture(cookie: string): Option<string> {
    match FirstMatchFrom(cookie, 0)
    case None => None
    case Some(i) => Some(ValueRun(cookie, i + |CsrfKey|))
  }

  /** CsrfCapture is the leftmost match's greedy value. The capture is never
      empty, so `match && match[1]` holds exactly when the regex matches. */
  lemma CsrfCaptureIsLeftmostMatch(cookie: string)
    ensures CsrfCapture(cookie).None? <==> forall i: nat :: !MatchesAt(cookie, i)
    ensures CsrfCapture(cookie).Some? ==>
      var v := CsrfCapture(cookie).value;
      |v| > 0 && (forall k :: 0 <= k < |v| ==> v[k] != ';')
      && exists i: nat :: MatchesAt(cookie, i) && (forall k :: 0 <= k < i ==> !MatchesAt(cookie, k))
                         && v == ValueRun(cookie, i + |CsrfKey|)
  {
    var first := FirstMatchFrom(cookie, 0);
    if first.Some? {
      var i := first.value;
      assert MatchesAt(cookie, i);
      var v := ValueRun(cookie, i + |CsrfKey|);
      assert v[0] == cookie[i + |CsrfKey|];
    }
  }

  /** A cookie that begins with the key and a non-empty value yields that value. */
  lemma CaptureOfTokenCookie(v: string, rest: string)
    requires |v| > 0 && forall k :: 0 <= k < |v| ==> v[k] != ';'
    requires rest == [] || rest[0] == ';'
    ensures CsrfCapture(CsrfKey + v + rest) == Some(v)
  {
    var s := CsrfKey + v + rest;
    assert s[..|CsrfKey|] == CsrfKey;
    assert MatchesAt(s, 0);
    ValueRunOf(s, |CsrfKey|, v, rest);
  }

  lemma {:induction false} ValueRunOf(s: string, j: nat, v: string, rest: string)
    requires j <= |s| && s[j..] == v + rest
    requires forall k :: 0 <= k < |v| ==> v[k] != ';'
    requires rest == [] || rest[0] == ';'
    ensures ValueRun(s, j) == v
    decreases |v|
  {
    if v != [] {
      assert s[j] == v[0];
      assert s[j + 1..] == v[1..] + rest;
      ValueRunOf(s, j + 1, v[1..], rest);
    } else {
      assert s[j..] == rest;
    }
  }

  /** The token the login loop settles on: the capture from the first cookie,
      in list order, that matches. */
  function FirstCsrfToken(cookies: seq<string>): Option<string>
    decreases |cookies|
  {
    if cookies == [] then None
    else if CsrfCapture(cookies[0]).Some? then CsrfCapture(cookies[0])
    else FirstCsrfToken(cookies[1..])
  }

  /** FirstCsrfToken takes the capture of the first matching cookie, at
      index `k`; when no cookie matches, `k` is the length and the token
      stays unset. */
  lemma {:induction false} FirstCsrfTokenIsFirstMatch(cookies: seq<string>) returns (k: nat)
    ensures k <= |cookies|
    ensures forall j :: 0 <= j < k ==> CsrfCapture(cookies[j]).None?
    ensures k < |cookies| ==> CsrfCapture(cookies[k]).Some? && FirstCsrfToken(cookies) == CsrfCapture(cookies[k])
    ensures k == |cookies| ==> FirstCsrfToken(cookies).None?
    decreases |cookies|
  {
    if cookies == [] {
      k := 0;
    } else if CsrfCapture(cookies[0]).Some? {
      k := 0;
    } else {
      var tail := cookies[1..];
      var t := FirstCsrfTokenIsFirstMatch(tail);
      k := t + 1;
      forall j | 0 <= j < k ensures CsrfCapture(cookies[j]).None? {
        if j > 0 { assert cookies[j] == tail[j - 1]; }
      }
      if t < |tail| {
        assert cookies[k] == tail[t];
      }
    }
  }

  /** Cookies after the first matching one are ignored. */
  lemma {:induction false} FirstCsrfTokenAppend(a: seq<string>, b: seq<string>)
    ensures FirstCsrfToken(a + b) == if FirstCsrfToken(a).Some? then FirstCsrfToken(a) else FirstCsrfToken(b)
    decreases |a|
  {
    if a == [] {
      assert a + b == b;
    } else {
      assert (a + b)[0] == a[0];
      assert (a + b)[1..] == a[1..] + b;
      FirstCsrfTokenAppend(a[1..], b);
    }
  }

  /** The `for ... of` loop with `break` of index.js:71-77: `token` starts
      unset and takes the capture of the first matching cookie. */
  method ExtractCsrfToken(loginCookies: seq<string>) returns (token: Option<string>)
    ensures token == FirstCsrfToken(loginCookies)
  {
    token := None;
    var i := 0;
    while i < |loginCookies|
      invariant 0 <= i <= |loginCookies|
      invariant token == None
      invariant FirstCsrfToken(loginCookies) == FirstCsrfToken(loginCookies[i..])
    {
      var m := CsrfCapture(loginCookies[i]);
      if m.Some? {
        token := m;
        break;
      }
      assert loginCookies[i..][1..] == loginCookies[i + 1..];
      i := i + 1;
    }
  }

  /** `Array.prototype.join(sep)`: the parts in order with `sep` between
      neighbours; the empty list joins to "". */
  function Join(parts: seq<string>, sep: string): string
    decreases |parts|
  {
    if parts == [] then ""
    else if |parts| == 1 then parts[0]
    else parts[0] + sep + Join(parts[1..], sep)
  }

  function TotalLength(parts: seq<string>): nat
    decreases |parts|
  {
    if parts == [] then 0 else |parts[0]| + TotalLength(parts[1..])
  }

  /** Joining two non-empty lists is joining each and putting `sep` between:
      the cookies keep their original order. */
  lemma {:induction false} JoinConcat(a: seq<string>, b: seq<string>, sep: string)
    requires a != [] && b != []
    ensures Join(a + b, sep) == Join(a, sep) + sep + Join(b, sep)
    decreases |a|
  {
    if |a| == 1 {
      assert (a + b)[0] == a[0] && (a + b)[1..] == b;
    } else {
      assert (a + b)[0] == a[0];
      assert (a + b)[1..] == a[1..] + b;
      JoinConcat(a[1..], b, sep);
    }
  }

  /** The joined header holds every cookie and one separator between each pair. */
  lemma {:induction false} JoinLength(parts: seq<string>, sep: string)
    requires parts != []
    ensures |Join(parts, sep)| == TotalLength(parts) + |sep| * (|parts| - 1)
    decreases |parts|
  {
    if |parts| > 1 {
      JoinLength(parts[1..], sep);
    }
  }
}
