/** `auth.js`: the two access checks. Both extract a key from the `Authorization` header
    with the case-insensitive pattern `^Bearer\s+(?:sk-)?(.+)$`. */
module Auth {
  import opened Wrappers
  import opened Text

  /** ASCII letters compared without case, as the `i` flag does for these letters. */
  function LowerAscii(c: char): char
  {
    if 'A' <= c <= 'Z' then (c as int + 32) as char else c
  }

  /** `h` starts with "Bearer" in any case. */
  predicate BearerAt(h: string)
  {
    && |h| >= 6
    && LowerAscii(h[0]) == 'b' && LowerAscii(h[1]) == 'e' && LowerAscii(h[2]) == 'a'
    && LowerAscii(h[3]) == 'r' && LowerAscii(h[4]) == 'e' && LowerAscii(h[5]) == 'r'
  }

  /** "sk-" in any case starts at index `i` of `h`. */
  predicate SkAt(h: string, i: nat)
  {
    i + 3 <= |h| && LowerAscii(h[i]) == 's' && LowerAscii(h[i + 1]) == 'k' && h[i + 2] == '-'
  }

  function CaptureStart(k: nat, sk: bool): nat
  {
    6 + k + (if sk then 3 else 0)
  }

  /** One way the pattern can match `h`: "Bearer", then `k >= 1` white-space characters,
      then "sk-" when `sk` holds, then a non-empty rest with no line terminator, which is
      the capture. */
  ghost predicate ParseAt(h: string, k: nat, sk: bool)
  {
    && BearerAt(h)
    && k >= 1
    && 6 + k <= |h|
    && (forall i :: 6 <= i < 6 + k ==> IsSpace(h[i]))
    && (sk ==> SkAt(h, 6 + k))
    && CaptureStart(k, sk) < |h|
    && (forall i :: CaptureStart(k, sk) <= i < |h| ==> !IsLineTerminator(h[i]))
  }

  /** `match[1]`: the backtracking matcher tries the longest white-space run first and "sk-"
      before skipping it, so the parse it returns is the one whose capture starts last. */
  ghost predicate IsFirstMatch(h: string, r: Option<string>)
  {
    && (r.None? <==> forall k: nat, sk :: !ParseAt(h, k, sk))
    && (r.Some? ==> exists k: nat, sk ::
          && ParseAt(h, k, sk)
          && r.value == h[CaptureStart(k, sk)..]
          && forall k': nat, sk' :: ParseAt(h, k', sk') ==> CaptureStart(k', sk') <= CaptureStart(k, sk))
  }

  /** The end of the white-space run that starts at `i`. */
  function SpaceRunEnd(h: string, i: nat): (e: nat)
    requires i <= |h|
    ensures i <= e <= |h|
    ensures forall t :: i <= t < e ==> IsSpace(h[t])
    ensures e == |h| || !IsSpace(h[e])
    decreases |h| - i
  {
    if i < |h| && IsSpace(h[i]) then SpaceRunEnd(h, i + 1) else i
  }

  /** `authHeader.match(...)?.[1]`, computed in one pass: after the longest white-space run,
      a rest free of line terminators is the capture (less a leading "sk-" if more follows);
      with nothing left, the last white-space character alone is the capture when the run
      has at least two and it is not a line terminator. */
  function BearerKey(h: string): (r: Option<string>)
    ensures IsFirstMatch(h, r)
    ensures r.Some? ==> r.value != [] && NoLineTerminator(r.value)
  {
    if |h| < 7 || !BearerAt(h) || !IsSpace(h[6]) then
      ParsesHaveShape(h);
      None
    else
      var e := SpaceRunEnd(h, 6);
      if e < |h| && NoLineTerminator(h[e..]) then
        if e + 3 < |h| && SkAt(h, e) then
          LastParse(h, e - 6, true);
          Some(h[e + 3..])
        else
          LastParse(h, e - 6, false);
          Some(h[e..])
      else if e == |h| && e - 6 >= 2 && !IsLineTerminator(h[e - 1]) then
        LastParse(h, e - 7, false);
        Some(h[e - 1..])
      else
        ParsesHaveShape(h);
        None
  }

  /** Any parse uses at most the whole white-space run, and "sk-" only after all of it. */
  lemma ParseBounds(h: string, k: nat, sk: bool)
    requires ParseAt(h, k, sk) && |h| >= 7 && IsSpace(h[6])
    ensures var e := SpaceRunEnd(h, 6); k <= e - 6 && (sk ==> k == e - 6)
  {
    var e := SpaceRunEnd(h, 6);
    assert e < |h| ==> !IsSpace(h[e]);
    var c := h[6 + k];
    assert 6 + k < e ==> IsSpace(c);
  }

  /** What a header that admits a parse looks like after its white-space run: a rest free of
      line terminators, or no rest and a run of two or more ending in a character that is
      not a line terminator. */
  predicate ParseShape(h: string)
  {
    && |h| >= 7 && BearerAt(h) && IsSpace(h[6])
    && var e := SpaceRunEnd(h, 6);
       || (e < |h| && NoLineTerminator(h[e..]))
       || (e == |h| && e - 6 >= 2 && !IsLineTerminator(h[e - 1]))
  }

  lemma ParsesHaveShape(h: string)
    ensures forall k: nat, sk :: ParseAt(h, k, sk) ==> ParseShape(h)
  {
    forall k: nat, sk | ParseAt(h, k, sk) ensures ParseShape(h) {
      assert IsSpace(h[6]);
      ParseBounds(h, k, sk);
      var e := SpaceRunEnd(h, 6);
      if e < |h| {
        forall t | 0 <= t < |h[e..]| ensures !IsLineTerminator(h[e..][t]) {
          assert h[e..][t] == h[e + t];
          assert sk && e + t < e + 3 ==> h[e + t] == 's' || h[e + t] == 'S' || h[e + t] == 'k' || h[e + t] == 'K' || h[e + t] == '-';
        }
      }
    }
  }

  /** The parse with `k` white-space characters and `sk` captures from the latest start. */
  lemma LastParse(h: string, k: nat, sk: bool)
    requires |h| >= 7 && BearerAt(h) && IsSpace(h[6])
    requires var e := SpaceRunEnd(h, 6);
      || (k == e - 6 && e < |h| && NoLineTerminator(h[e..]) && (sk <==> e + 3 < |h| && SkAt(h, e)))
      || (k == e - 7 && !sk && e == |h| && k >= 1 && !IsLineTerminator(h[e - 1]))
    ensures ParseAt(h, k, sk)
    ensures forall k': nat, sk' :: ParseAt(h, k', sk') ==> CaptureStart(k', sk') <= CaptureStart(k, sk)
  {
    var e := SpaceRunEnd(h, 6);
    forall i | CaptureStart(k, sk) <= i < |h| ensures !IsLineTerminator(h[i]) {
      if k == e - 6 {
        assert h[i] == h[e..][i - e];
      }
    }
    forall k': nat, sk' | ParseAt(h, k', sk') ensures CaptureStart(k', sk') <= CaptureStart(k, sk) {
      ParseBounds(h, k', sk');
    }
  }

  /** What a middleware does with the request: pass it on, answer 401 with a JSON error, or
      redirect to the login page. */
  datatype Decision = Next | Unauthorized(error: string) | RedirectToLogin

  /** `apiAuthMiddleware` with `API_KEY` = `apiKey` and the `Authorization` header. */
  function ApiAuth(apiKey: Option<string>, authorization: Option<string>): (d: Decision)
    ensures d == Next <==> !Truthy(apiKey) || (Truthy(authorization) && BearerKey(authorization.value) == apiKey)
    ensures d == Unauthorized("Missing API key in Authorization header") <==> Truthy(apiKey) && !Truthy(authorization)
    ensures d == Unauthorized("Invalid Authorization header format") <==>
      Truthy(apiKey) && Truthy(authorization) && BearerKey(authorization.value).None?
    ensures d == Unauthorized("Invalid API key") <==>
      Truthy(apiKey) && Truthy(authorization) && BearerKey(authorization.value).Some? && BearerKey(authorization.value) != apiKey
    ensures d != RedirectToLogin
  {
    if !Truthy(apiKey) then Next
    else if !Truthy(authorization) then Unauthorized("Missing API key in Authorization header")
    else
      match BearerKey(authorization.value)
      case None => Unauthorized("Invalid Authorization header format")
      case Some(key) => if key != apiKey.value then Unauthorized("Invalid API key") else Next
  }

  /** The parts of a request the admin middleware looks at. */
  datatype AdminRequest = AdminRequest(
    adminLoggedIn: bool, authorization: Option<string>, path: string, xhr: bool, accept: Option<string>)

  /** `adminAuthMiddleware` with `API_KEY` = `apiKey`. */
  function AdminAuth(apiKey: Option<string>, req: AdminRequest): (d: Decision)
    ensures d == Next <==>
      req.adminLoggedIn || (Truthy(req.authorization) && BearerKey(req.authorization.value).Some? && BearerKey(req.authorization.value) == apiKey)
    ensures d.Unauthorized? ==> d.error == "Unauthorized"
    ensures d != Next ==>
      (d.Unauthorized? <==> StartsWith(req.path, "/api/") || req.xhr || (req.accept.Some? && Contains(req.accept.value, "application/json")))
  {
    if req.adminLoggedIn then Next
    else if Truthy(req.authorization) && BearerKey(req.authorization.value).Some? && BearerKey(req.authorization.value) == apiKey then Next
    else if StartsWith(req.path, "/api/") || req.xhr || (req.accept.Some? && Contains(req.accept.value, "application/json")) then
      Unauthorized("Unauthorized")
    else RedirectToLogin
  }

  /** With `API_KEY` unset or empty, the API check lets every request through while the admin
      check lets through only a logged-in session. */
  lemma NoKeyConfigured(authorization: Option<string>, req: AdminRequest)
    ensures ApiAuth(None, authorization) == Next && ApiAuth(Some(""), authorization) == Next
    ensures AdminAuth(None, req) == Next <==> req.adminLoggedIn
    ensures AdminAuth(Some(""), req) == Next <==> req.adminLoggedIn
  {
  }

  /** `Bearer <key>` and `Bearer sk-<key>` both give `<key>`, for a key that does not itself
      start with "sk-" or white space and has no line terminator. */
  lemma SkPrefixIsOptional(key: string)
    requires key != [] && !IsSpace(key[0]) && NoLineTerminator(key)
    requires !SkAt(key, 0)
    ensures BearerKey("Bearer " + key) == Some(key)
    ensures BearerKey("Bearer sk-" + key) == Some(key)
  {
    var h1 := "Bearer " + key;
    assert h1[7] == key[0];
    assert SpaceRunEnd(h1, 6) == 7 by { assert SpaceRunEnd(h1, 7) == 7; }
    assert h1[7..] == key;
    var h2 := "Bearer sk-" + key;
    assert SpaceRunEnd(h2, 6) == 7 by { assert SpaceRunEnd(h2, 7) == 7; }
    assert SkAt(h2, 7) && h2[10..] == key;
    assert h2[7..] == "sk-" + key;
  }

  /** A configured key that itself starts with "sk-" is never accepted as sent: the header
      `Bearer <API_KEY>` has the "sk-" stripped before the comparison. */
  lemma SkKeyAsSentIsRejected(rest: string)
    requires rest != [] && NoLineTerminator(rest)
    ensures ApiAuth(Some("sk-" + rest), Some("Bearer sk-" + rest)) == Unauthorized("Invalid API key")
  {
    var h := "Bearer sk-" + rest;
    assert SpaceRunEnd(h, 6) == 7 by { assert SpaceRunEnd(h, 7) == 7; }
    assert SkAt(h, 7) && h[10..] == rest;
    assert h[7..] == "sk-" + rest;
    assert rest != "sk-" + rest by { assert |rest| < |"sk-" + rest|; }
  }
}
