/**
 * The `protect` route guard: the bearer token is taken from the Authorization
 * header, then verified and resolved to a user, and every failure is a 401.
 * Token verification and the user lookup are oracles passed in as functions.
 * The extraction departs from section 2.1 of RFC 6750 in matching the `Bearer`
 * scheme case-sensitively and as a bare prefix, and in splitting on single spaces.
 */
module AuthMiddleware {
  import opened Wrappers
  import opened Text

  const Scheme := "Bearer"
  const NotAuthorized := "Not authorized to access this route"
  const UserNotFound := "User not found"

  /**
   * The token in the Authorization header: when the header starts with `Bearer`,
   * its second space-separated field (which may be missing or empty); otherwise None.
   */
  function ExtractToken(header: Option<string>): (token: Option<string>)
    ensures token.Some? <==> header.Some? && StartsWith(header.value, Scheme) && ' ' in header.value
    ensures token.Some? ==> ' ' !in token.value
  {
    match header
    case None => None
    case Some(h) =>
      if !StartsWith(h, Scheme) then None
      else
        var fields := Split(h, ' ');
        SplitFields(h, ' ');
        if |fields| >= 2 then Some(fields[1]) else None
  }

  /** There is a second field exactly when the separator occurs. */
  lemma SplitFields(s: string, sep: char)
    ensures |Split(s, sep)| >= 2 <==> sep in s
  {
  }

  /**
   * The token is the text after the first space, up to the next space or the
   * end of the header.
   */
  lemma TokenIsSecondField(h: string)
    requires StartsWith(h, Scheme) && ' ' in h
    ensures var token := ExtractToken(Some(h)).value;
            var first := IndexOf(h, ' ').value;
            && OccursAt(h, token, first + 1)
            && (first + 1 + |token| == |h| || h[first + 1 + |token|] == ' ')
  {
    TokenAfterFirstSpace(h);
    FieldAfter(h, IndexOf(h, ' ').value);
  }

  /** The first field after position `i` occurs right after it and ends at the end or at a space. */
  lemma FieldAfter(h: string, i: nat)
    requires i < |h|
    ensures var token := Split(h[i + 1..], ' ')[0];
            && OccursAt(h, token, i + 1)
            && (i + 1 + |token| == |h| || h[i + 1 + |token|] == ' ')
  {
    var rest := h[i + 1..];
    FirstFieldPrefix(rest, ' ');
    var token := Split(rest, ' ')[0];
    assert h[i + 1..i + 1 + |token|] == rest[..|token|];
  }

  /** The token is the first field of what follows the header's first space. */
  lemma TokenAfterFirstSpace(h: string)
    requires StartsWith(h, Scheme) && ' ' in h
    ensures var first := IndexOf(h, ' ').value;
            ExtractToken(Some(h)) == Some(Split(h[first + 1..], ' ')[0])
  {
    var first := IndexOf(h, ' ').value;
    var rest := h[first + 1..];
    assert h == h[..first] + [' '] + rest;
    SplitAfterFirst(h[..first], ' ', rest);
  }

  /** The first field of a split is a prefix that ends at the end or at a separator. */
  lemma FirstFieldPrefix(s: string, sep: char)
    ensures var f := Split(s, sep)[0];
            |f| <= |s| && f == s[..|f|] && (|f| == |s| || s[|f|] == sep)
  {
    match IndexOf(s, sep)
    case None =>
    case Some(i) =>
      assert Split(s, sep)[0] == s[..i];
  }

  /** The guard's answer: the request goes on with its user, or is refused with a status and a message. */
  datatype Response<U> = Authorized(user: U) | Rejected(status: int, message: string)

  /** What `User.findById` can do: find the user, find nobody, or throw. */
  datatype Lookup<U> = Found(user: U) | Missing | Failed

  /**
   * `protect`: `verify` stands for `jwt.verify` (None when it throws) and yields
   * the id in the token; `findById` stands for `User.findById`.
   */
  function Protect<U>(header: Option<string>, verify: string -> Option<string>, findById: string -> Lookup<U>): (r: Response<U>)
    ensures r.Rejected? ==> r.status == 401
    ensures r.Authorized? <==>
              && ExtractToken(header).Some? && ExtractToken(header).value != ""
              && verify(ExtractToken(header).value).Some?
              && findById(verify(ExtractToken(header).value).value).Found?
    ensures r.Authorized? ==> r.user == findById(verify(ExtractToken(header).value).value).user
    ensures r.Rejected? && r.message == UserNotFound <==>
              && ExtractToken(header).Some? && ExtractToken(header).value != ""
              && verify(ExtractToken(header).value).Some?
              && findById(verify(ExtractToken(header).value).value).Missing?
    ensures r.Rejected? && r.message != UserNotFound ==> r.message == NotAuthorized
    ensures (ExtractToken(header).Some? && ExtractToken(header).value != ""
             && verify(ExtractToken(header).value).None?)
            ==> r == Rejected(401, NotAuthorized)
    ensures (ExtractToken(header).Some? && ExtractToken(header).value != ""
             && verify(ExtractToken(header).value).Some?
             && findById(verify(ExtractToken(header).value).value).Failed?)
            ==> r == Rejected(401, NotAuthorized)
  {
    match ExtractToken(header)
    case None => Rejected(401, NotAuthorized)
    case Some(token) =>
      if token == "" then Rejected(401, NotAuthorized)
      else match verify(token)
        case None => Rejected(401, NotAuthorized)
        case Some(id) =>
          match findById(id)
          case Found(user) => Authorized(user)
          case Missing => Rejected(401, UserNotFound)
          case Failed => Rejected(401, NotAuthorized)
  }

  /** With no token the oracles are never consulted: the answer is a 401 whatever they say. */
  lemma NoTokenRejected<U>(header: Option<string>, verify: string -> Option<string>, findById: string -> Lookup<U>)
    requires ExtractToken(header).None? || ExtractToken(header) == Some("")
    ensures Protect(header, verify, findById) == Rejected(401, NotAuthorized)
  {
  }

  /** A missing header and a lower-case scheme both give no token. */
  lemma MissingOrLowercaseScheme()
    ensures ExtractToken(None).None?
    ensures ExtractToken(Some("bearer abc")).None?
  {
    assert "bearer abc"[..6] != Scheme by { assert "bearer abc"[0] != Scheme[0]; }
  }

  /** A header `<word> <token><rest>`, where the word starts with the scheme and the rest is empty or starts a new field. */
  lemma HeaderWithToken(word: string, token: string, rest: string)
    requires StartsWith(word, Scheme) && ' ' !in word && ' ' !in token
    requires rest == [] || rest[0] == ' '
    ensures ExtractToken(Some(word + [' '] + token + rest)) == Some(token)
  {
    var h := word + [' '] + token + rest;
    assert h == word + [' '] + (token + rest);
    SplitAfterFirst(word, ' ', token + rest);
    FirstField(token, rest);
    assert h[..|Scheme|] == word[..|Scheme|];
  }

  /** Splitting at a first separator after `word` gives `word`, then the fields of the tail. */
  lemma SplitAfterFirst(word: string, sep: char, tail: string)
    requires sep !in word
    ensures Split(word + [sep] + tail, sep) == [word] + Split(tail, sep)
  {
    var h := word + [sep] + tail;
    IndexOfAfter(word, sep, tail);
    assert h[..|word|] == word;
    assert h[|word| + 1..] == tail;
  }

  /** The first space-separated field of `token + rest` is `token` when `rest` is empty or starts with a space. */
  lemma FirstField(token: string, rest: string)
    requires ' ' !in token
    requires rest == [] || rest[0] == ' '
    ensures Split(token + rest, ' ')[0] == token
  {
    if rest == [] {
      assert token + rest == token;
    } else {
      assert token + rest == token + [' '] + rest[1..];
      SplitAfterFirst(token, ' ', rest[1..]);
    }
  }

  /** `'Bearer a b'` yields `'a'`: only the second space-separated field is the token. */
  lemma SecondFieldOnly()
    ensures ExtractToken(Some("Bearer a b")) == Some("a")
  {
    assert "Bearer a b" == Scheme + [' '] + "a" + " b";
    HeaderWithToken(Scheme, "a", " b");
  }

  /** Headers with nothing usable after the scheme give an empty or no token. */
  lemma EmptyOrNoToken()
    ensures ExtractToken(Some("Bearer")).None?
    ensures ExtractToken(Some("Bearer ")) == Some("")
    ensures ExtractToken(Some("Bearer  x")) == Some("")
    ensures ExtractToken(Some("BearerX")).None?
  {
    assert "Bearer " == Scheme + [' '] + "" + "";
    HeaderWithToken(Scheme, "", "");
    assert "Bearer  x" == Scheme + [' '] + "" + " x";
    HeaderWithToken(Scheme, "", " x");
  }

  /** The prefix test accepts a longer first word: `'BearerX y'` still yields `'y'`. */
  lemma LongerSchemeAccepted()
    ensures ExtractToken(Some("BearerX y")) == Some("y")
  {
    assert "BearerX y" == "BearerX" + [' '] + "y" + "";
    assert "BearerX"[..6] == Scheme;
    HeaderWithToken("BearerX", "y", "");
  }

  /** The header the client builds, `` `Bearer ${token}` ``, gives the token back. */
  lemma ClientHeaderRoundTrip(token: string)
    requires token != "" && ' ' !in token
    ensures ExtractToken(Some("Bearer " + token)) == Some(token)
  {
    assert "Bearer " + token == Scheme + [' '] + token + "";
    HeaderWithToken(Scheme, token, "");
  }
}
