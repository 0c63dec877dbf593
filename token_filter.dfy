/** `AuthTokenFilter`: extracting the bearer token from the Authorization
    header, and the per-request decision of whether to install an
    authentication before the request continues down the filter chain.

    Token validation, the user-name claim and the user lookup are function
    parameters (JWT signatures and the user store are outside the model);
    a lookup that throws is a lookup that yields `None`. */
module TokenFilter {
  import opened Common

  const BearerPrefix: String := "Bearer "

  /** `StringUtils.hasText`: present, and not made of whitespace only. */
  predicate HasText(s: Option<String>) {
    s.Some? && HasNonWhitespace(s.value)
  }

  predicate StartsWith(s: String, prefix: String) {
    |prefix| <= |s| && s[..|prefix|] == prefix
  }

  /** parseJwt: the header minus its first seven characters when it has text
      and starts (case-sensitively) with "Bearer "; otherwise null. */
  function ParseJwt(header: Option<String>): (r: Option<String>)
    ensures r.Some? <==> HasText(header) && StartsWith(header.value, BearerPrefix)
    ensures r.Some? ==> |r.value| == |header.value| - 7 && header.value == BearerPrefix + r.value
  {
    if HasText(header) && StartsWith(header.value, BearerPrefix) then Some(header.value[7..])
    else None
  }

  /** The prefix alone already has text, so the text test never rejects a
      header that carries the prefix: the result is present exactly when the
      prefix is. */
  lemma PrefixImpliesText(header: String)
    ensures StartsWith(header, BearerPrefix) ==> HasText(Some(header))
    ensures ParseJwt(Some(header)).Some? <==> StartsWith(header, BearerPrefix)
  {
    if StartsWith(header, BearerPrefix) {
      assert header[0] == 'B' && !IsWhitespace(header[0]);
    }
  }

  /** Round trip: any token, the empty one included, comes back out of its
      own "Bearer " header. */
  lemma ParseJwtRoundTrip(token: String)
    ensures ParseJwt(Some(BearerPrefix + token)) == Some(token)
  {
    var h := BearerPrefix + token;
    assert h[..|BearerPrefix|] == BearerPrefix;
    PrefixImpliesText(h);
    assert h[7..] == token;
  }

  /** A missing header, a blank one, or one with another scheme or another
      capitalisation yields no token. */
  lemma ParseJwtRejects()
    ensures ParseJwt(None) == None
    ensures ParseJwt(Some("   \t")) == None
    ensures ParseJwt(Some("bearer abc")) == None
    ensures ParseJwt(Some("Bearer")) == None
  {
    assert !StartsWith("bearer abc", BearerPrefix) by {
      assert "bearer abc"[0] != BearerPrefix[0];
    }
    assert !HasText(Some("   \t")) by {
      var s := "   \t";
      assert forall i :: 0 <= i < |s| ==> IsWhitespace(s[i]);
    }
  }

  /** What the filter does to one request: the user it authenticates, if
      any, and whether the chain is continued. */
  datatype FilterDecision = FilterDecision(principal: Option<String>, continues: bool)

  /** doFilterInternal: a token that is present and valid, whose user is
      found, installs that user; anything else, including an exception on the
      way, installs nothing.  The chain is continued in every case. */
  function DoFilter(header: Option<String>, validate: String -> bool, usernameOf: String -> String,
                    loadUser: String -> Option<String>): (d: FilterDecision)
    ensures d.continues
    ensures d.principal.Some? <==>
              && ParseJwt(header).Some?
              && validate(ParseJwt(header).value)
              && loadUser(usernameOf(ParseJwt(header).value)).Some?
    ensures d.principal.Some? ==> d.principal == loadUser(usernameOf(ParseJwt(header).value))
  {
    var jwt := ParseJwt(header);
    if jwt.Some? && validate(jwt.value) then
      FilterDecision(loadUser(usernameOf(jwt.value)), true)
    else
      FilterDecision(None, true)
  }

  /** A request without a well-formed bearer header is never authenticated,
      whatever the validator says. */
  lemma NoHeaderNoPrincipal(header: Option<String>, validate: String -> bool, usernameOf: String -> String,
                            loadUser: String -> Option<String>)
    requires header.None? || !StartsWith(header.value, BearerPrefix)
    ensures DoFilter(header, validate, usernameOf, loadUser) == FilterDecision(None, true)
  {
  }
}
