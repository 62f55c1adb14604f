/**
 * The bearer-token step of the authentication filter: the token is taken from an
 * `Authorization: Bearer <token>` header as in section 2.1 of RFC 6750, and authentication is
 * attempted only when the token has some non-whitespace text. The request is passed on to the rest
 * of the chain unless token checking fails with an error other than bad credentials.
 */
module JwtFilter {
  import opened Wrappers
  import opened Entities

  /** `Character.isWhitespace`: Unicode space, line and paragraph separators except the no-break spaces, and nine control characters. */
  predicate IsWhitespace(c: char)
  {
    || c == ' ' || c == '\t' || c == '\n' || c == '\U{000B}' || c == '\U{000C}' || c == '\r'
    || c == '\U{001C}' || c == '\U{001D}' || c == '\U{001E}' || c == '\U{001F}'
    || c == '\U{1680}' || ('\U{2000}' <= c <= '\U{200A}' && c != '\U{2007}')
    || c == '\U{2028}' || c == '\U{2029}' || c == '\U{205F}' || c == '\U{3000}'
  }

  /** `StringUtils.hasText`: the text holds at least one non-whitespace character. */
  predicate HasText(s: string)
  {
    exists i :: 0 <= i < |s| && !IsWhitespace(s[i])
  }

  const BearerPrefix: string := "Bearer "

  /**
   * getJwtFromRequest: the header with its first seven characters removed when it has text and
   * starts with "Bearer " (case and space included); no token otherwise.
   */
  function GetJwtFromRequest(header: Option<string>): (r: Option<string>)
    ensures r.Some? <==> header.Some? && HasText(header.value) && BearerPrefix <= header.value
    ensures r.Some? ==> BearerPrefix + r.value == header.value
  {
    if header.Some? && HasText(header.value) && BearerPrefix <= header.value then
      Some(header.value[|BearerPrefix|..])
    else
      None
  }

  /** Any header of the form "Bearer <token>" yields exactly that token. */
  lemma BearerRoundTrip(token: string)
    ensures GetJwtFromRequest(Some(BearerPrefix + token)) == Some(token)
  {
    var header := BearerPrefix + token;
    assert !IsWhitespace(header[0]);
    assert header[..|BearerPrefix|] == BearerPrefix;
  }

  /** A missing header, or one made only of whitespace, yields no token. */
  lemma BlankHeaderHasNoToken(header: Option<string>)
    requires header.Some? ==> forall i :: 0 <= i < |header.value| ==> IsWhitespace(header.value[i])
    ensures GetJwtFromRequest(header) == None
  {
  }

  /** The prefix match is case-sensitive and needs the space. */
  lemma PrefixIsExact()
    ensures GetJwtFromRequest(Some("bearer x")) == None
    ensures GetJwtFromRequest(Some("Bearerx")) == None
  {
    assert "bearer x"[0] != BearerPrefix[0];
    assert "Bearerx"[6] != BearerPrefix[6];
  }

  /**
   * What token checking does with a token that has text: it is valid and names a user, the
   * provider rejects it with bad credentials (invalid, expired, unsupported, empty claims), or some
   * other failure is raised (such as an unknown user).
   */
  datatype Verification = Verified(email: Email) | BadCredentials | Failure

  /** The authentication the filter records and whether the request goes on down the chain. */
  datatype FilterOutcome = FilterOutcome(authenticated: Option<Email>, proceeds: bool)

  /** Authentication is attempted: the header yields a token that has text. */
  predicate Attempted(header: Option<string>)
  {
    var token := GetJwtFromRequest(header);
    token.Some? && HasText(token.value)
  }

  /**
   * doFilterInternal. The verification is the token checker's answer and is consulted only when a
   * token with text was extracted; bad credentials are swallowed, any other failure propagates.
   */
  function DoFilterInternal(header: Option<string>, verification: Verification): (r: FilterOutcome)
    ensures r.authenticated.Some? <==> Attempted(header) && verification.Verified?
    ensures r.authenticated.Some? ==> r.authenticated.value == verification.email
    ensures r.proceeds <==> !(Attempted(header) && verification.Failure?)
  {
    var token := GetJwtFromRequest(header);
    if token.Some? && HasText(token.value) then
      match verification
      case Verified(email) => FilterOutcome(Some(email), true)
      case BadCredentials => FilterOutcome(None, true)
      case Failure => FilterOutcome(None, false)
    else
      FilterOutcome(None, true)
  }

  /** Without a usable token the request always goes on, unauthenticated, whatever the checker would say. */
  lemma NoTokenProceedsAnonymously(header: Option<string>, verification: Verification)
    requires GetJwtFromRequest(header).None?
    ensures DoFilterInternal(header, verification) == FilterOutcome(None, true)
  {
  }

  /** "Bearer " followed only by whitespace extracts a token but never reaches the checker. */
  lemma BlankTokenIsNotChecked(token: string, verification: Verification)
    requires forall i :: 0 <= i < |token| ==> IsWhitespace(token[i])
    ensures DoFilterInternal(Some(BearerPrefix + token), verification) == FilterOutcome(None, true)
  {
    BearerRoundTrip(token);
  }

  /** Bad credentials never stop the request: it continues without authentication. */
  lemma BadCredentialsProceed(header: Option<string>)
    ensures DoFilterInternal(header, BadCredentials) == FilterOutcome(None, true)
  {
  }
}
