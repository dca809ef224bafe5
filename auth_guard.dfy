/**
 * The bearer-token guard in front of protected routes. It takes the second
 * space-separated field of the `authorization` header as the token, refuses
 * quietly when there is none, and otherwise asks a verifier, raising 401
 * "Invalid token" when the verifier rejects it.
 */
module Guard {
  import opened Wrappers
  import opened JsString

  /** What `canActivate` does: return `false`, throw, or return `true`. */
  datatype GuardOutcome = Deny | Throw(error: HttpError) | Allow

  /** Node lower-cases header names, so the header is read under this key. */
  const AuthorizationHeader: string := "authorization"

  const InvalidTokenMessage: string := "Invalid token"

  /** `headers['authorization']?.split(' ')[1] || null`, with `null` as `None`. */
  function ExtractToken(headers: map<string, string>): Option<string> {
    var field :=
      if AuthorizationHeader in headers then
        var fields := Split(headers[AuthorizationHeader], ' ');
        if |fields| > 1 then Some(fields[1]) else None
      else None;
    if field.Some? && field.value != "" then field else None
  }

  /** `canActivate`, with `jwtService.verify` not throwing as the predicate `verify`. */
  function CanActivate(headers: map<string, string>, verify: string -> bool): GuardOutcome {
    var token := ExtractToken(headers);
    if token.None? then Deny
    else if !verify(token.value) then Throw(Unauthorized(InvalidTokenMessage))
    else Allow
  }

  /**
   * The header is a scheme word, one space, the token, and then nothing or
   * further space-separated text.
   */
  ghost predicate BearerShape(header: string, scheme: string, token: string, rest: string) {
    header == scheme + [' '] + token + rest &&
    ' ' !in scheme && ' ' !in token &&
    (rest == [] || rest[0] == ' ')
  }

  /** The token is the second field: whatever the scheme word, and whatever follows the token. */
  lemma {:induction false} SecondFieldIsToken(scheme: string, token: string, rest: string)
    requires ' ' !in scheme && ' ' !in token
    requires rest == [] || rest[0] == ' '
    ensures var fields := Split(scheme + [' '] + token + rest, ' ');
            |fields| >= 2 && fields[1] == token
  {
    SplitAtSeparator(scheme, ' ', token + rest);
    SplitWithoutSeparator(scheme, ' ');
    assert scheme + [' '] + token + rest == scheme + [' '] + (token + rest);
    if rest == [] {
      assert token + rest == token;
      SplitWithoutSeparator(token, ' ');
    } else {
      assert token + rest == token + [' '] + rest[1..];
      SplitAtSeparator(token, ' ', rest[1..]);
      SplitWithoutSeparator(token, ' ');
    }
  }

  /** A header of the bearer shape yields its token, or nothing when the token is empty. */
  lemma ExtractBearer(headers: map<string, string>, scheme: string, token: string, rest: string)
    requires AuthorizationHeader in headers && BearerShape(headers[AuthorizationHeader], scheme, token, rest)
    ensures ExtractToken(headers) == if token == [] then None else Some(token)
  {
    SecondFieldIsToken(scheme, token, rest);
  }

  /**
   * The guard extracts a token exactly when the header has the bearer shape
   * with a non-empty token, and the token extracted is that one.
   */
  lemma ExtractTokenIff(headers: map<string, string>, token: string)
    ensures ExtractToken(headers) == Some(token) <==>
            AuthorizationHeader in headers && token != [] &&
            exists scheme, rest :: BearerShape(headers[AuthorizationHeader], scheme, token, rest)
  {
    if AuthorizationHeader in headers {
      var h := headers[AuthorizationHeader];
      var fields := Split(h, ' ');
      if ExtractToken(headers) == Some(token) {
        var rest := if |fields| > 2 then [' '] + Join(fields[2..], ' ') else [];
        JoinSplit(h, ' ');
        assert fields[1..][1..] == fields[2..];
        assert Join(fields[1..], ' ') == token + rest;
        assert BearerShape(h, fields[0], token, rest);
      }
      forall scheme, rest | BearerShape(h, scheme, token, rest) && token != []
        ensures ExtractToken(headers) == Some(token)
      {
        ExtractBearer(headers, scheme, token, rest);
      }
    }
  }

  /** A request without an `authorization` header is refused quietly, whatever the verifier says. */
  lemma MissingHeaderDenies(headers: map<string, string>, verify: string -> bool)
    requires AuthorizationHeader !in headers
    ensures CanActivate(headers, verify) == Deny
  {
  }

  /** A header without a space has no second field and is refused quietly. */
  lemma HeaderWithoutSpaceDenies(headers: map<string, string>, verify: string -> bool)
    requires AuthorizationHeader in headers && ' ' !in headers[AuthorizationHeader]
    ensures CanActivate(headers, verify) == Deny
  {
    SplitWithoutSeparator(headers[AuthorizationHeader], ' ');
  }

  /** An empty second field, as after a trailing space or a double space, is refused quietly. */
  lemma EmptySecondFieldDenies(headers: map<string, string>, verify: string -> bool,
                               scheme: string, rest: string)
    requires ' ' !in scheme && (rest == [] || rest[0] == ' ')
    requires AuthorizationHeader in headers && headers[AuthorizationHeader] == scheme + [' '] + rest
    ensures CanActivate(headers, verify) == Deny
  {
    assert scheme + [' '] + [] + rest == scheme + [' '] + rest;
    ExtractBearer(headers, scheme, [], rest);
  }

  /**
   * When no token is extracted the verifier is never consulted: every verifier
   * gives the same quiet refusal.
   */
  lemma DenyIgnoresVerifier(headers: map<string, string>, verify1: string -> bool, verify2: string -> bool)
    requires ExtractToken(headers).None?
    ensures CanActivate(headers, verify1) == Deny && CanActivate(headers, verify2) == Deny
  {
  }

  /** A token the verifier rejects raises 401 "Invalid token" and never lets the request through. */
  lemma RejectedTokenThrows(headers: map<string, string>, verify: string -> bool)
    requires ExtractToken(headers).Some? && !verify(ExtractToken(headers).value)
    ensures CanActivate(headers, verify) == Throw(Unauthorized("Invalid token"))
  {
  }

  /**
   * The guard lets a request through exactly when a token is extracted and the
   * verifier accepts it; no claim inside the token is inspected.
   */
  lemma AllowIff(headers: map<string, string>, verify: string -> bool)
    ensures CanActivate(headers, verify) == Allow <==>
            ExtractToken(headers).Some? && verify(ExtractToken(headers).value)
    ensures CanActivate(headers, verify) != Allow ==>
            CanActivate(headers, verify) == Deny ||
            CanActivate(headers, verify) == Throw(Unauthorized("Invalid token"))
  {
  }

  /**
   * The scheme word is not checked: any two headers that carry the same token
   * after different scheme words give the same outcome.
   */
  lemma SchemeNotChecked(headers1: map<string, string>, headers2: map<string, string>,
                         verify: string -> bool, scheme1: string, scheme2: string,
                         token: string, rest1: string, rest2: string)
    requires AuthorizationHeader in headers1 && BearerShape(headers1[AuthorizationHeader], scheme1, token, rest1)
    requires AuthorizationHeader in headers2 && BearerShape(headers2[AuthorizationHeader], scheme2, token, rest2)
    ensures CanActivate(headers1, verify) == CanActivate(headers2, verify)
    ensures CanActivate(headers1, verify) ==
            if token == [] then Deny
            else if verify(token) then Allow
            else Throw(Unauthorized("Invalid token"))
  {
    ExtractBearer(headers1, scheme1, token, rest1);
    ExtractBearer(headers2, scheme2, token, rest2);
  }

  /** `"Bearer a b"` hands `"a"` to the verifier; what follows the token is ignored. */
  lemma TrailingFieldsIgnored(verify: string -> bool)
    ensures CanActivate(map[AuthorizationHeader := "Bearer a b"], verify) ==
            if verify("a") then Allow else Throw(Unauthorized("Invalid token"))
  {
    assert "Bearer a b" == "Bearer" + [' '] + "a" + " b";
    SchemeNotChecked(map[AuthorizationHeader := "Bearer a b"], map[AuthorizationHeader := "Bearer a b"],
                     verify, "Bearer", "Bearer", "a", " b", " b");
  }

  /** `"Basic xyz"` and `" xyz"` both hand `"xyz"` to the verifier. */
  lemma OtherSchemesAccepted(verify: string -> bool)
    ensures CanActivate(map[AuthorizationHeader := "Basic xyz"], verify) ==
            CanActivate(map[AuthorizationHeader := " xyz"], verify)
    ensures CanActivate(map[AuthorizationHeader := " xyz"], verify) ==
            if verify("xyz") then Allow else Throw(Unauthorized("Invalid token"))
  {
    assert "Basic xyz" == "Basic" + [' '] + "xyz" + [];
    assert " xyz" == [] + [' '] + "xyz" + [];
    SchemeNotChecked(map[AuthorizationHeader := "Basic xyz"], map[AuthorizationHeader := " xyz"],
                     verify, "Basic", [], "xyz", [], []);
  }

  /** `"Bearer "` and `"Bearer  tok"` have an empty second field and are refused quietly. */
  lemma EmptyTokenExamplesDeny(verify: string -> bool)
    ensures CanActivate(map[AuthorizationHeader := "Bearer "], verify) == Deny
    ensures CanActivate(map[AuthorizationHeader := "Bearer  tok"], verify) == Deny
  {
    assert "Bearer " == "Bearer" + [' '] + [];
    assert "Bearer  tok" == "Bearer" + [' '] + " tok";
    EmptySecondFieldDenies(map[AuthorizationHeader := "Bearer "], verify, "Bearer", []);
    EmptySecondFieldDenies(map[AuthorizationHeader := "Bearer  tok"], verify, "Bearer", " tok");
  }
}
