/**
 * middlewares/middlewares.go: the `Authentication` middleware (Bearer header parsing, token
 * validation, context writes) and the `Authorization` middleware (role membership).
 */
module Middlewares {
  import opened Wrappers
  import opened Helpers

  // ----- strings.Fields and strings.ToLower -----

  /** `unicode.IsSpace`: the Unicode White_Space characters. */
  predicate IsSpace(c: char)
  {
    var n := c as int;
    (9 <= n <= 13) || n == 32 || n == 0x85 || n == 0xA0 || n == 0x1680 ||
    (0x2000 <= n <= 0x200A) || n == 0x2028 || n == 0x2029 || n == 0x202F || n == 0x205F || n == 0x3000
  }

  /** A field of `strings.Fields`: a non-empty run without white space. */
  predicate IsWord(w: string)
  {
    w != [] && forall i :: 0 <= i < |w| ==> !IsSpace(w[i])
  }

  /** Length of the leading run of non-space characters. */
  function WordLength(s: string): (n: nat)
    ensures n <= |s|
    ensures forall i :: 0 <= i < n ==> !IsSpace(s[i])
    ensures n < |s| ==> IsSpace(s[n])
  {
    if s == [] || IsSpace(s[0]) then 0 else 1 + WordLength(s[1..])
  }

  /** `strings.Fields`: the maximal runs of non-space characters, in order. */
  function Fields(s: string): (fs: seq<string>)
    ensures forall i :: 0 <= i < |fs| ==> IsWord(fs[i])
    decreases |s|
  {
    if s == [] then []
    else if IsSpace(s[0]) then Fields(s[1..])
    else
      var n := WordLength(s);
      [s[..n]] + Fields(s[n..])
  }

  function LowerChar(c: char): char
  {
    if 'A' <= c <= 'Z' then (c as int + 32) as char else c
  }

  /** `strings.ToLower` on the ASCII letters. */
  function ToLower(s: string): (r: string)
    ensures |r| == |s| && forall i :: 0 <= i < |s| ==> r[i] == LowerChar(s[i])
  {
    seq(|s|, i requires 0 <= i < |s| => LowerChar(s[i]))
  }

  // ----- Authentication -----

  datatype AuthError = MissingHeader | BadFormat | InvalidToken(message: string)

  /** The claims a valid token carries. */
  datatype Claims = Claims(email: string, userId: string, role: int)

  /**
   * The header checks of `Authentication`: a non-empty header that splits into exactly two
   * fields, the first of which is "bearer" in any letter case; the token is the second field.
   */
  function ParseAuthorization(header: string): (r: Result<string, AuthError>)
    ensures header == "" ==> r == Err(MissingHeader)
    ensures r.Ok? <==> header != "" && |Fields(header)| == 2 && ToLower(Fields(header)[0]) == "bearer"
    ensures r.Ok? ==> r.value == Fields(header)[1] && IsWord(r.value)
  {
    if header == "" then Err(MissingHeader)
    else
      var fields := Fields(header);
      if |fields| != 2 || ToLower(fields[0]) != "bearer" then Err(BadFormat)
      else Ok(fields[1])
  }

  lemma {:induction false} WordLengthOfWord(w: string, rest: string)
    requires forall i :: 0 <= i < |w| ==> !IsSpace(w[i])
    requires rest == [] || IsSpace(rest[0])
    ensures WordLength(w + rest) == |w|
  {
    if w != [] {
      assert (w + rest)[1..] == w[1..] + rest;
      WordLengthOfWord(w[1..], rest);
    } else if rest != [] {
      assert (w + rest)[0] == rest[0];
    }
  }

  lemma {:induction false} FieldsOfWordThen(w: string, rest: string)
    requires IsWord(w)
    requires rest == [] || IsSpace(rest[0])
    ensures Fields(w + rest) == [w] + Fields(rest)
  {
    WordLengthOfWord(w, rest);
    var s := w + rest;
    assert s[..|w|] == w && s[|w|..] == rest;
  }

  lemma {:induction false} FieldsSkipsSpace(sp: string, rest: string)
    requires forall i :: 0 <= i < |sp| ==> IsSpace(sp[i])
    ensures Fields(sp + rest) == Fields(rest)
  {
    if sp != [] {
      assert (sp + rest)[1..] == sp[1..] + rest;
      FieldsSkipsSpace(sp[1..], rest);
    } else {
      assert sp + rest == rest;
    }
  }

  /**
   * Any header made of a scheme that lower-cases to "bearer", white space, and a token without
   * white space (with white space around it allowed) hands exactly that token to validation.
   */
  lemma {:induction false} BearerHeaderYieldsToken(lead: string, scheme: string, gap: string, token: string, trail: string)
    requires forall i :: 0 <= i < |lead| ==> IsSpace(lead[i])
    requires forall i :: 0 <= i < |trail| ==> IsSpace(trail[i])
    requires gap != [] && forall i :: 0 <= i < |gap| ==> IsSpace(gap[i])
    requires IsWord(scheme) && ToLower(scheme) == "bearer"
    requires IsWord(token)
    ensures ParseAuthorization(lead + scheme + gap + token + trail) == Ok(token)
  {
    var header := lead + scheme + gap + token + trail;
    assert header == lead + (scheme + (gap + (token + trail)));
    FieldsSkipsSpace(lead, scheme + (gap + (token + trail)));
    FieldsOfWordThen(scheme, gap + (token + trail));
    FieldsSkipsSpace(gap, token + trail);
    FieldsOfWordThen(token, trail);
    assert trail == trail + [];
    FieldsSkipsSpace(trail, []);
    assert header != "" by {
      assert |header| >= |scheme|;
    }
  }

  /** The context entries a successful `Authentication` sets from the token's claims. */
  function WithClaims(values: Context, claims: Claims): Context
  {
    values["email" := CtxStr(claims.email)]["userId" := CtxStr(claims.userId)]["role" := CtxInt(claims.role)]
  }

  /** After authentication the handlers read back exactly the id the token carried. */
  lemma AuthenticatedCallerId(values: Context, claims: Claims)
    ensures GetUserIDFromMdw(WithClaims(values, claims)) == Ok(claims.userId)
    ensures var v := WithClaims(values, claims); v["role"] == CtxInt(claims.role) && v["email"] == CtxStr(claims.email)
  {
  }

  const StatusUnauthorized: int := 401
  const StatusForbidden: int := 403
  const StatusInternalServerError: int := 500

  /** The request context a middleware reads and writes: the stored values and whether the chain was aborted. */
  class GinContext {
    var values: Context
    var aborted: bool
    var status: int   // status of the response written so far, 0 when none

    constructor (values: Context)
      ensures this.values == values && !aborted && status == 0
    {
      this.values := values;
      aborted := false;
      status := 0;
    }

    /**
     * `Authentication`: rejects a missing or malformed header and a token the validator refuses
     * (status 401, chain aborted, nothing set); otherwise stores the claims' email, id and role.
     */
    method Authentication(header: string, validateToken: string -> Result<Claims, string>)
      modifies this
      ensures ParseAuthorization(header).Err? ==>
                values == old(values) && aborted && status == StatusUnauthorized
      ensures ParseAuthorization(header).Ok? && validateToken(ParseAuthorization(header).value).Err? ==>
                values == old(values) && aborted && status == StatusUnauthorized
      ensures ParseAuthorization(header).Ok? && validateToken(ParseAuthorization(header).value).Ok? ==>
                values == WithClaims(old(values), validateToken(ParseAuthorization(header).value).value) &&
                aborted == old(aborted) && status == old(status)
    {
      var parsed := ParseAuthorization(header);
      if parsed.Err? {
        status := StatusUnauthorized;
        aborted := true;
        return;
      }
      var claims := validateToken(parsed.value);
      if claims.Err? {
        status := StatusUnauthorized;
        aborted := true;
        return;
      }
      values := values["email" := CtxStr(claims.value.email)];
      values := values["userId" := CtxStr(claims.value.userId)];
      values := values["role" := CtxInt(claims.value.role)];
    }

    /**
     * `Authorization(roles)`: a missing role answers 401, a role that is not an int 500, a role
     * outside `roles` 403, all aborting; a listed role passes untouched.
     */
    method Authorization(roles: seq<int>)
      modifies this
      ensures values == old(values)
      ensures "role" !in values ==> aborted && status == StatusUnauthorized
      ensures "role" in values && !values["role"].CtxInt? ==> aborted && status == StatusInternalServerError
      ensures "role" in values && values["role"].CtxInt? && values["role"].i !in roles ==>
                aborted && status == StatusForbidden
      ensures "role" in values && values["role"].CtxInt? && values["role"].i in roles ==>
                aborted == old(aborted) && status == old(status)
    {
      if "role" !in values {
        status := StatusUnauthorized;
        aborted := true;
        return;
      }
      var roleValue := values["role"];
      if !roleValue.CtxInt? {
        status := StatusInternalServerError;
        aborted := true;
        return;
      }
      var userRole := roleValue.i;
      var isAuthorized := false;
      var i := 0;
      while i < |roles|
        invariant 0 <= i <= |roles|
        invariant isAuthorized <==> userRole in roles[..i]
      {
        if userRole == roles[i] {
          isAuthorized := true;
          assert roles[i] in roles;
          break;
        }
        i := i + 1;
      }
      if !isAuthorized {
        assert roles[..i] == roles;
        status := StatusForbidden;
        aborted := true;
        return;
      }
    }
  }
}
