/**
  The token check (`POST /api/verify`). It reads a bearer token from the
  Authorization header, decodes the JWT payload without checking its
  signature, and accepts it when it names a subject and has not expired.
*/
module VerifyRoute {
  import opened Js

  /** The JWT payload claims the handler reads; `sub` is the account's fid
      and `exp` is in seconds. */
  datatype Claims = Claims(sub: Option<int>, exp: Option<int>, iss: Option<string>, aud: Option<string>)

  /** 200 with the verified fid and the claims echoed back, or 401. */
  datatype Response =
    | Verified(fid: int, iss: Option<string>, aud: Option<string>, exp: Option<int>)
    | Unauthorized(error: string)

  const MissingToken := "Missing authorization token"
  const InvalidToken := "Invalid token"
  const TokenExpired := "Token expired"

  /** The HTTP status of each reply: 200 for a verified token, 401 for every
      refusal. */
  function Status(r: Response): (code: int)
    ensures code == 200 <==> r.Verified?
    ensures code != 200 ==> code == 401
  {
    if r.Verified? then 200 else 401
  }

  const BearerPrefix := "Bearer "

  /** `authHeader.split(' ')[1]` for a header that starts with "Bearer ": the
      text after the prefix up to the next space, or to the end. */
  function BearerToken(header: string): (token: string)
    requires StartsWith(header, BearerPrefix)
    ensures ' ' !in token
    ensures token == header[7..] || StartsWith(header[7..], token + " ")
  {
    var rest := header[7..];
    assert header == "Bearer" + [' '] + rest;
    SplitConcat("Bearer", rest, ' ');
    SplitWithoutSeparator("Bearer", ' ');
    SplitJoin(rest, ' ');
    FirstPieceIsPrefix(Split(rest, ' '), ' ');
    assert Split(header, ' ')[1] == Split(rest, ' ')[0];
    Split(header, ' ')[1]
  }

  /** The first piece of a join is where the joined text starts. */
  lemma FirstPieceIsPrefix(parts: seq<string>, sep: char)
    requires |parts| >= 1
    ensures Join(parts, sep) == parts[0] || StartsWith(Join(parts, sep), parts[0] + [sep])
  {
    if |parts| > 1 {
      var j := Join(parts, sep);
      assert j == parts[0] + [sep] + Join(parts[1..], sep);
      assert j[..|parts[0]| + 1] == parts[0] + [sep];
    }
  }

  /** `decodeJWT`: `None` unless the token has exactly three dot-separated
      parts; then `decodeClaims(parts[1])`, where `decodeClaims` stands for
      base64 decoding and `JSON.parse` (`None` when either throws or gives null). */
  function DecodeJwt(token: string, decodeClaims: string -> Option<Claims>): (r: Option<Claims>)
    ensures Occurrences(token, '.') != 2 ==> r.None?
  {
    SplitCount(token, '.');
    var parts := Split(token, '.');
    if |parts| != 3 then None else decodeClaims(parts[1])
  }

  /** A token `h.p.s` with dot-free parts decodes to the claims in `p`. */
  lemma DecodeJwtReadsMiddlePart(h: string, p: string, s: string, decodeClaims: string -> Option<Claims>)
    requires '.' !in h && '.' !in p && '.' !in s
    ensures DecodeJwt(h + "." + p + "." + s, decodeClaims) == decodeClaims(p)
  {
    var parts := [h, p, s];
    assert parts[1..][1..] == [s];
    assert Join(parts[1..], '.') == p + "." + s;
    assert Join(parts, '.') == h + "." + p + "." + s;
    JoinSplit(parts, '.');
  }

  /** `exp && exp * 1000 < now`: `exp` is in seconds and `now` in milliseconds,
      so a token is expired exactly when its expiry second lies before the
      millisecond `now`, that is at most `(now - 1) / 1000` in whole seconds. */
  predicate IsExpired(exp: Option<int>, now: int)
    ensures IsExpired(exp, now) <==> TruthyInt(exp) && exp.value <= (now - 1) / 1000
  {
    TruthyInt(exp) && exp.value * 1000 < now
  }

  /** A token is still valid at the millisecond its expiry names, and a
      missing or zero expiry never expires. */
  lemma ExpiryBoundary(exp: Option<int>, now: int)
    ensures exp.Some? && exp.value * 1000 == now ==> !IsExpired(exp, now)
    ensures !TruthyInt(exp) ==> !IsExpired(exp, now)
  {
  }

  predicate WellFormedHeader(authorization: Option<string>) {
    TruthyString(authorization) && StartsWith(authorization.value, BearerPrefix)
  }

  /** `POST`. `authorization` is the header, `now` is `Date.now()`. */
  function Post(authorization: Option<string>, now: int, decodeClaims: string -> Option<Claims>): (r: Response)
    ensures r == Unauthorized(MissingToken) <==> !WellFormedHeader(authorization)
    ensures WellFormedHeader(authorization) ==>
      var claims := DecodeJwt(BearerToken(authorization.value), decodeClaims);
      && (r == Unauthorized(InvalidToken) <==> claims.None? || !TruthyInt(claims.value.sub))
      && (r == Unauthorized(TokenExpired) <==>
            claims.Some? && TruthyInt(claims.value.sub) && IsExpired(claims.value.exp, now))
      && (r.Verified? ==>
            claims.Some? && claims.value.sub == Some(r.fid) && r.fid != 0 &&
            r.iss == claims.value.iss && r.aud == claims.value.aud && r.exp == claims.value.exp)
    ensures r.Verified? || r.error in {MissingToken, InvalidToken, TokenExpired}
  {
    if !TruthyString(authorization) || !StartsWith(authorization.value, BearerPrefix) then
      Unauthorized(MissingToken)
    else
      var payload := DecodeJwt(BearerToken(authorization.value), decodeClaims);
      if payload.None? || !TruthyInt(payload.value.sub) then Unauthorized(InvalidToken)
      else if TruthyInt(payload.value.exp) && payload.value.exp.value * 1000 < now then
        Unauthorized(TokenExpired)
      else
        Verified(payload.value.sub.value, payload.value.iss, payload.value.aud, payload.value.exp)
  }
}
