/** Signed tokens as the login filter issues them and the request filters
    accept them: HS256 JSON Web Tokens (RFC 7519, with HS256 from section 3.2
    of RFC 7518) carrying a subject and an `id` claim, signed with the shared
    key "secret".

    The compact serialisation is modelled by a simpler stand-in with the same
    shape: three dot-separated segments (header, claims, signature), where
    every text is escaped so that it holds no '.', ',' or ' '. The message
    authentication code is a parameter `mac(key, signingInput)`; HMAC-SHA256
    itself is not modelled. What the filters rely on is proved about this
    stand-in: a token verifies to the claims it was signed with, a token
    whose signature is not the MAC of its content is rejected, and a token
    holds no space, so stripping "Bearer " leaves it intact. */
module Tokens {
  import opened Common
  import opened JavaText

  /** The signing key both the login filter and the request filters use. */
  const SECRET: string := "secret"

  /** Stand-in for the protected header `{"alg":"HS256"}`. */
  const HEADER: string := "HS256"

  /** The claims the services read: the subject and the `id` claim. */
  datatype Claims = Claims(subject: Option<string>, id: Option<int>)

  /** A message authentication code: key and signing input to signature text. */
  type Mac = (string, string) -> string

  function EscapeChar(c: char): string
  {
    if c == '~' then "~~"
    else if c == '.' then "~d"
    else if c == ',' then "~c"
    else if c == ' ' then "~s"
    else [c]
  }

  /** Escapes every character that would break the token's structure. */
  function Escape(s: string): (r: string)
    ensures '.' !in r && ',' !in r && ' ' !in r
  {
    if |s| == 0 then "" else EscapeChar(s[0]) + Escape(s[1..])
  }

  function Unescape(s: string): Option<string>
    decreases |s|
  {
    if |s| == 0 then Some("")
    else if s[0] != '~' then
      match Unescape(s[1..])
      case None => None
      case Some(rest) => Some([s[0]] + rest)
    else if |s| < 2 then None
    else
      var c := if s[1] == '~' then Some('~') else if s[1] == 'd' then Some('.')
               else if s[1] == 'c' then Some(',') else if s[1] == 's' then Some(' ') else None;
      match (c, Unescape(s[2..]))
      case (Some(x), Some(rest)) => Some([x] + rest)
      case _ => None
  }

  lemma {:induction false} UnescapeEscape(s: string)
    ensures Unescape(Escape(s)) == Some(s)
  {
    if |s| > 0 {
      var e := Escape(s);
      var tail := Escape(s[1..]);
      UnescapeEscape(s[1..]);
      assert e == EscapeChar(s[0]) + tail;
      if s[0] == '~' || s[0] == '.' || s[0] == ',' || s[0] == ' ' {
        assert e[0] == '~' && e[1] == EscapeChar(s[0])[1] && e[2..] == tail;
        assert s == [s[0]] + s[1..];
      } else {
        assert e[0] == s[0] && e[1..] == tail;
        assert s == [s[0]] + s[1..];
      }
    }
  }

  /** A nullable text field: "!" for null, otherwise a quote and the escaped text. */
  function Field(s: Option<string>): (r: string)
    ensures '.' !in r && ',' !in r && ' ' !in r
  {
    match s
    case None => "!"
    case Some(t) => "'" + Escape(t)
  }

  function UnField(r: string): Result<Option<string>>
  {
    if r == "!" then Success(None)
    else if |r| > 0 && r[0] == '\'' then
      match Unescape(r[1..])
      case None => Failure(MalformedJwtException)
      case Some(t) => Success(Some(t))
    else Failure(MalformedJwtException)
  }

  lemma UnFieldField(s: Option<string>)
    ensures UnField(Field(s)) == Success(s)
  {
    if s.Some? {
      assert Field(s)[1..] == Escape(s.value);
      UnescapeEscape(s.value);
    }
  }

  function IdText(id: Option<int>): Option<string>
  {
    match id
    case None => None
    case Some(n) => Some(IntText(n))
  }

  /** The claims segment. */
  function Payload(c: Claims): string
  {
    Join([Field(c.subject), Field(IdText(c.id))], ",")
  }

  /** The token a signer holding `key` issues for `c` (`Jwts.builder()...compact()`). */
  function Sign(mac: Mac, key: string, c: Claims): string
  {
    Join([HEADER, Payload(c), Field(Some(mac(key, HEADER + "." + Payload(c))))], ".")
  }

  /** `Jwts.parser().setSigningKey(key).parseClaimsJws(token).getBody()`:
      a token that is not three segments of the expected form is malformed;
      a well-formed token whose signature is not the MAC of its first two
      segments under `key` is rejected with a SignatureException. */
  function Verify(mac: Mac, key: string, token: string): Result<Claims>
  {
    var segments := Pieces(token, ".");
    if |segments| != 3 || segments[0] != HEADER then Failure(MalformedJwtException)
    else
      var fields := Pieces(segments[1], ",");
      if |fields| != 2 then Failure(MalformedJwtException)
      else match (UnField(fields[0]), UnField(fields[1]), UnField(segments[2]))
        case (Success(subject), Success(idText), Success(Some(signature))) =>
          var id := if idText.None? then Success(None)
                    else match ParseInt(idText.value)
                      case None => Failure(MalformedJwtException)
                      case Some(n) => Success(Some(n));
          if id.Failure? then Failure(MalformedJwtException)
          else if signature != mac(key, segments[0] + "." + segments[1]) then Failure(SignatureException)
          else Success(Claims(subject, id.value))
        case _ => Failure(MalformedJwtException)
  }

  lemma FieldSeparatorFree(s: Option<string>)
    ensures SeparatorFree(Field(s), ".") && SeparatorFree(Field(s), ",")
  {
    SingleCharSeparatorFree(Field(s), '.');
    SingleCharSeparatorFree(Field(s), ',');
  }

  /** The segments of a token built from a payload and a signature field. */
  lemma {:induction false} TokenSegments(c: Claims, signature: string)
    ensures Pieces(Join([HEADER, Payload(c), Field(Some(signature))], "."), ".")
            == [HEADER, Payload(c), Field(Some(signature))]
    ensures Pieces(Payload(c), ",") == [Field(c.subject), Field(IdText(c.id))]
  {
    var parts := [HEADER, Payload(c), Field(Some(signature))];
    FieldSeparatorFree(c.subject);
    FieldSeparatorFree(IdText(c.id));
    FieldSeparatorFree(Some(signature));
    SingleCharSeparatorFree(HEADER, '.');
    SingleCharSeparatorFree(Payload(c), '.');
    assert forall i :: 0 <= i < |parts| ==> SeparatorFree(parts[i], ".");
    PiecesOfJoin(parts, ".");
    var fields := [Field(c.subject), Field(IdText(c.id))];
    assert forall i :: 0 <= i < |fields| ==> SeparatorFree(fields[i], ",");
    PiecesOfJoin(fields, ",");
  }

  /** A token verifies, under the key it was signed with, to the claims it carries. */
  lemma VerifySign(mac: Mac, key: string, c: Claims)
    ensures Verify(mac, key, Sign(mac, key, c)) == Success(c)
  {
    TokenSegments(c, mac(key, HEADER + "." + Payload(c)));
    UnFieldField(c.subject);
    UnFieldField(IdText(c.id));
    UnFieldField(Some(mac(key, HEADER + "." + Payload(c))));
    if c.id.Some? {
      ParseIntText(c.id.value);
    }
  }

  /** A token whose signature is anything but the MAC of its content under the
      verifying key is rejected, whatever claims it carries. */
  lemma ForgedSignatureRejected(mac: Mac, key: string, c: Claims, signature: string)
    requires signature != mac(key, HEADER + "." + Payload(c))
    ensures Verify(mac, key, Join([HEADER, Payload(c), Field(Some(signature))], ".")) == Failure(SignatureException)
  {
    TokenSegments(c, signature);
    UnFieldField(c.subject);
    UnFieldField(IdText(c.id));
    UnFieldField(Some(signature));
    if c.id.Some? {
      ParseIntText(c.id.value);
    }
  }

  /** Tokens contain no space, so no part of them matches "Bearer ". */
  lemma TokenHasNoSpace(c: Claims, signature: string)
    ensures ' ' !in Join([HEADER, Payload(c), Field(Some(signature))], ".")
  {
    var parts := [HEADER, Payload(c), Field(Some(signature))];
    assert ' ' !in Join(parts[1..][1..], ".");
    assert ' ' !in Join(parts[1..], ".");
  }
}
