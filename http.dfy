/**
 * What the API routes share: the reply shape, JavaScript truthiness of body
 * fields, and the two ways the routes take a token out of an
 * `Authorization: Bearer <token>` header (section 2.1 of RFC 6750).
 */
module Http {
  import opened Wrappers
  import opened JsString

  /** A JSON reply: an error `{message}` with its status, a success body, or 405 with an `Allow` header. */
  datatype Reply<T> =
    | Failure(status: nat, message: string)
    | Success(status: nat, body: T)
    | NotAllowed(allow: seq<string>, message: string)
  {
    function Status(): nat {
      match this
      case Failure(s, _) => s
      case Success(s, _) => s
      case NotAllowed(_, _) => 405
    }
  }

  /** A body field is truthy when present and not the empty string (`!field` fails otherwise). */
  predicate Truthy(field: Option<string>) {
    field.Some? && field.value != ""
  }

  /** `field || null`: the field when truthy, otherwise null. */
  function OrNull(field: Option<string>): (r: Option<string>)
    ensures r.Some? <==> Truthy(field)
    ensures r.Some? ==> r == field
  {
    if Truthy(field) then field else None
  }

  const BearerPrefix: string := "Bearer "

  /** The header is present and starts with `Bearer ` (the check every protected route makes first). */
  predicate HasBearer(header: Option<string>) {
    header.Some? && StartsWith(header.value, BearerPrefix)
  }

  /** `authHeader.substring(7)`: the header without its first seven characters. */
  function TokenBySubstring(header: string): string {
    Substring(header, |BearerPrefix|, |header|)
  }

  /** `authHeader.split(' ')[1]`, which is `undefined` when the header has no space. */
  function TokenBySplit(header: string): Option<string> {
    var parts := Split(header, ' ');
    if |parts| > 1 then Some(parts[1]) else None
  }

  /** Dropping seven characters from a Bearer header leaves exactly what follows the prefix. */
  lemma SubstringTokenRoundTrip(header: string)
    requires StartsWith(header, BearerPrefix)
    ensures BearerPrefix + TokenBySubstring(header) == header
  {
    assert header == header[..7] + header[7..];
  }

  lemma SplitAfterPrefix(rest: string)
    ensures Split(BearerPrefix + rest, ' ') == ["Bearer"] + Split(rest, ' ')
  {
    var h := BearerPrefix + rest;
    assert h[6] == ' ';
    assert forall j :: 0 <= j < 6 ==> h[j] != ' ';
    assert IndexOf(h, ' ') == 6;
    assert h[..6] == "Bearer";
    assert h[7..] == rest;
  }

  lemma FirstPartOfSplit(s: string, sep: char)
    ensures IndexOf(s, sep) < 0 ==> Split(s, sep)[0] == s
    ensures IndexOf(s, sep) >= 0 ==> Split(s, sep)[0] == s[..IndexOf(s, sep)]
  {
  }

  /**
   * The two extractions agree exactly when the token holds no space; otherwise
   * `split` keeps only the part before the first space.
   */
  lemma TokenExtractionsAgree(header: string)
    requires StartsWith(header, BearerPrefix)
    ensures TokenBySplit(header).Some?
    ensures var t := TokenBySubstring(header);
      IndexOf(t, ' ') < 0 ==> TokenBySplit(header) == Some(t)
    ensures var t := TokenBySubstring(header);
      IndexOf(t, ' ') >= 0 ==> TokenBySplit(header) == Some(t[..IndexOf(t, ' ')])
  {
    var rest := TokenBySubstring(header);
    SubstringTokenRoundTrip(header);
    SplitAfterPrefix(rest);
    FirstPartOfSplit(rest, ' ');
  }

  /** The outcome of the header check shared by the routes that read the token's claims. */
  datatype Auth<C> = NoToken | BadToken | Authorized(claims: C)

  /**
   * A missing or non-Bearer header is `NoToken`; otherwise the header minus its
   * first seven characters goes to the verifier, and a rejection is `BadToken`.
   */
  function BearerAuth<C>(header: Option<string>, verify: string -> Option<C>): (r: Auth<C>)
    ensures r.NoToken? <==> !HasBearer(header)
    ensures r.Authorized? ==> verify(TokenBySubstring(header.value)) == Some(r.claims)
  {
    if !HasBearer(header) then NoToken
    else match verify(TokenBySubstring(header.value))
      case None => BadToken
      case Some(c) => Authorized(c)
  }

  /**
   * `verifyToken` of the agents and RAG routes: false without a Bearer header,
   * otherwise whether the verifier accepts the header's second space-separated
   * segment (a thrown verification is a rejection).
   */
  function VerifyToken<C>(header: Option<string>, verify: string -> Option<C>): (ok: bool)
    ensures ok ==> HasBearer(header)
    ensures HasBearer(header) ==> var t := TokenBySubstring(header.value);
      IndexOf(t, ' ') < 0 ==> (ok <==> verify(t).Some?)
    ensures HasBearer(header) ==> var t := TokenBySubstring(header.value);
      IndexOf(t, ' ') >= 0 ==> (ok <==> verify(t[..IndexOf(t, ' ')]).Some?)
  {
    if !HasBearer(header) then false
    else
      TokenExtractionsAgree(header.value);
      match TokenBySplit(header.value)
      case None => false
      case Some(token) => verify(token).Some?
  }
}
