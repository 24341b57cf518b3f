/**
 * The authorization-code request the login button sends the browser to
 * (src/utils/common.ts): section 4.1.1 of RFC 6749, with a space-delimited
 * `scope` as in section 3.3 of RFC 6749. The query-string encoder (`qs`) is a
 * parameter: the model fixes which pairs are encoded and in what order, not how
 * characters are escaped.
 */
module AuthUrl {

  const ClientId: string := "787400c8f51d42a28fc8b56fe54e00fb"
  const RedirectUri: string := "https://nikolannaumovski.com/"
  const AuthorizeEndpoint: string := "https://accounts.spotify.com/authorize?"

  /** The requested permission scopes, in request order. */
  const Scopes: seq<string> :=
    ["user-top-read", "user-read-email", "user-read-recently-played", "user-read-private"]

  /** JavaScript's `Array.prototype.join` with a one-character separator. */
  function Join(parts: seq<string>, sep: char): string
  {
    if |parts| == 0 then ""
    else if |parts| == 1 then parts[0]
    else parts[0] + [sep] + Join(parts[1..], sep)
  }

  /** JavaScript's `String.prototype.split` on one character; the partner of `Join`. */
  function Split(s: string, sep: char): (r: seq<string>)
    ensures |r| > 0
    ensures sep !in s ==> r == [s]
  {
    if |s| == 0 then [""]
    else
      var rest := Split(s[1..], sep);
      if s[0] == sep then [""] + rest
      else
        assert s == [s[0]] + s[1..];
        [[s[0]] + rest[0]] + rest[1..]
  }

  /** Splitting at the first separator after a separator-free prefix. */
  lemma {:induction false} SplitAfter(p: string, sep: char, t: string)
    requires sep !in p
    ensures Split(p + [sep] + t, sep) == [p] + Split(t, sep)
  {
    if |p| == 0 {
      assert p + [sep] + t == [sep] + t;
    } else {
      assert (p + [sep] + t)[1..] == p[1..] + [sep] + t;
      SplitAfter(p[1..], sep, t);
      assert [p[0]] + p[1..] == p;
    }
  }

  /**
   * Splitting a joined list gives the list back when no part holds the
   * separator: the scope string and the query string can be read back.
   */
  lemma {:induction false} SplitJoin(parts: seq<string>, sep: char)
    requires |parts| > 0
    requires forall i :: 0 <= i < |parts| ==> sep !in parts[i]
    ensures Split(Join(parts, sep), sep) == parts
  {
    if |parts| > 1 {
      SplitJoin(parts[1..], sep);
      SplitAfter(parts[0], sep, Join(parts[1..], sep));
      assert [parts[0]] + parts[1..] == parts;
    }
  }

  /** The `scope` value: the scopes joined by single spaces. */
  function ScopeValue(): (r: string)
    ensures Split(r, ' ') == Scopes
  {
    SplitJoin(Scopes, ' ');
    Join(Scopes, ' ')
  }

  /** The request parameters, in the order they are stringified. */
  function Params(): seq<(string, string)>
  {
    [("response_type", "code"), ("client_id", ClientId), ("scope", ScopeValue()), ("redirect_uri", RedirectUri)]
  }

  /** One `key=value` field, both sides passed through the encoder. */
  function Field(p: (string, string), enc: string -> string): string
  {
    enc(p.0) + "=" + enc(p.1)
  }

  function Fields(ps: seq<(string, string)>, enc: string -> string): (r: seq<string>)
    ensures |r| == |ps|
    ensures forall i :: 0 <= i < |ps| ==> r[i] == Field(ps[i], enc)
  {
    if |ps| == 0 then [] else [Field(ps[0], enc)] + Fields(ps[1..], enc)
  }

  /** `qs.stringify` of an ordered object: the encoded fields joined by `&`. */
  function Stringify(ps: seq<(string, string)>, enc: string -> string): string
  {
    Join(Fields(ps, enc), '&')
  }

  /** True when the encoder escapes both query delimiters, as `qs` does. */
  ghost predicate EscapesDelimiters(enc: string -> string)
  {
    forall s :: '&' !in enc(s) && '=' !in enc(s)
  }

  /** The authorization URL the browser is sent to on login. */
  function AuthorizeUrl(enc: string -> string): (url: string)
    ensures AuthorizeEndpoint <= url
    ensures url[|AuthorizeEndpoint|..] == Stringify(Params(), enc)
  {
    AuthorizeEndpoint + Stringify(Params(), enc)
  }

  /** Splitting a field at `=` gives its encoded key and encoded value. */
  lemma FieldParts(p: (string, string), enc: string -> string)
    requires EscapesDelimiters(enc)
    ensures Split(Field(p, enc), '=') == [enc(p.0), enc(p.1)]
  {
    assert '=' !in enc(p.0) && '=' !in enc(p.1);
    SplitAfter(enc(p.0), '=', enc(p.1));
  }

  /**
   * The query of the authorization URL has exactly four fields, in the order
   * response_type, client_id, scope, redirect_uri, with response_type `code`,
   * the fixed client id and redirect URI, and the space-joined scopes.
   */
  lemma AuthorizeQuery(enc: string -> string)
    requires EscapesDelimiters(enc)
    ensures var fields := Split(AuthorizeUrl(enc)[|AuthorizeEndpoint|..], '&');
      && |fields| == 4
      && Split(fields[0], '=') == [enc("response_type"), enc("code")]
      && Split(fields[1], '=') == [enc("client_id"), enc(ClientId)]
      && Split(fields[2], '=') == [enc("scope"), enc(ScopeValue())]
      && Split(fields[3], '=') == [enc("redirect_uri"), enc(RedirectUri)]
  {
    var ps := Params();
    var fs := Fields(ps, enc);
    forall i | 0 <= i < |fs| ensures '&' !in fs[i] {
      assert '&' !in enc(ps[i].0) && '&' !in enc(ps[i].1);
    }
    SplitJoin(fs, '&');
    FieldParts(ps[0], enc);
    FieldParts(ps[1], enc);
    FieldParts(ps[2], enc);
    FieldParts(ps[3], enc);
  }

  /** The scope value, spelled out. */
  lemma ScopeValueLiteral()
    ensures ScopeValue() ==
      "user-top-read" + " " + "user-read-email" + " " + "user-read-recently-played" + " " + "user-read-private"
  {
  }
}
