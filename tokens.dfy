/**
 * Extraction of the bearer token from the `Authorization` header of a
 * request (src/utils/token_extractor.py). The function never raises: a
 * missing or malformed header yields an error message in place of the
 * token.
 */
module Tokens {
  import opened Common
  import opened Strings

  /**
   * Request headers as a Python dict: key/value pairs in insertion order.
   * A dict holds each key at most once; `UniqueKeys` states that where a
   * lemma needs it.
   */
  type Headers = seq<(string, string)>

  /** No key occurs twice, as in a dict. */
  predicate UniqueKeys(headers: Headers)
  {
    forall i, j :: 0 <= i < j < |headers| ==> headers[i].0 != headers[j].0
  }

  /** `headers.get(key)`: the value of the first entry with that key. */
  function Lookup(headers: Headers, key: string): (r: Option<string>)
    ensures r.Some? <==> exists k :: 0 <= k < |headers| && headers[k].0 == key
    ensures r.Some? ==>
              exists k :: 0 <= k < |headers| && headers[k] == (key, r.value)
                          && forall j :: 0 <= j < k ==> headers[j].0 != key
  {
    if headers == [] then None
    else if headers[0].0 == key then Some(headers[0].1)
    else
      var r := Lookup(headers[1..], key);
      if r.Some? then FirstInTail(headers, key, r.value); r else r
  }

  /** The first entry with `key` in the tail is the first in the whole, when the head has another key. */
  lemma FirstInTail(headers: Headers, key: string, v: string)
    requires headers != [] && headers[0].0 != key
    requires exists k :: 0 <= k < |headers[1..]| && headers[1..][k] == (key, v)
                         && forall j :: 0 <= j < k ==> headers[1..][j].0 != key
    ensures exists k :: 0 <= k < |headers| && headers[k] == (key, v)
                        && forall j :: 0 <= j < k ==> headers[j].0 != key
  {
    var k :| 0 <= k < |headers[1..]| && headers[1..][k] == (key, v)
             && forall j :: 0 <= j < k ==> headers[1..][j].0 != key;
    assert headers[k + 1] == (key, v);
    forall j | 0 <= j < k + 1 ensures headers[j].0 != key {
      if j > 0 { assert headers[j] == headers[1..][j - 1]; }
    }
  }

  /** In a dict, `headers.get(key)` is `v` exactly when `(key, v)` is one of its items. */
  lemma LookupUnique(headers: Headers, key: string, v: string)
    requires UniqueKeys(headers)
    ensures Lookup(headers, key) == Some(v) <==> (key, v) in headers
  {
    if (key, v) in headers {
      var i :| 0 <= i < |headers| && headers[i] == (key, v);
      var r := Lookup(headers, key);
      assert r.Some? by { assert headers[i].0 == key; }
      var k :| 0 <= k < |headers| && headers[k] == (key, r.value);
      assert headers[k].0 == headers[i].0;
    }
  }

  /** The `Authorization` header, with an absent header read as "" (both are falsy). */
  function AuthorizationValue(headers: Headers): string
  {
    match Lookup(headers, "Authorization")
    case None => ""
    case Some(h) => h
  }

  /** Python's `repr` of a dict of strings, for strings that need no escaping. */
  function HeadersRepr(headers: Headers): string
  {
    "{" + Join(ItemsRepr(headers), ", ") + "}"
  }

  function ItemsRepr(headers: Headers): (items: seq<string>)
    ensures |items| == |headers|
  {
    if headers == [] then []
    else ["'" + headers[0].0 + "': '" + headers[0].1 + "'"] + ItemsRepr(headers[1..])
  }

  /** The text every error message of the extractor starts with. */
  const ErrorTag: string := "Error: "

  const NoHeaderDetail: string := "No Authorization header found: "
  const InvalidHeaderDetail: string := "Invalid Authorization header, more than 2 parts: "

  function NoHeaderError(headers: Headers): string
  {
    ErrorTag + NoHeaderDetail + HeadersRepr(headers)
  }

  function InvalidHeaderError(headers: Headers): string
  {
    ErrorTag + InvalidHeaderDetail + HeadersRepr(headers)
  }

  /** The header is `Bearer`, one space, and a token without spaces. */
  predicate IsBearer(h: string)
  {
    |h| >= 7 && h[..7] == "Bearer " && ' ' !in h[7..]
  }

  /** splitting at every space gives exactly two parts, the first literally `Bearer`, iff the header is a bearer header */
  lemma BearerSplit(h: string)
    ensures (|Split(h, ' ')| == 2 && Split(h, ' ')[0] == "Bearer") <==> IsBearer(h)
    ensures IsBearer(h) ==> Split(h, ' ') == ["Bearer", h[7..]]
  {
    var parts := Split(h, ' ');
    if IsBearer(h) {
      assert h == Join(["Bearer", h[7..]], [' ']);
      SplitJoin(["Bearer", h[7..]], ' ');
    }
    if |parts| == 2 && parts[0] == "Bearer" {
      JoinSplit(h, ' ');
      assert h == "Bearer" + [' '] + parts[1];
      assert h[7..] == parts[1];
    }
  }

  /**
   * `extract_token_from_header`: the token of a well-formed bearer header;
   * otherwise one of the two error messages, never an exception.
   */
  function ExtractToken(headers: Headers): (r: string)
    ensures AuthorizationValue(headers) == "" ==> r == NoHeaderError(headers)
    ensures AuthorizationValue(headers) != "" && !IsBearer(AuthorizationValue(headers)) ==>
              r == InvalidHeaderError(headers)
    ensures IsBearer(AuthorizationValue(headers)) ==> AuthorizationValue(headers) == "Bearer " + r
    ensures ' ' !in r <==> IsBearer(AuthorizationValue(headers))
  {
    var h := AuthorizationValue(headers);
    if h == "" then
      assert NoHeaderError(headers)[6] == ErrorTag[6] == ' ';
      NoHeaderError(headers)
    else
      var parts := Split(h, ' ');
      BearerSplit(h);
      if |parts| != 2 || parts[0] != "Bearer" then
        assert InvalidHeaderError(headers)[6] == ErrorTag[6] == ' ';
        InvalidHeaderError(headers)
      else
        assert h == h[..7] + h[7..];
        parts[1]
  }

  /** A dict whose `Authorization` item is `Bearer ` and a space-free token yields that token. */
  lemma TokenOfItem(headers: Headers, token: string)
    requires UniqueKeys(headers)
    requires ("Authorization", "Bearer " + token) in headers && ' ' !in token
    ensures ExtractToken(headers) == token
  {
    var h := "Bearer " + token;
    LookupUnique(headers, "Authorization", h);
    assert h[..7] == "Bearer " && h[7..] == token;
  }

  /** A well-formed bearer header yields its token (the project's first test case). */
  lemma ExtractTokenExample()
    ensures ExtractToken([("Authorization", "Bearer 12345")]) == "12345"
  {
    var ok := [("Authorization", "Bearer 12345")];
    assert AuthorizationValue(ok) == "Bearer 12345";
    assert IsBearer("Bearer 12345");
  }

  /** No headers at all yield the no-header message (the second test case). */
  lemma NoHeaderExample()
    ensures ExtractToken([]) == ErrorTag + NoHeaderDetail + "{}"
  {
    assert AuthorizationValue([]) == "";
    assert HeadersRepr([]) == "{}";
  }

  /** A header with three parts yields the invalid-header message (the third test case). */
  lemma InvalidHeaderExample(h: string)
    requires h == "Bearer 12345 67890"
    ensures ExtractToken([("Authorization", h)]) == ErrorTag + InvalidHeaderDetail + "{'Authorization': '" + h + "'}"
  {
    assert !IsBearer(h) by {
      assert h[7..][5] == ' ';
    }
    MalformedSingleHeader(h);
  }

  /** The message for a single malformed `Authorization` header. */
  lemma MalformedSingleHeader(h: string)
    requires h != "" && !IsBearer(h)
    ensures ExtractToken([("Authorization", h)]) == InvalidHeaderError([("Authorization", h)])
    ensures HeadersRepr([("Authorization", h)]) == "{'Authorization': '" + h + "'}"
  {
    assert AuthorizationValue([("Authorization", h)]) == h by {
      assert Lookup([("Authorization", h)], "Authorization") == Some(h);
    }
    assert HeadersRepr([("Authorization", h)]) == "{'Authorization': '" + h + "'}" by {
      OneHeaderRepr("Authorization", h);
    }
  }

  lemma OneHeaderRepr(k: string, v: string)
    ensures HeadersRepr([(k, v)]) == "{'" + k + "': '" + v + "'}"
  {
    var one := [(k, v)];
    assert one[1..] == [];
    assert ItemsRepr(one) == ["'" + k + "': '" + v + "'"];
  }
}
