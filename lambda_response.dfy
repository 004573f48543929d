/**
 * The HTTP response builder `LambdaResponse`: three private cells (headers,
 * status code, body) that chained setters overwrite, and a terminal `json`
 * that normalises the content-type header in place and returns a record.
 *
 * The body is a JSON value, a value of the type parameter `B`, which holds
 * JSON `null` among its values; `isNull` tells which values are `null`.
 * `JSON.stringify` is not modelled and is the `stringify` function handed
 * to the constructor. `None` is `undefined`: the `json` argument when none
 * is passed, and the stored body when none was stored. A `null` argument
 * is `Some(v)` with `isNull(v)`, and `??` lets it fall through to the
 * stored body exactly like `undefined`. A stored `null` is serialised.
 * The result body is `None` when the effective body is `undefined`, as
 * `JSON.stringify(undefined)` gives `undefined`.
 */
module LambdaHttp {
  import opened Wrappers
  import opened HeaderTables

  /** The record `json` returns: `{ statusCode, headers, body }`. */
  datatype Response = Response(statusCode: int, headers: HeaderTable, body: Option<string>)

  /** The `json` argument is nullish (`undefined` or `null`) for `??`. */
  predicate Nullish<B>(isNull: B -> bool, arg: Option<B>)
  {
    arg.None? || isNull(arg.value)
  }

  /**
   * The serialised body of `body ?? _body`: a non-nullish `json` argument
   * takes precedence; otherwise the stored body is used, `null` included.
   */
  function SerializedBody<B>(stringify: B -> string, isNull: B -> bool, arg: Option<B>, stored: Option<B>)
    : (r: Option<string>)
    ensures r.None? <==> Nullish(isNull, arg) && stored.None?
    ensures !Nullish(isNull, arg) ==> r == Some(stringify(arg.value))
    ensures Nullish(isNull, arg) && stored.Some? ==> r == Some(stringify(stored.value))
  {
    match (if !Nullish(isNull, arg) then arg else stored)
    case None => None
    case Some(b) => Some(stringify(b))
  }

  /**
   * `Object.keys(h).find(key => key.toLowerCase() === 'content-type')`:
   * a scan in key order that stops at the first match.
   */
  method FindContentTypeKey(h: HeaderTable) returns (key: Option<string>)
    ensures key.Some? <==> exists i :: 0 <= i < |h| && IsContentType(h[i].0)
    ensures key.Some? ==> exists i :: 0 <= i < |h| && h[i].0 == key.value && IsContentType(key.value)
                                  && forall j :: 0 <= j < i ==> !IsContentType(h[j].0)
    ensures key == ContentTypeKey(h)
  {
    var i := 0;
    while i < |h|
      invariant 0 <= i <= |h|
      invariant forall j :: 0 <= j < i ==> !IsContentType(h[j].0)
    {
      if Lower(h[i].0) == ContentTypeName {
        FirstContentTypeAt(h, i);
        return Some(h[i].0);
      }
      i := i + 1;
    }
    return None;
  }

  class LambdaResponse<B> {
    var headers: HeaderTable
    var statusCode: int
    var body: Option<B>
    const stringify: B -> string
    const isNull: B -> bool

    /** The header table is a JavaScript object: no key twice. */
    ghost predicate Valid()
      reads this
    {
      UniqueKeys(headers)
    }

    /** A fresh builder: status 200, no headers, no body. */
    constructor (stringify: B -> string, isNull: B -> bool)
      ensures Valid()
      ensures headers == [] && statusCode == 200 && body == None
      ensures this.stringify == stringify && this.isNull == isNull
    {
      headers := [];
      statusCode := 200;
      body := None;
      this.stringify := stringify;
      this.isNull := isNull;
    }

    /** Replaces the whole header table; nothing of the previous one survives. */
    method Headers(h: HeaderTable) returns (self: LambdaResponse<B>)
      requires UniqueKeys(h)
      modifies this
      ensures Valid() && self == this
      ensures headers == h
      ensures statusCode == old(statusCode) && body == old(body)
    {
      headers := h;
      return this;
    }

    /** Stores the status code verbatim; there is no range check. */
    method Status(code: int) returns (self: LambdaResponse<B>)
      modifies this
      ensures self == this
      ensures statusCode == code
      ensures headers == old(headers) && body == old(body)
    {
      statusCode := code;
      return this;
    }

    /** Stores the body to serialise when `json` is given none. */
    method Body(b: Option<B>) returns (self: LambdaResponse<B>)
      modifies this
      ensures self == this
      ensures body == b
      ensures headers == old(headers) && statusCode == old(statusCode)
    {
      body := b;
      return this;
    }

    /**
     * The terminal call: forces the first case-insensitive `content-type`
     * key (or a new `content-type` key) to `application/json` in the
     * table, then returns the status, the table and the serialised body.
     * The stored body is never changed by the argument.
     */
    method Json(arg: Option<B>) returns (r: Response)
      requires Valid()
      modifies this
      ensures Valid()
      ensures headers == Normalize(old(headers))
      ensures statusCode == old(statusCode) && body == old(body)
      ensures r == Response(statusCode, headers, SerializedBody(stringify, isNull, arg, body))
    {
      var key := FindContentTypeKey(headers);
      var name := if key.Some? then key.value else ContentTypeName;
      headers := Assign(headers, name, ApplicationJson);
      r := Response(statusCode, headers, SerializedBody(stringify, isNull, arg, body));
    }
  }

  /**
   * For a non-nullish `b`, `res().status(c).json(b)` and
   * `res().status(c).body(b).json()` give the same record: status `c`, the
   * single header `content-type: application/json`, and `b` serialised.
   */
  method ShorthandMatchesBody<B>(stringify: B -> string, isNull: B -> bool, code: int, b: B)
    returns (viaJson: Response, viaBody: Response)
    requires !isNull(b)
    ensures viaJson == viaBody
    ensures viaJson == Response(code, [(ContentTypeName, ApplicationJson)], Some(stringify(b)))
  {
    NormalizeUnmatched([]);
    var shorthand := new LambdaResponse(stringify, isNull);
    var _ := shorthand.Status(code);
    viaJson := shorthand.Json(Some(b));
    var longhand := new LambdaResponse(stringify, isNull);
    var _ := longhand.Status(code);
    var _ := longhand.Body(Some(b));
    viaBody := longhand.Json(None);
  }

  /**
   * `null` is treated differently as an argument and as a stored body.
   * `body(null).json()` serialises the stored `null`, while `json(null)`,
   * written `Json(Some(nullValue))`, on a fresh builder gives no body.
   */
  method StoredNullSerialised<B>(stringify: B -> string, isNull: B -> bool, nullValue: B)
    returns (stored: Response, passed: Response)
    requires isNull(nullValue)
    ensures stored.body == Some(stringify(nullValue))
    ensures passed.body == None
  {
    var storedNull := new LambdaResponse(stringify, isNull);
    var _ := storedNull.Body(Some(nullValue));
    stored := storedNull.Json(None);
    var passedNull := new LambdaResponse(stringify, isNull);
    passed := passedNull.Json(Some(nullValue));
  }

  /**
   * A `null` argument falls through `??`: `body(x).json(null)` serialises
   * the stored `x`, as `body(x).json()` does.
   */
  method NullArgumentFallsThrough<B>(stringify: B -> string, isNull: B -> bool, x: B, nullValue: B)
    returns (withNull: Response, withNothing: Response)
    requires isNull(nullValue)
    ensures withNull == withNothing
    ensures withNull.body == Some(stringify(x))
  {
    var first := new LambdaResponse(stringify, isNull);
    var _ := first.Body(Some(x));
    withNull := first.Json(Some(nullValue));
    var second := new LambdaResponse(stringify, isNull);
    var _ := second.Body(Some(x));
    withNothing := second.Json(None);
  }

  /**
   * The scenario of the header test: for the one table
   * `{content-type: application/json, x-token: p@ssword123}` with status
   * 429, `json` returns both headers unchanged and in the same order.
   */
  method HeadersKeptByJson<B>(stringify: B -> string, isNull: B -> bool, b: B) returns (r: Response)
    requires !isNull(b)
    ensures r == Response(429, [(ContentTypeName, ApplicationJson), ("x-token", "p@ssword123")], Some(stringify(b)))
  {
    var h := [(ContentTypeName, ApplicationJson), ("x-token", "p@ssword123")];
    FirstContentTypeAt(h, 0);
    NormalizeMatched(h, 0);
    var builder := new LambdaResponse(stringify, isNull);
    var _ := builder.Status(429);
    var _ := builder.Headers(h);
    r := builder.Json(Some(b));
  }

  /**
   * Two `json` calls in a row on any builder, with no `headers` call
   * between them, give equal records: normalisation is idempotent.
   */
  method JsonTwice<B>(builder: LambdaResponse<B>, arg: Option<B>)
    returns (first: Response, second: Response)
    requires builder.Valid()
    modifies builder
    ensures first == second
    ensures first.headers == Normalize(old(builder.headers)) && first.statusCode == old(builder.statusCode)
  {
    first := builder.Json(arg);
    NormalizeIdempotent(old(builder.headers));
    second := builder.Json(arg);
  }

  /**
   * `headers(h)` after a `json` call discards the earlier normalised key:
   * the next `json` normalises `h` alone.
   */
  method HeadersAfterJson<B>(stringify: B -> string, isNull: B -> bool, h: HeaderTable, arg: Option<B>)
    returns (r: Response)
    requires UniqueKeys(h)
    ensures r.headers == Normalize(h)
    ensures r.statusCode == 200
  {
    var builder := new LambdaResponse(stringify, isNull);
    var _ := builder.Json(arg);
    var _ := builder.Headers(h);
    r := builder.Json(arg);
  }
}
