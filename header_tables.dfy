/**
 * The header table of an HTTP response, as a JavaScript object holds it:
 * (name, value) pairs in the order `Object.keys` enumerates them, no name
 * twice. This module also holds the content-type normalisation that the
 * terminal `json` call applies to the table.
 */
module HeaderTables {
  import opened Wrappers

  type Header = (string, string)
  type HeaderTable = seq<Header>

  /** The header name inserted when no key matches, and the value forced on the match. */
  const ContentTypeName: string := "content-type"
  const ApplicationJson: string := "application/json"

  /** ASCII lower-casing of one character, standing for `String.prototype.toLowerCase`. */
  function LowerChar(c: char): (r: char)
    ensures !('A' <= r <= 'Z')
    ensures !('A' <= c <= 'Z') ==> r == c
    ensures 'A' <= c <= 'Z' ==> 'a' <= r <= 'z' && r as int - 'a' as int == c as int - 'A' as int
  {
    if 'A' <= c <= 'Z' then (c as int + 32) as char else c
  }

  /** Lower-cases every character of a key, keeping its length. */
  function Lower(s: string): (r: string)
    ensures |r| == |s|
    ensures forall i :: 0 <= i < |s| ==> !('A' <= r[i] <= 'Z')
    ensures forall i :: 0 <= i < |s| && !('A' <= s[i] <= 'Z') ==> r[i] == s[i]
    ensures forall i :: 0 <= i < |s| && 'A' <= s[i] <= 'Z' ==> r[i] as int - s[i] as int == 32
  {
    seq(|s|, i requires 0 <= i < |s| => LowerChar(s[i]))
  }

  /** The `find` predicate: the key equals `content-type` ignoring case. */
  predicate IsContentType(name: string)
    ensures IsContentType(name) ==> |name| == |ContentTypeName|
    ensures name == ContentTypeName ==> IsContentType(name)
  {
    Lower(name) == ContentTypeName
  }

  predicate HasKey(h: HeaderTable, name: string)
  {
    exists i :: 0 <= i < |h| && h[i].0 == name
  }

  /** A JavaScript object never holds the same key twice. */
  predicate UniqueKeys(h: HeaderTable)
  {
    forall i, j :: 0 <= i < j < |h| ==> h[i].0 != h[j].0
  }

  /**
   * The property write `table[name] = value`: an existing key keeps its
   * position and gets the new value; a new key is appended at the end.
   */
  function Assign(h: HeaderTable, name: string, value: string): (r: HeaderTable)
    requires UniqueKeys(h)
    ensures |r| == if HasKey(h, name) then |h| else |h| + 1
    ensures forall i :: 0 <= i < |h| ==> r[i] == if h[i].0 == name then (name, value) else h[i]
    ensures !HasKey(h, name) ==> r[|h|] == (name, value)
    ensures UniqueKeys(r)
  {
    if h == [] then [(name, value)]
    else if h[0].0 == name then [(name, value)] + h[1..]
    else
      var rest := Assign(h[1..], name, value);
      assert HasKey(h[1..], name) ==> HasKey(h, name);
      assert HasKey(h, name) ==> HasKey(h[1..], name) by {
        if HasKey(h, name) {
          var i :| 0 <= i < |h| && h[i].0 == name;
          assert h[1..][i - 1].0 == name;
        }
      }
      [h[0]] + rest
  }

  /**
   * The position of the first key, in enumeration order, that is
   * `content-type` ignoring case (what `headerKeys.find(...)` finds).
   */
  function ContentTypeIndex(h: HeaderTable): (r: Option<nat>)
    ensures r.Some? ==> r.value < |h| && IsContentType(h[r.value].0)
    ensures r.Some? ==> forall j :: 0 <= j < r.value ==> !IsContentType(h[j].0)
    ensures r.None? ==> forall j :: 0 <= j < |h| ==> !IsContentType(h[j].0)
  {
    if h == [] then None
    else if IsContentType(h[0].0) then Some(0)
    else
      match ContentTypeIndex(h[1..])
      case None => None
      case Some(i) => Some(i + 1)
  }

  /** The key `find` returns, or nothing (`undefined`) when no key matches. */
  function ContentTypeKey(h: HeaderTable): (key: Option<string>)
    ensures key.Some? <==> exists i :: 0 <= i < |h| && IsContentType(h[i].0)
    ensures key.Some? ==> exists i :: 0 <= i < |h| && h[i].0 == key.value && IsContentType(key.value)
                                  && forall j :: 0 <= j < i ==> !IsContentType(h[j].0)
  {
    match ContentTypeIndex(h)
    case None => None
    case Some(i) => Some(h[i].0)
  }

  /**
   * The table after `json`: the key `find` returned (`ContentTypeKey`), or
   * `content-type` when it returned nothing, set to `application/json`.
   */
  function Normalize(h: HeaderTable): (r: HeaderTable)
    requires UniqueKeys(h)
    ensures UniqueKeys(r)
    ensures |r| == if ContentTypeIndex(h).Some? then |h| else |h| + 1
    ensures forall i :: 0 <= i < |h| ==> r[i].0 == h[i].0
    ensures forall i :: 0 <= i < |h| && ContentTypeIndex(h) != Some(i) ==> r[i] == h[i]
    ensures ContentTypeIndex(h).None? ==> r[|h|] == (ContentTypeName, ApplicationJson)
  {
    match ContentTypeIndex(h)
    case Some(i) =>
      assert HasKey(h, h[i].0);
      Assign(h, h[i].0, ApplicationJson)
    case None =>
      assert IsContentType(ContentTypeName);
      Assign(h, ContentTypeName, ApplicationJson)
  }

  /**
   * When some key matches, the first matching key keeps its name and its
   * position and now maps to `application/json`; no key is added and every
   * other entry is unchanged.
   */
  lemma NormalizeMatched(h: HeaderTable, i: nat)
    requires UniqueKeys(h)
    requires ContentTypeIndex(h) == Some(i)
    ensures |Normalize(h)| == |h|
    ensures Normalize(h)[i] == (h[i].0, ApplicationJson)
    ensures forall j :: 0 <= j < |h| && j != i ==> Normalize(h)[j] == h[j]
  {
    assert HasKey(h, h[i].0);
  }

  /**
   * When no key matches, exactly one entry `content-type: application/json`
   * is appended and the existing entries are unchanged.
   */
  lemma NormalizeUnmatched(h: HeaderTable)
    requires UniqueKeys(h)
    requires ContentTypeIndex(h) == None
    ensures Normalize(h) == h + [(ContentTypeName, ApplicationJson)]
  {
    var r, t := Normalize(h), h + [(ContentTypeName, ApplicationJson)];
    assert |r| == |t|;
    assert forall j :: 0 <= j < |t| ==> r[j] == t[j];
  }

  /** After normalisation a content-type key is always present, with value `application/json`. */
  lemma NormalizeHasContentType(h: HeaderTable)
    requires UniqueKeys(h)
    ensures ContentTypeIndex(Normalize(h)).Some?
    ensures Normalize(h)[ContentTypeIndex(Normalize(h)).value].1 == ApplicationJson
    ensures ContentTypeIndex(Normalize(h)).value ==
            match ContentTypeIndex(h) case Some(i) => i case None => |h|
  {
    match ContentTypeIndex(h)
    case Some(i) => MatchedStaysFirst(h, i);
    case None => UnmatchedAppendedFirst(h);
  }

  lemma MatchedStaysFirst(h: HeaderTable, i: nat)
    requires UniqueKeys(h)
    requires ContentTypeIndex(h) == Some(i)
    ensures ContentTypeIndex(Normalize(h)) == Some(i)
    ensures Normalize(h)[i].1 == ApplicationJson
  {
    var r := Normalize(h);
    NormalizeMatched(h, i);
    assert r[i].0 == h[i].0;
    FirstContentTypeAt(r, i);
  }

  lemma UnmatchedAppendedFirst(h: HeaderTable)
    requires UniqueKeys(h)
    requires ContentTypeIndex(h) == None
    ensures ContentTypeIndex(Normalize(h)) == Some(|h|)
    ensures Normalize(h)[|h|].1 == ApplicationJson
  {
    var r := Normalize(h);
    NormalizeUnmatched(h);
    assert r[|h|] == (ContentTypeName, ApplicationJson);
    assert forall j :: 0 <= j < |h| ==> r[j] == h[j];
    FirstContentTypeAt(r, |h|);
  }

  /** The first index characterises ContentTypeIndex. */
  lemma FirstContentTypeAt(h: HeaderTable, i: nat)
    requires i < |h| && IsContentType(h[i].0)
    requires forall j :: 0 <= j < i ==> !IsContentType(h[j].0)
    ensures ContentTypeIndex(h) == Some(i)
  {
  }

  /**
   * Calling `json` again, with no `headers` call in between, leaves the
   * table exactly as the first call left it.
   */
  lemma NormalizeIdempotent(h: HeaderTable)
    requires UniqueKeys(h)
    ensures UniqueKeys(Normalize(h))
    ensures Normalize(Normalize(h)) == Normalize(h)
  {
    var r := Normalize(h);
    NormalizeHasContentType(h);
    var i := ContentTypeIndex(r).value;
    assert HasKey(r, r[i].0);
    var r2 := Normalize(r);
    assert |r2| == |r|;
    forall j | 0 <= j < |r|
      ensures r2[j] == r[j]
    {
      if j != i {
        assert r[j].0 != r[i].0;
      }
    }
  }

  /**
   * Normalisation never adds a second content-type key: a table with at
   * most one such key has exactly one afterwards.
   */
  lemma NormalizeSingleContentType(h: HeaderTable)
    requires UniqueKeys(h)
    requires forall i, j :: 0 <= i < |h| && 0 <= j < |h| && IsContentType(h[i].0) && IsContentType(h[j].0) ==> i == j
    ensures var r := Normalize(h);
      forall i, j :: 0 <= i < |r| && 0 <= j < |r| && IsContentType(r[i].0) && IsContentType(r[j].0) ==> i == j
  {
    var r := Normalize(h);
    match ContentTypeIndex(h)
    case Some(k) =>
      NormalizeMatched(h, k);
      assert forall i :: 0 <= i < |r| ==> r[i].0 == h[i].0;
    case None =>
      NormalizeUnmatched(h);
  }

  /**
   * Only the first matching key is rewritten: a caller table holding both
   * `Content-Type` and `content-type` keeps both, the second one unchanged.
   */
  lemma NormalizeKeepsLaterCasing()
    ensures Normalize([("Content-Type", "text/plain"), ("content-type", "text/html")])
         == [("Content-Type", ApplicationJson), ("content-type", "text/html")]
  {
    var h := [("Content-Type", "text/plain"), ("content-type", "text/html")];
    assert Lower("Content-Type") == ContentTypeName;
    assert ContentTypeIndex(h) == Some(0);
    NormalizeMatched(h, 0);
  }
}
