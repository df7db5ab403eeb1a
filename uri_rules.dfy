/** The string rules both converters use to build resource identifiers. */
module UriRules {

  /** The base every identifier of the richer converter is built on. */
  const BASE: string := "http://example.org/"

  /** The base of the smaller converter: the same host, without the trailing slash. */
  const API_BASE: string := "http://example.org"

  /** `s.Replace(from, to)` for one-character strings: every occurrence of
      `from` becomes `to`, everything else stays. */
  function ReplaceChar(s: string, from: char, to: char): (r: string)
    ensures |r| == |s|
    ensures forall i :: 0 <= i < |s| ==> r[i] == if s[i] == from then to else s[i]
    ensures from != to ==> from !in r
    decreases |s|
  {
    if |s| == 0 then "" else [if s[0] == from then to else s[0]] + ReplaceChar(s[1..], from, to)
  }

  /** Replacing a second time changes nothing. */
  lemma ReplaceCharIdempotent(s: string, from: char, to: char)
    ensures ReplaceChar(ReplaceChar(s, from, to), from, to) == ReplaceChar(s, from, to)
  {
    var once := ReplaceChar(s, from, to);
    assert forall i :: 0 <= i < |once| ==> ReplaceChar(once, from, to)[i] == once[i];
  }

  /** A path key with `{` and `}` rewritten to `_`, as in
      `Name.Replace("{", "_").Replace("}", "_")`. */
  function BraceFree(key: string): string
  {
    ReplaceChar(ReplaceChar(key, '{', '_'), '}', '_')
  }

  /** The subject URI of every triple the richer converter asserts for a path. */
  function PathUri(key: string): (r: string)
    ensures '{' !in r && '}' !in r
    ensures |r| == |BASE| + |key|
    ensures r[..|BASE|] == BASE
    ensures forall i :: 0 <= i < |key| ==>
              r[|BASE| + i] == if key[i] == '{' || key[i] == '}' then '_' else key[i]
  {
    var r := BASE + BraceFree(key);
    assert forall i :: 0 <= i < |key| ==> r[|BASE| + i] == BraceFree(key)[i];
    r
  }

  /** A key without braces is left as it is. */
  lemma BraceFreeKeepsPlainKey(key: string)
    requires '{' !in key && '}' !in key
    ensures BraceFree(key) == key
  {
    assert forall i :: 0 <= i < |key| ==> BraceFree(key)[i] == key[i];
  }

  /** The characters the brace rewriting sends to `_`, and `_` itself. */
  predicate BraceLike(c: char)
  {
    c == '{' || c == '}' || c == '_'
  }

  /** Keys that agree except where one has a brace and the other an
      underscore share one path URI. */
  lemma {:induction false} PathUriIgnoresBraces(k1: string, k2: string)
    requires |k1| == |k2|
    requires forall i :: 0 <= i < |k1| ==> k1[i] == k2[i] || (BraceLike(k1[i]) && BraceLike(k2[i]))
    ensures PathUri(k1) == PathUri(k2)
  {
    var b1, b2 := BraceFree(k1), BraceFree(k2);
    var o1, o2 := ReplaceChar(k1, '{', '_'), ReplaceChar(k2, '{', '_');
    forall i | 0 <= i < |k1| ensures b1[i] == b2[i] {
      assert b1[i] == if o1[i] == '}' then '_' else o1[i];
      assert b2[i] == if o2[i] == '}' then '_' else o2[i];
    }
    assert b1 == b2;
  }

  /** Brace rewriting merges keys: two different keys can share one path URI. */
  lemma PathUriMergesKeys()
    ensures "/p/{id}" != "/p/_id_"
    ensures PathUri("/p/{id}") == PathUri("/p/_id_")
  {
    var a, b := "/p/{id}", "/p/_id_";
    assert a[3] != b[3];
    PathUriIgnoresBraces(a, b);
  }

  /** Plain concatenation onto the base, used for tag references and method names. */
  function ResourceUri(name: string): (r: string)
    ensures BASE <= r && r[|BASE|..] == name
  {
    BASE + name
  }

  /** The subject URI of a tag: the name, unchanged, under "tag/". */
  function TagUri(tagName: string): (r: string)
    ensures |r| == |BASE| + 4 + |tagName|
    ensures r[..|BASE| + 4] == BASE + "tag/" && r[|BASE| + 4..] == tagName
  {
    BASE + "tag/" + tagName
  }

  /** Distinct tag names give distinct tag subjects. */
  lemma TagUriInjective(a: string, b: string)
    requires TagUri(a) == TagUri(b)
    ensures a == b
  {
    assert a == TagUri(a)[|BASE| + 4..];
  }

  /** ASCII model of `Char.ToLower`. */
  function LowerChar(c: char): (r: char)
    ensures !('A' <= r <= 'Z')
    ensures 'A' <= c <= 'Z' ==> r as int == c as int + 32
    ensures !('A' <= c <= 'Z') ==> r == c
  {
    if 'A' <= c <= 'Z' then (c as int - 'A' as int + 'a' as int) as char else c
  }

  /** ASCII model of `String.ToLower`. */
  function ToLower(s: string): (r: string)
    ensures |r| == |s|
    ensures forall i :: 0 <= i < |s| ==> r[i] == LowerChar(s[i])
    decreases |s|
  {
    if |s| == 0 then "" else [LowerChar(s[0])] + ToLower(s[1..])
  }

  /** Lowercasing leaves no upper-case letter and is idempotent. */
  lemma ToLowerIdempotent(s: string)
    ensures forall i :: 0 <= i < |ToLower(s)| ==> !('A' <= ToLower(s)[i] <= 'Z')
    ensures ToLower(ToLower(s)) == ToLower(s)
  {
    var once := ToLower(s);
    assert forall i :: 0 <= i < |once| ==> ToLower(once)[i] == once[i];
  }

  /** The subject URI of a scheme: the name under "scheme/", lowercased
      character by character, so no capital follows "scheme/". */
  function SchemeUri(schemeName: string): (r: string)
    ensures |r| == |BASE| + 7 + |schemeName|
    ensures r[..|BASE| + 7] == BASE + "scheme/"
    ensures forall i :: 0 <= i < |schemeName| ==> r[|BASE| + 7 + i] == LowerChar(schemeName[i])
    ensures forall i :: |BASE| + 7 <= i < |r| ==> !('A' <= r[i] <= 'Z')
  {
    var r := BASE + "scheme/" + ToLower(schemeName);
    assert forall i :: 0 <= i < |schemeName| ==> r[|BASE| + 7 + i] == ToLower(schemeName)[i];
    r
  }

  /** Names that agree up to case share one scheme subject. */
  lemma SchemeUriIgnoresCase(a: string, b: string)
    requires ToLower(a) == ToLower(b)
    ensures SchemeUri(a) == SchemeUri(b)
  {
  }

  /** "HTTP" and "http" are different names with one scheme subject. */
  lemma SchemeUriMergesCase()
    ensures "HTTP" != "http"
    ensures SchemeUri("HTTP") == SchemeUri("http")
  {
    var a, b := "HTTP", "http";
    assert a[0] != b[0];
    assert ToLower(a) == ToLower(b) by {
      assert ToLower(a)[0] == 'h' && ToLower(a)[1] == 't' && ToLower(a)[2] == 't' && ToLower(a)[3] == 'p';
      assert ToLower(b)[0] == 'h' && ToLower(b)[1] == 't' && ToLower(b)[2] == 't' && ToLower(b)[3] == 'p';
    }
    SchemeUriIgnoresCase(a, b);
  }

  /** A tag subject is never a scheme subject. */
  lemma TagUriNotSchemeUri(a: string, b: string)
    ensures TagUri(a) != SchemeUri(b)
  {
    assert TagUri(a)[..|BASE| + 4][|BASE|] == 't';
    assert SchemeUri(b)[..|BASE| + 7][|BASE|] == 's';
  }

  /** The summary object URI, written as the source does with the doubled
      `Replace(" ", "_")`. */
  function SummaryUri(summary: string): (r: string)
    ensures r == ResourceUri(ReplaceChar(summary, ' ', '_'))
    ensures ' ' !in r
    ensures |r| == |BASE| + |summary|
  {
    var once := ReplaceChar(summary, ' ', '_');
    ReplaceCharIdempotent(summary, ' ', '_');
    NoSpaceAfterBase(once);
    BASE + ReplaceChar(once, ' ', '_')
  }

  lemma NoSpaceAfterBase(name: string)
    requires ' ' !in name
    ensures ' ' !in BASE + name
  {
    assert ' ' !in BASE;
  }

  /** The path URI of the smaller converter: the base without a slash,
      followed by the path string of the JSON token. */
  function ApiPathUri(tokenPath: string): (r: string)
    ensures |r| == |API_BASE| + |tokenPath|
    ensures r[..|API_BASE|] == API_BASE && r[|API_BASE|..] == tokenPath
  {
    API_BASE + tokenPath
  }

  /** The method URI of the smaller converter: the path URI, a `#`, the method name. */
  function MethodUri(pathUri: string, methodName: string): (r: string)
    ensures pathUri < r
    ensures r[|pathUri|] == '#'
    ensures r[|pathUri| + 1..] == methodName
  {
    pathUri + "#" + methodName
  }

  /** Distinct methods under one path get distinct method URIs. */
  lemma MethodUriInjective(pathUri: string, m1: string, m2: string)
    requires MethodUri(pathUri, m1) == MethodUri(pathUri, m2)
    ensures m1 == m2
  {
    assert m1 == MethodUri(pathUri, m1)[|pathUri| + 1..];
  }

  /** The richer converter's path URI for `key` is the smaller converter's
      path URI for a token path exactly when that token path is "/" followed
      by the brace-free key; in particular the two never agree when the
      token path is the key itself. */
  lemma PathUrisCoincide(key: string, tokenPath: string)
    ensures PathUri(key) == ApiPathUri(tokenPath) <==> tokenPath == "/" + BraceFree(key)
    ensures PathUri(key) != ApiPathUri(key)
  {
    var tail := "/" + BraceFree(key);
    assert BASE == API_BASE + "/";
    assert PathUri(key) == API_BASE + tail by {
      assert (API_BASE + "/") + BraceFree(key) == API_BASE + tail;
    }
    if PathUri(key) == ApiPathUri(tokenPath) {
      assert tokenPath == ApiPathUri(tokenPath)[|API_BASE|..];
      assert tail == (API_BASE + tail)[|API_BASE|..];
    }
  }
}
