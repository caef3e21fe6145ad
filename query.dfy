/**
 * `http_build_query` restricted to flat lists of pairs whose characters need
 * no percent-encoding, together with the parser that reads such a query back.
 */
module FormQuery {

  /**
   * Characters that `http_build_query` copies unchanged under its default
   * RFC 1738 encoding (the rule of `urlencode`): letters, digits, `-`, `_`
   * and `.`; everything else, `~` included, is percent-encoded.
   */
  predicate Unreserved(c: char)
  {
    ('a' <= c <= 'z') || ('A' <= c <= 'Z') || ('0' <= c <= '9') ||
    c == '-' || c == '_' || c == '.'
  }

  predicate Plain(s: string)
  {
    forall i :: 0 <= i < |s| ==> Unreserved(s[i])
  }

  predicate PlainPairs(pairs: seq<(string, string)>)
  {
    forall i :: 0 <= i < |pairs| ==> Plain(pairs[i].0) && Plain(pairs[i].1)
  }

  /** One `key=value` field. */
  function Field(pair: (string, string)): string
  {
    pair.0 + "=" + pair.1
  }

  /** The fields of `pairs`, in order, joined by `&`. */
  function BuildQuery(pairs: seq<(string, string)>): (q: string)
    ensures pairs == [] <==> q == ""
  {
    if |pairs| == 0 then ""
    else if |pairs| == 1 then Field(pairs[0])
    else Field(pairs[0]) + "&" + BuildQuery(pairs[1..])
  }

  /** `s` cut at every occurrence of `sep`; there is always at least one piece. */
  function SplitOn(s: string, sep: char): (parts: seq<string>)
    ensures |parts| >= 1
    decreases |s|
  {
    if |s| == 0 then [""]
    else
      var rest := SplitOn(s[1..], sep);
      if s[0] == sep then [""] + rest
      else [[s[0]] + rest[0]] + rest[1..]
  }

  /** A field read back: the text before the first `=` and the text after it. */
  function ParseField(field: string): (string, string)
  {
    var kv := SplitOn(field, '=');
    (kv[0], if |kv| > 1 then kv[1] else "")
  }

  function ParseFields(fields: seq<string>): (pairs: seq<(string, string)>)
    ensures |pairs| == |fields|
  {
    if |fields| == 0 then [] else [ParseField(fields[0])] + ParseFields(fields[1..])
  }

  /** A query string read back as its list of pairs. */
  function ParseQuery(q: string): (pairs: seq<(string, string)>)
    ensures q == "" ==> pairs == []
  {
    if q == "" then [] else ParseFields(SplitOn(q, '&'))
  }

  /** A piece that holds no separator is not cut. */
  lemma {:induction false} SplitNoSep(a: string, sep: char)
    requires sep !in a
    ensures SplitOn(a, sep) == [a]
  {
    if |a| > 0 {
      SplitNoSep(a[1..], sep);
      assert [a[0]] + a[1..] == a;
    }
  }

  /** Cutting at the first separator splits off the piece before it. */
  lemma {:induction false} SplitAtFirst(a: string, sep: char, b: string)
    requires sep !in a
    ensures SplitOn(a + [sep] + b, sep) == [a] + SplitOn(b, sep)
  {
    var s := a + [sep] + b;
    if |a| == 0 {
      assert s[1..] == b;
    } else {
      assert s[1..] == a[1..] + [sep] + b;
      SplitAtFirst(a[1..], sep, b);
      assert [a[0]] + a[1..] == a;
    }
  }

  lemma PlainHasNoSeparators(s: string)
    requires Plain(s)
    ensures '=' !in s && '&' !in s
  {
  }

  lemma ParseFieldInverse(pair: (string, string))
    requires Plain(pair.0) && Plain(pair.1)
    ensures ParseField(Field(pair)) == pair
    ensures '&' !in Field(pair)
  {
    PlainHasNoSeparators(pair.0);
    PlainHasNoSeparators(pair.1);
    SplitAtFirst(pair.0, '=', pair.1);
    SplitNoSep(pair.1, '=');
  }

  /** Reading a built query back yields exactly the pairs it was built from. */
  lemma {:induction false} ParseBuildQuery(pairs: seq<(string, string)>)
    requires PlainPairs(pairs)
    ensures ParseQuery(BuildQuery(pairs)) == pairs
  {
    if |pairs| == 1 {
      ParseFieldInverse(pairs[0]);
      SplitNoSep(Field(pairs[0]), '&');
    } else if |pairs| > 1 {
      var rest := pairs[1..];
      ParseFieldInverse(pairs[0]);
      assert Field(pairs[0]) + "&" + BuildQuery(rest) == Field(pairs[0]) + ['&'] + BuildQuery(rest);
      SplitAtFirst(Field(pairs[0]), '&', BuildQuery(rest));
      ParseBuildQuery(rest);
    }
  }
}
