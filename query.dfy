/** A reference reading of a URL query string as an ordered list of key/value pairs: split at
    every `&`, drop empty pieces, and split each piece at its first `=`. This is how the
    proxy's `searchParams` sees the query the list controller writes; percent-decoding and
    `+`-as-space are not part of it. */
module QueryString {

  type Pair = (string, string)

  /** Index of the first `c` in `s`, or `|s|` when there is none. */
  function IndexOf(s: string, c: char): (i: nat)
    ensures i <= |s|
    ensures i < |s| ==> s[i] == c
    ensures forall j :: 0 <= j < i ==> s[j] != c
    decreases |s|
  {
    if s == [] then 0 else if s[0] == c then 0 else 1 + IndexOf(s[1..], c)
  }

  predicate Lacks(s: string, c: char) {
    forall i :: 0 <= i < |s| ==> s[i] != c
  }

  /** The pieces between `&` separators, read one character at a time. */
  function Segments(s: string): (r: seq<string>)
    ensures |r| >= 1
  {
    if s == [] then [""]
    else
      var rest := Segments(s[1..]);
      if s[0] == '&' then [""] + rest else [[s[0]] + rest[0]] + rest[1..]
  }

  function SplitPair(piece: string): Pair {
    var i := IndexOf(piece, '=');
    if i == |piece| then (piece, "") else (piece[..i], piece[i + 1..])
  }

  function Pairs(pieces: seq<string>): seq<Pair> {
    if pieces == [] then []
    else (if pieces[0] == "" then [] else [SplitPair(pieces[0])]) + Pairs(pieces[1..])
  }

  function Parse(query: string): seq<Pair> {
    Pairs(Segments(query))
  }

  /** One `key=value` piece of a query. */
  function Field(key: string, value: string): string {
    key + "=" + value
  }

  /** Pairs written out as a query, in order, separated by `&`. */
  function Join(ps: seq<Pair>): string {
    if ps == [] then ""
    else if |ps| == 1 then Field(ps[0].0, ps[0].1)
    else Field(ps[0].0, ps[0].1) + "&" + Join(ps[1..])
  }

  /** A pair that survives being written raw: a non-empty key with no `=` or `&`, and a value
      with no `&`. */
  predicate Plain(p: Pair) {
    p.0 != "" && Lacks(p.0, '=') && Lacks(p.0, '&') && Lacks(p.1, '&')
  }

  lemma FieldLacks(key: string, value: string, c: char)
    requires Lacks(key, c) && Lacks(value, c) && c != '='
    ensures Lacks(Field(key, value), c)
  {
  }

  /** Writing plain pairs as a query and reading the query back gives the same pairs. */
  lemma {:induction false} ParseJoin(ps: seq<Pair>)
    requires |ps| >= 1
    requires forall i :: 0 <= i < |ps| ==> Plain(ps[i])
    ensures Parse(Join(ps)) == ps
  {
    var p := ps[0];
    var f := Field(p.0, p.1);
    assert Plain(p);
    FieldLacks(p.0, p.1, '&');
    SplitPairOf(p.0, p.1);
    if |ps| == 1 {
      SegmentsOfPlain(f);
      PairsCons(f, []);
      assert [f] + [] == [f];
      assert ps == [p];
    } else {
      var rest := ps[1..];
      assert forall i :: 0 <= i < |rest| ==> Plain(rest[i]) by {
        forall i | 0 <= i < |rest| ensures Plain(rest[i]) { assert rest[i] == ps[i + 1]; }
      }
      ParseJoin(rest);
      SegmentsCons(f, Join(rest));
      PairsCons(f, Segments(Join(rest)));
      assert ps == [p] + rest;
    }
  }

  lemma {:induction false} SegmentsOfPlain(a: string)
    requires Lacks(a, '&')
    ensures Segments(a) == [a]
  {
    if a != [] {
      assert Lacks(a[1..], '&') by {
        forall i | 0 <= i < |a[1..]| ensures a[1..][i] != '&' { assert a[1..][i] == a[i + 1]; }
      }
      SegmentsOfPlain(a[1..]);
      assert [a[0]] + a[1..] == a;
    }
  }

  /** A piece without `&` followed by a separator is exactly the first segment. */
  lemma SegmentsCons(a: string, b: string)
    requires Lacks(a, '&')
    ensures Segments(a + "&" + b) == [a] + Segments(b)
  {
    SegmentsJoin(a, b);
    SegmentsOfPlain(a);
  }

  /** A `key=value` piece whose key has no `=` splits back into that key and value. */
  lemma SplitPairOf(key: string, value: string)
    requires Lacks(key, '=')
    ensures SplitPair(key + "=" + value) == (key, value)
  {
    var s := key + "=" + value;
    assert s[|key|] == '=';
    assert IndexOf(s, '=') == |key|;
    assert s[..|key|] == key && s[|key| + 1..] == value;
  }

  /** A separator splits the segments of what is on its two sides and nothing more. */
  lemma {:induction false} SegmentsJoin(s: string, w: string)
    ensures Segments(s + "&" + w) == Segments(s) + Segments(w)
  {
    if s == [] {
      assert s + "&" + w == "&" + w;
      assert ("&" + w)[1..] == w;
    } else {
      var joined := s + "&" + w;
      assert joined[0] == s[0];
      assert joined[1..] == s[1..] + "&" + w;
      SegmentsJoin(s[1..], w);
    }
  }

  /** Reading `s & w` gives the pairs of `s` followed by the pairs of `w`. */
  lemma ParseJoinedAt(s: string, w: string)
    ensures Parse(s + "&" + w) == Parse(s) + Parse(w)
  {
    SegmentsJoin(s, w);
    PairsAppend(Segments(s), Segments(w));
  }

  /** A non-empty piece contributes its pair, in place. */
  lemma PairsCons(piece: string, rest: seq<string>)
    requires piece != ""
    ensures Pairs([piece] + rest) == [SplitPair(piece)] + Pairs(rest)
  {
  }

  lemma {:induction false} PairsAppend(p: seq<string>, q: seq<string>)
    ensures Pairs(p + q) == Pairs(p) + Pairs(q)
  {
    if p == [] {
      assert p + q == q;
    } else {
      assert (p + q)[0] == p[0] && (p + q)[1..] == p[1..] + q;
      PairsAppend(p[1..], q);
    }
  }
}
