/**
  `comma_parse`: a comma-separated string becomes the list of its non-empty
  pieces, in order (Python's `str.split` on a comma, then a filter that drops
  empty strings).
 */
module CommaList {

  /** `s.split(',')`: the pieces between commas, at least one (possibly empty). */
  function Split(s: string): (r: seq<string>)
    ensures |r| >= 1
    ensures forall k :: 0 <= k < |r| ==> ',' !in r[k]
  {
    if s == [] then [""]
    else
      var rest := Split(s[1..]);
      if s[0] == ',' then [""] + rest
      else [[s[0]] + rest[0]] + rest[1..]
  }

  /** `','.join(xs)`: the inverse of `Split`. */
  function JoinComma(xs: seq<string>): string
  {
    if xs == [] then ""
    else if |xs| == 1 then xs[0]
    else xs[0] + "," + JoinComma(xs[1..])
  }

  /** Splitting loses nothing: joining the pieces with commas gives the string back. */
  lemma {:induction false} JoinSplit(s: string)
    ensures JoinComma(Split(s)) == s
  {
    if s != [] {
      var rest := Split(s[1..]);
      JoinSplit(s[1..]);
      if s[0] == ',' {
        assert Split(s)[1..] == rest;
      } else if |rest| == 1 {
        assert Split(s) == [[s[0]] + rest[0]];
      } else {
        assert Split(s)[1..] == rest[1..];
        assert JoinComma(rest) == rest[0] + "," + JoinComma(rest[1..]);
      }
    }
  }

  lemma {:induction false} SplitPrefix(a: string, t: string)
    requires ',' !in a
    ensures Split(a + t) == [a + Split(t)[0]] + Split(t)[1..]
  {
    if a != [] {
      SplitPrefix(a[1..], t);
      assert (a + t)[1..] == a[1..] + t;
      assert [a[0]] + (a[1..] + Split(t)[0]) == a + Split(t)[0];
    } else {
      assert a + t == t;
      assert a + Split(t)[0] == Split(t)[0];
      assert [Split(t)[0]] + Split(t)[1..] == Split(t);
    }
  }

  /** Splitting undoes joining, for comma-free pieces. */
  lemma {:induction false} SplitJoin(xs: seq<string>)
    requires |xs| >= 1
    requires forall k :: 0 <= k < |xs| ==> ',' !in xs[k]
    ensures Split(JoinComma(xs)) == xs
  {
    if |xs| == 1 {
      SplitPrefix(xs[0], "");
      assert xs[0] + "" == xs[0];
    } else {
      var t := JoinComma(xs[1..]);
      SplitJoin(xs[1..]);
      assert xs[0] + "," + t == xs[0] + ("," + t);
      SplitPrefix(xs[0], "," + t);
      assert ("," + t)[1..] == t;
      assert Split("," + t) == [""] + xs[1..];
      assert xs[0] + "" == xs[0];
      assert [xs[0]] + xs[1..] == xs;
    }
  }

  /** `filter(None, xs)`: the non-empty strings of `xs`, in order. */
  function NonEmpty(xs: seq<string>): (r: seq<string>)
    ensures forall k :: 0 <= k < |r| ==> r[k] != "" && r[k] in xs
    ensures forall x :: x in xs && x != "" ==> x in r
  {
    if xs == [] then []
    else if xs[0] == "" then NonEmpty(xs[1..])
    else [xs[0]] + NonEmpty(xs[1..])
  }

  /** `comma_parse(s)`. */
  function CommaParse(s: string): (r: seq<string>)
    ensures forall k :: 0 <= k < |r| ==> r[k] != "" && ',' !in r[k]
    ensures forall x :: x in r <==> x != "" && x in Split(s)
  {
    NonEmpty(Split(s))
  }

  lemma {:induction false} NonEmptyKeepsNonEmpty(xs: seq<string>)
    requires forall k :: 0 <= k < |xs| ==> xs[k] != ""
    ensures NonEmpty(xs) == xs
  {
    if xs != [] {
      NonEmptyKeepsNonEmpty(xs[1..]);
    }
  }

  /** A list of non-empty, comma-free names survives joining with commas and parsing back. */
  lemma CommaParseJoin(xs: seq<string>)
    requires forall k :: 0 <= k < |xs| ==> xs[k] != "" && ',' !in xs[k]
    ensures CommaParse(JoinComma(xs)) == xs
  {
    if xs != [] {
      SplitJoin(xs);
      NonEmptyKeepsNonEmpty(xs);
    }
  }

  /** Empty pieces (a leading, trailing or doubled comma) are dropped and nothing else is. */
  lemma {:induction false} CommaParseDropsEmpty(xs: seq<string>)
    requires forall k :: 0 <= k < |xs| ==> ',' !in xs[k]
    ensures CommaParse(JoinComma(xs)) == NonEmpty(xs)
  {
    if xs != [] {
      SplitJoin(xs);
    }
  }
}
