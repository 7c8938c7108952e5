/**
 * Splitting a comma-separated query value into its parts, as JavaScript's
 * `String.prototype.split(',')` does, and joining the parts back.
 */
module Strings {
  const Comma: char := ','

  /** The parts of `s` between commas; an empty string has one empty part. */
  function Split(s: string): (r: seq<string>)
    ensures |r| >= 1
    decreases |s|
  {
    if |s| == 0 then [""]
    else
      var rest := Split(s[1..]);
      if s[0] == Comma then [""] + rest
      else [[s[0]] + rest[0]] + rest[1..]
  }

  /** The parts written out with a comma between each two neighbours. */
  function Join(parts: seq<string>): string
    requires |parts| >= 1
    decreases |parts|
  {
    if |parts| == 1 then parts[0] else parts[0] + [Comma] + Join(parts[1..])
  }

  /** No part of a split contains the separator. */
  predicate CommaFree(parts: seq<string>)
  {
    forall k, c :: 0 <= k < |parts| && c in parts[k] ==> c != Comma
  }

  /**
   * Splitting loses nothing: joining the parts gives back the input, and
   * the parts hold no comma, so one more comma than there are in `s`
   * separates them.
   */
  lemma {:induction false} JoinSplit(s: string)
    ensures Join(Split(s)) == s
    ensures CommaFree(Split(s))
    decreases |s|
  {
    if |s| > 0 {
      var rest := Split(s[1..]);
      JoinSplit(s[1..]);
      if s[0] == Comma {
        assert Split(s) == [""] + rest;
        assert Split(s)[1..] == rest;
        assert s == [s[0]] + s[1..];
      } else {
        var r := Split(s);
        assert r == [[s[0]] + rest[0]] + rest[1..];
        if |rest| == 1 {
          assert s == [s[0]] + s[1..];
        } else {
          assert r[1..] == rest[1..];
          assert Join(rest) == rest[0] + [Comma] + Join(rest[1..]);
          assert s == [s[0]] + s[1..];
        }
        forall k, c | 0 <= k < |r| && c in r[k]
          ensures c != Comma
        {
          if k == 0 {
            assert c == s[0] || c in rest[0];
          } else {
            assert r[k] == rest[k];
          }
        }
      }
    }
  }

  /** Splitting a string without commas gives that string back as the only part. */
  lemma {:induction false} SplitCommaFree(s: string)
    requires Comma !in s
    ensures Split(s) == [s]
    decreases |s|
  {
    if |s| > 0 {
      SplitCommaFree(s[1..]);
      assert s == [s[0]] + s[1..];
    }
  }
}
