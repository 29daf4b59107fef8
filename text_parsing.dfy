/**
 * The .NET string operations the file parsers rely on:
 * `Split(new string[] { " " }, StringSplitOptions.RemoveEmptyEntries)`,
 * `Split(new char[] { ':' })` (empty fields kept) and `Trim()`.
 */
module TextParsing {

  /** `char.IsWhiteSpace`: the control characters 9-13, U+0085 and the Unicode space, line and paragraph separators. */
  predicate IsWhiteSpace(c: char)
  {
    var n := c as int;
    || (0x09 <= n <= 0x0D) || n == 0x20 || n == 0x85 || n == 0xA0 || n == 0x1680
    || (0x2000 <= n <= 0x200A) || n == 0x2028 || n == 0x2029 || n == 0x202F
    || n == 0x205F || n == 0x3000
  }

  /** The length of the run of non-separator characters at the start of `s`. */
  function RunLength(s: string, sep: char): (n: nat)
    ensures n <= |s|
    ensures forall k :: 0 <= k < n ==> s[k] != sep
    ensures n < |s| ==> s[n] == sep
  {
    if |s| == 0 || s[0] == sep then 0 else 1 + RunLength(s[1..], sep)
  }

  /** `s.Split(sep, RemoveEmptyEntries)`: the maximal runs of characters other than `sep`, in order. */
  function SplitNonEmpty(s: string, sep: char): (tokens: seq<string>)
    ensures forall k :: 0 <= k < |tokens| ==> |tokens[k]| > 0 && sep !in tokens[k]
    decreases |s|
  {
    if |s| == 0 then []
    else if s[0] == sep then SplitNonEmpty(s[1..], sep)
    else
      var n := RunLength(s, sep);
      [s[..n]] + SplitNonEmpty(s[n..], sep)
  }

  function Concat(tokens: seq<string>): string
  {
    if |tokens| == 0 then [] else tokens[0] + Concat(tokens[1..])
  }

  /** `s` with every `sep` removed. */
  function Without(s: string, sep: char): string
  {
    if |s| == 0 then [] else (if s[0] == sep then [] else [s[0]]) + Without(s[1..], sep)
  }

  lemma {:induction false} WithoutAppend(a: string, b: string, sep: char)
    ensures Without(a + b, sep) == Without(a, sep) + Without(b, sep)
    decreases |a|
  {
    if |a| == 0 {
      assert a + b == b;
    } else {
      assert (a + b)[1..] == a[1..] + b;
      WithoutAppend(a[1..], b, sep);
    }
  }

  lemma {:induction false} WithoutNoSeparator(s: string, sep: char)
    requires sep !in s
    ensures Without(s, sep) == s
    decreases |s|
  {
    if |s| > 0 {
      assert sep !in s[1..];
      WithoutNoSeparator(s[1..], sep);
      assert [s[0]] + s[1..] == s;
    }
  }

  /** Removing empty entries loses nothing but the separators: the tokens put back together are `s` without them. */
  lemma {:induction false} TokensKeepEveryOtherCharacter(s: string, sep: char)
    ensures Concat(SplitNonEmpty(s, sep)) == Without(s, sep)
    decreases |s|
  {
    if |s| == 0 {
    } else if s[0] == sep {
      TokensKeepEveryOtherCharacter(s[1..], sep);
    } else {
      var n := RunLength(s, sep);
      TokensKeepEveryOtherCharacter(s[n..], sep);
      assert s == s[..n] + s[n..];
      WithoutAppend(s[..n], s[n..], sep);
      assert sep !in s[..n];
      WithoutNoSeparator(s[..n], sep);
      assert SplitNonEmpty(s, sep)[1..] == SplitNonEmpty(s[n..], sep);
    }
  }

  /** `s.Split(new char[] { sep })`: every field, empty ones included; there is always at least one. */
  function SplitAll(s: string, sep: char): (fields: seq<string>)
    ensures |fields| >= 1
    ensures forall k :: 0 <= k < |fields| ==> sep !in fields[k]
    decreases |s|
  {
    if |s| == 0 then [""]
    else
      var rest := SplitAll(s[1..], sep);
      if s[0] == sep then [""] + rest
      else [[s[0]] + rest[0]] + rest[1..]
  }

  /** The fields joined back with the separator, as `string.Join` would. */
  function Join(fields: seq<string>, sep: char): string
    requires |fields| >= 1
  {
    if |fields| == 1 then fields[0] else fields[0] + [sep] + Join(fields[1..], sep)
  }

  /** Splitting on a character and joining with it gives back the original string. */
  lemma {:induction false} JoinSplit(s: string, sep: char)
    ensures Join(SplitAll(s, sep), sep) == s
    decreases |s|
  {
    if |s| > 0 {
      var rest := SplitAll(s[1..], sep);
      JoinSplit(s[1..], sep);
      if s[0] == sep {
        assert SplitAll(s, sep)[1..] == rest;
      } else {
        var fields := SplitAll(s, sep);
        assert fields[0] == [s[0]] + rest[0];
        if |rest| == 1 {
        } else {
          assert fields[1..] == rest[1..];
          assert Join(rest, sep) == rest[0] + [sep] + Join(rest[1..], sep);
        }
      }
    }
  }

  /** The fields that are not empty, in order: what `RemoveEmptyEntries` keeps of a plain split. */
  function NonEmptyFields(fields: seq<string>): seq<string>
  {
    if |fields| == 0 then []
    else (if |fields[0]| == 0 then [] else [fields[0]]) + NonEmptyFields(fields[1..])
  }

  /** The first field of a plain split is the leading run; the rest are the fields after the separator that ends it. */
  lemma {:induction false} SplitAllAfterRun(s: string, sep: char)
    ensures SplitAll(s, sep)[0] == s[..RunLength(s, sep)]
    ensures RunLength(s, sep) == |s| ==> |SplitAll(s, sep)| == 1
    ensures RunLength(s, sep) < |s| ==> SplitAll(s, sep)[1..] == SplitAll(s[RunLength(s, sep) + 1..], sep)
    decreases |s|
  {
    if |s| > 0 && s[0] != sep {
      var m := RunLength(s[1..], sep);
      SplitAllAfterRun(s[1..], sep);
      assert [s[0]] + s[1..][..m] == s[..m + 1];
      if m < |s| - 1 {
        assert s[1..][m + 1..] == s[m + 2..];
      }
    }
  }

  /**
   * The tokens of the `RemoveEmptyEntries` split are exactly the non-empty
   * fields of the plain split, so every token is a whole separator-free run.
   */
  lemma {:induction false} SplitNonEmptyIsNonEmptyFields(s: string, sep: char)
    ensures SplitNonEmpty(s, sep) == NonEmptyFields(SplitAll(s, sep))
    decreases |s|
  {
    var fields := SplitAll(s, sep);
    if |s| == 0 {
    } else if s[0] == sep {
      SplitNonEmptyIsNonEmptyFields(s[1..], sep);
      assert fields[1..] == SplitAll(s[1..], sep);
    } else {
      var n := RunLength(s, sep);
      SplitAllAfterRun(s, sep);
      if n == |s| {
        assert s[n..] == [];
        assert fields[1..] == [];
      } else {
        SplitNonEmptyIsNonEmptyFields(s[n + 1..], sep);
        assert s[n..][1..] == s[n + 1..];
      }
    }
  }

  /** The number of leading white-space characters. */
  function LeadingSpace(s: string): (n: nat)
    ensures n <= |s|
    ensures forall k :: 0 <= k < n ==> IsWhiteSpace(s[k])
    ensures n < |s| ==> !IsWhiteSpace(s[n])
  {
    if |s| > 0 && IsWhiteSpace(s[0]) then 1 + LeadingSpace(s[1..]) else 0
  }

  /** The number of trailing white-space characters. */
  function TrailingSpace(s: string): (n: nat)
    ensures n <= |s|
    ensures forall k :: |s| - n <= k < |s| ==> IsWhiteSpace(s[k])
    ensures n < |s| ==> !IsWhiteSpace(s[|s| - 1 - n])
  {
    if |s| > 0 && IsWhiteSpace(s[|s| - 1]) then 1 + TrailingSpace(s[..|s| - 1]) else 0
  }

  predicate IsTrimmed(s: string)
  {
    |s| == 0 || (!IsWhiteSpace(s[0]) && !IsWhiteSpace(s[|s| - 1]))
  }

  /** `s.Trim()`: the slice of `s` left after dropping white space at both ends. */
  function Trim(s: string): (r: string)
    ensures IsTrimmed(r)
    ensures exists i, j ::
              && 0 <= i <= j <= |s| && r == s[i..j]
              && (forall k :: 0 <= k < i ==> IsWhiteSpace(s[k]))
              && (forall k :: j <= k < |s| ==> IsWhiteSpace(s[k]))
  {
    var a := LeadingSpace(s);
    var rest := s[a..];
    var b := TrailingSpace(rest);
    var r := rest[..|rest| - b];
    assert r == s[a..|s| - b];
    r
  }

  /** Trimming a trimmed string changes nothing. */
  lemma TrimIdempotent(s: string)
    ensures Trim(Trim(s)) == Trim(s)
  {
    var t := Trim(s);
    assert LeadingSpace(t) == 0;
    assert t[0..] == t;
    assert TrailingSpace(t) == 0;
    assert t[..|t|] == t;
  }
}
