/**
 * The Go string operations the generate commands rely on: `strings.ToLower`
 * (for matching the database driver), `strings.Split(s, ",")` (for the table
 * list) and `removeElement` (for un-ignoring one template file).
 */
module GoStrings {

  /**
   * Lower case of one character as Go's `unicode.ToLower` maps it, for every
   * character whose lower case is an ASCII character: 'A'..'Z', U+0130 (capital
   * I with dot above, lower case 'i') and U+212A (Kelvin sign, lower case 'k').
   * Every other character is left as it is.
   */
  function LowerChar(c: char): char
  {
    if 'A' <= c <= 'Z' then (c as int + 32) as char
    else if c == '\U{0130}' then 'i'
    else if c == '\U{212A}' then 'k'
    else c
  }

  function UpperAsciiChar(c: char): char
  {
    if 'a' <= c <= 'z' then (c as int - 32) as char else c
  }

  /** `strings.ToLower`, character by character. */
  function ToLower(s: string): string
  {
    seq(|s|, i requires 0 <= i < |s| => LowerChar(s[i]))
  }

  /** ASCII upper case, used to state case-insensitivity. */
  function ToUpperAscii(s: string): string
  {
    seq(|s|, i requires 0 <= i < |s| => UpperAsciiChar(s[i]))
  }

  predicate IsLowerAscii(s: string)
  {
    forall i :: 0 <= i < |s| ==> 'a' <= s[i] <= 'z'
  }

  /** Two strings are equal up to case when their lower cases agree. */
  predicate EqualFold(s: string, t: string)
  {
    ToLower(s) == ToLower(t)
  }

  /** A lower-case ASCII word is its own lower case. */
  lemma LowerOfLowerAscii(s: string)
    requires IsLowerAscii(s)
    ensures ToLower(s) == s
  {
  }

  /** Upper-casing a lower-case ASCII word does not change what it matches. */
  lemma UpperAsciiEqualFold(s: string)
    requires IsLowerAscii(s)
    ensures ToLower(ToUpperAscii(s)) == s
  {
    var u := ToUpperAscii(s);
    forall i | 0 <= i < |s| ensures ToLower(u)[i] == s[i] {
      assert u[i] == UpperAsciiChar(s[i]);
    }
  }

  /**
   * `strings.Split(s, ",")`: the pieces of `s` between commas, from left to
   * right. An empty string gives one empty piece and every comma starts a new
   * piece, so empty pieces appear for leading, trailing and doubled commas.
   */
  function SplitComma(s: string): (parts: seq<string>)
    ensures |parts| >= 1
    decreases |s|
  {
    if |s| == 0 then [""]
    else
      var rest := SplitComma(s[1..]);
      if s[0] == ',' then [""] + rest
      else [[s[0]] + rest[0]] + rest[1..]
  }

  /** `strings.Join(parts, ",")`, the inverse of SplitComma. */
  function JoinComma(parts: seq<string>): string
    requires |parts| >= 1
    decreases |parts|
  {
    if |parts| == 1 then parts[0] else parts[0] + "," + JoinComma(parts[1..])
  }

  predicate CommaFree(s: string)
  {
    forall i :: 0 <= i < |s| ==> s[i] != ','
  }

  /** Joining the pieces with commas gives back the original string. */
  lemma {:induction false} JoinSplit(s: string)
    ensures JoinComma(SplitComma(s)) == s
    decreases |s|
  {
    if |s| > 0 {
      var rest := SplitComma(s[1..]);
      JoinSplit(s[1..]);
      if s[0] == ',' {
        assert SplitComma(s) == [""] + rest;
        assert ([""] + rest)[1..] == rest;
        assert s == "," + s[1..];
      } else {
        var parts := [[s[0]] + rest[0]] + rest[1..];
        assert SplitComma(s) == parts;
        if |rest| == 1 {
          assert s == [s[0]] + s[1..];
        } else {
          assert parts[1..] == rest[1..];
          assert JoinComma(rest) == rest[0] + "," + JoinComma(rest[1..]);
          assert s == [s[0]] + s[1..];
        }
      }
    }
  }

  /** No piece produced by SplitComma contains a comma. */
  lemma {:induction false} SplitPiecesCommaFree(s: string)
    ensures forall k :: 0 <= k < |SplitComma(s)| ==> CommaFree(SplitComma(s)[k])
    decreases |s|
  {
    if |s| > 0 {
      SplitPiecesCommaFree(s[1..]);
      var rest := SplitComma(s[1..]);
      if s[0] != ',' {
        assert CommaFree(rest[0]);
        assert CommaFree([s[0]] + rest[0]);
      }
    }
  }

  lemma {:induction false} SplitCommaFree(p: string)
    requires CommaFree(p)
    ensures SplitComma(p) == [p]
    decreases |p|
  {
    if |p| > 0 {
      SplitCommaFree(p[1..]);
      assert [p[0]] + p[1..] == p;
    }
  }

  lemma {:induction false} SplitAfterPiece(p: string, t: string)
    requires CommaFree(p)
    ensures SplitComma(p + "," + t) == [p] + SplitComma(t)
    decreases |p|
  {
    var s := p + "," + t;
    if |p| == 0 {
      assert s == "," + t;
      assert s[1..] == t;
    } else {
      assert s[1..] == p[1..] + "," + t;
      SplitAfterPiece(p[1..], t);
      assert [p[0]] + p[1..] == p;
    }
  }

  /** Splitting comma-free pieces joined with commas gives back the pieces. */
  lemma {:induction false} SplitJoin(parts: seq<string>)
    requires |parts| >= 1
    requires forall k :: 0 <= k < |parts| ==> CommaFree(parts[k])
    ensures SplitComma(JoinComma(parts)) == parts
    decreases |parts|
  {
    if |parts| == 1 {
      SplitCommaFree(parts[0]);
    } else {
      SplitJoin(parts[1..]);
      SplitAfterPiece(parts[0], JoinComma(parts[1..]));
      assert [parts[0]] + parts[1..] == parts;
    }
  }

  /**
   * `removeElement(list, name)`, which is not part of this model: assumed
   * to keep, in order, every entry of `list` other than `name`.
   */
  function RemoveElement(list: seq<string>, name: string): (r: seq<string>)
    ensures forall y :: y in r <==> y in list && y != name
    ensures name !in list ==> r == list
    ensures |r| <= |list|
  {
    if |list| == 0 then []
    else if list[0] == name then RemoveElement(list[1..], name)
    else [list[0]] + RemoveElement(list[1..], name)
  }
}
