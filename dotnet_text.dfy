/** The parts of the .NET string library the client relies on: `String.Split(char[])`,
    `String.Trim()` with `Char.IsWhiteSpace`, and `StringBuilder.Replace(char, char)`. */
module DotNetText {

  /** No character of `s` is one of `cs`. */
  predicate NoneOf(s: string, cs: set<char>) {
    forall i :: 0 <= i < |s| ==> s[i] !in cs
  }

  /** `String.Split(char[])` without options: `s` is cut at every occurrence of any of the
      separators, and empty entries (two separators in a row, a separator at either end, the
      empty string) are kept. There is always at least one piece. */
  function Split(s: string, separators: set<char>): (pieces: seq<string>)
    ensures |pieces| >= 1
  {
    if s == [] then [[]]
    else if s[0] in separators then [[]] + Split(s[1..], separators)
    else
      var rest := Split(s[1..], separators);
      [[s[0]] + rest[0]] + rest[1..]
  }

  /** No piece holds a separator. */
  lemma {:induction false} SplitPieces(s: string, separators: set<char>)
    ensures forall i :: 0 <= i < |Split(s, separators)| ==> NoneOf(Split(s, separators)[i], separators)
  {
    if s != [] {
      SplitPieces(s[1..], separators);
      if s[0] !in separators {
        var rest := Split(s[1..], separators);
        assert NoneOf([s[0]] + rest[0], separators);
      }
    }
  }

  /** A string without separators is returned whole, as the only piece. */
  lemma {:induction false} SplitNoSeparator(s: string, separators: set<char>)
    requires NoneOf(s, separators)
    ensures Split(s, separators) == [s]
  {
    if s != [] {
      SplitNoSeparator(s[1..], separators);
      assert [s[0]] + s[1..] == s;
    }
  }

  /** A leading character that is not a separator joins the first piece of the rest. */
  lemma SplitCons(x: char, s: string, separators: set<char>)
    requires x !in separators
    ensures Split([x] + s, separators)
         == [[x] + Split(s, separators)[0]] + Split(s, separators)[1..]
  {
    assert ([x] + s)[1..] == s;
  }

  /** A leading separator ends an empty first piece. */
  lemma SplitConsSeparator(x: char, s: string, separators: set<char>)
    requires x in separators
    ensures Split([x] + s, separators) == [[]] + Split(s, separators)
  {
    assert ([x] + s)[1..] == s;
  }

  /** Cutting at one separator splits the result into the pieces of either side. */
  lemma {:induction false} SplitAppend(a: string, c: char, b: string, separators: set<char>)
    requires c in separators
    ensures Split(a + [c] + b, separators) == Split(a, separators) + Split(b, separators)
  {
    var right := Split(b, separators);
    if a == [] {
      calc {
        Split(a + [c] + b, separators);
        { assert a + [c] + b == [c] + b; }
        Split([c] + b, separators);
        { SplitConsSeparator(c, b, separators); }
        [[]] + right;
      }
    } else {
      var x, tail := a[0], a[1..];
      var rest := tail + [c] + b;
      var left := Split(tail, separators);
      assert a + [c] + b == [x] + rest;
      assert a == [x] + tail;
      if x in separators {
        calc {
          Split([x] + rest, separators);
          { SplitConsSeparator(x, rest, separators); }
          [[]] + Split(rest, separators);
          { SplitAppend(tail, c, b, separators); }
          [[]] + (left + right);
          ([[]] + left) + right;
          { SplitConsSeparator(x, tail, separators); }
          Split([x] + tail, separators) + right;
        }
      } else {
        calc {
          Split([x] + rest, separators);
          { SplitCons(x, rest, separators); }
          [[x] + Split(rest, separators)[0]] + Split(rest, separators)[1..];
          { SplitAppend(tail, c, b, separators); }
          [[x] + (left + right)[0]] + (left + right)[1..];
          { assert (left + right)[0] == left[0]; assert (left + right)[1..] == left[1..] + right; }
          [[x] + left[0]] + (left[1..] + right);
          ([[x] + left[0]] + left[1..]) + right;
          { SplitCons(x, tail, separators); }
          Split([x] + tail, separators) + right;
        }
      }
    }
  }

  /** `Char.IsWhiteSpace`: the Unicode space, line and paragraph separators, together with
      the control characters U+0009 to U+000D and U+0085. */
  predicate IsWhiteSpace(c: char) {
    var n := c as int;
    (0x09 <= n <= 0x0D) || n == 0x20 || n == 0x85 || n == 0xA0 || n == 0x1680
    || (0x2000 <= n <= 0x200A) || n == 0x2028 || n == 0x2029 || n == 0x202F
    || n == 0x205F || n == 0x3000
  }

  /** Every character of `s` is white space (true of the empty string). */
  predicate AllWhiteSpace(s: string) {
    forall i :: 0 <= i < |s| ==> IsWhiteSpace(s[i])
  }

  /** Drops the longest white-space prefix. */
  function TrimStart(s: string): string {
    if s != [] && IsWhiteSpace(s[0]) then TrimStart(s[1..]) else s
  }

  /** Drops the longest white-space suffix. */
  function TrimEnd(s: string): string {
    if s != [] && IsWhiteSpace(s[|s| - 1]) then TrimEnd(s[..|s| - 1]) else s
  }

  /** `String.Trim()`: white space removed from both ends. */
  function Trim(s: string): string {
    TrimStart(TrimEnd(s))
  }

  /** What `TrimStart` leaves is a suffix of `s` that is empty or starts with a character that
      is not white space, and everything it drops is white space. */
  lemma {:induction false} TrimStartDropsWhiteSpacePrefix(s: string)
    ensures |TrimStart(s)| <= |s| && TrimStart(s) == s[|s| - |TrimStart(s)|..]
    ensures TrimStart(s) == [] || !IsWhiteSpace(TrimStart(s)[0])
    ensures AllWhiteSpace(s[..|s| - |TrimStart(s)|])
  {
    if s != [] && IsWhiteSpace(s[0]) {
      TrimStartDropsWhiteSpacePrefix(s[1..]);
      var r := TrimStart(s);
      assert s[..|s| - |r|] == [s[0]] + s[1..][..|s| - 1 - |r|];
    }
  }

  /** What `TrimEnd` leaves is a prefix of `s` that is empty or ends with a character that is
      not white space, and everything it drops is white space. */
  lemma {:induction false} TrimEndDropsWhiteSpaceSuffix(s: string)
    ensures |TrimEnd(s)| <= |s| && TrimEnd(s) == s[..|TrimEnd(s)|]
    ensures TrimEnd(s) == [] || !IsWhiteSpace(TrimEnd(s)[|TrimEnd(s)| - 1])
    ensures AllWhiteSpace(s[|TrimEnd(s)|..])
  {
    if s != [] && IsWhiteSpace(s[|s| - 1]) {
      var init := s[..|s| - 1];
      TrimEndDropsWhiteSpaceSuffix(init);
      var r := TrimEnd(s);
      assert s[|r|..] == init[|r|..] + [s[|s| - 1]];
    }
  }

  /** Trimming leaves nothing exactly when the string is white space only. */
  lemma TrimEmptyIffAllWhiteSpace(s: string)
    ensures Trim(s) == [] <==> AllWhiteSpace(s)
  {
    var e := TrimEnd(s);
    TrimEndDropsWhiteSpaceSuffix(s);
    TrimStartDropsWhiteSpacePrefix(e);
    if Trim(s) == [] {
      assert e[..|e|] == e;
      assert e == [];
      assert s[|e|..] == s;
    } else {
      var t := Trim(s);
      var k := |e| - |t|;
      assert t[0] == e[k] == s[k];
    }
  }

  /** The characters of `s`, with every `from` turned into `to`. */
  function Replaced(s: string, from: char, to: char): string {
    seq(|s|, i requires 0 <= i < |s| => if s[i] == from then to else s[i])
  }

  /** `StringBuilder.Replace(char, char)`: replaces every occurrence of `from` by `to` in
      place, one position at a time. */
  method Replace(sb: array<char>, from: char, to: char)
    modifies sb
    ensures sb[..] == Replaced(old(sb[..]), from, to)
  {
    for i := 0 to sb.Length
      invariant forall k :: 0 <= k < i ==> sb[k] == if old(sb[k]) == from then to else old(sb[k])
      invariant forall k :: i <= k < sb.Length ==> sb[k] == old(sb[k])
    {
      if sb[i] == from {
        sb[i] := to;
      }
    }
  }
}
