/**
 * Small specifications of the text helpers the engine's parsers rely on:
 * whitespace splitting, ASCII upper-casing and carriage-return removal
 * (the engine's String utilities), line splitting as std::getline does it,
 * and decimal conversion in both directions as std::stoi and
 * std::to_string do it. The engine's own String utility source is not part
 * of this model, so these are definitions of the intended behaviour.
 */
module Strings {
  import opened Wrappers

  // ---------------------------------------------------------------------
  // Whitespace splitting
  // ---------------------------------------------------------------------

  /** White space as the C locale's isspace classifies it. */
  predicate IsSpace(c: char) {
    c == ' ' || c == '\t' || c == '\n' || c == '\U{000B}' || c == '\U{000C}' || c == '\r'
  }

  /** A token: non-empty and free of white space. */
  predicate IsWord(t: string) {
    t != [] && forall i :: 0 <= i < |t| ==> !IsSpace(t[i])
  }

  /** The number of leading characters of s that are not white space. */
  function WordLength(s: string): (n: nat)
    ensures n <= |s|
    ensures forall i :: 0 <= i < n ==> !IsSpace(s[i])
    ensures n < |s| ==> IsSpace(s[n])
    decreases |s|
  {
    if s == [] || IsSpace(s[0]) then 0 else 1 + WordLength(s[1..])
  }

  /**
   * The maximal runs of non-white-space characters of s, in order.
   * A line that starts with a non-space character yields at least one
   * token, and that token is the line's leading run.
   */
  function Split(s: string): (tokens: seq<string>)
    ensures forall k :: 0 <= k < |tokens| ==> IsWord(tokens[k])
    ensures s != [] && !IsSpace(s[0]) ==> tokens != [] && tokens[0] == s[..WordLength(s)]
    decreases |s|
  {
    if s == [] then []
    else if IsSpace(s[0]) then Split(s[1..])
    else
      var n := WordLength(s);
      [s[..n]] + Split(s[n..])
  }

  /** The tokens joined back into one string, one blank between neighbours. */
  function JoinWords(tokens: seq<string>): string
    decreases |tokens|
  {
    if tokens == [] then []
    else if |tokens| == 1 then tokens[0]
    else tokens[0] + " " + JoinWords(tokens[1..])
  }

  /** A word followed by the end of the string or by white space is the whole leading run. */
  lemma {:induction false} WordLengthOfWord(w: string, rest: string)
    requires IsWord(w)
    requires rest == [] || IsSpace(rest[0])
    ensures WordLength(w + rest) == |w|
    decreases |w|
  {
    if |w| > 1 {
      assert (w + rest)[1..] == w[1..] + rest;
      WordLengthOfWord(w[1..], rest);
    } else {
      assert (w + rest)[1..] == rest;
    }
  }

  /** Splitting a string that starts with a word and white space peels that word off. */
  lemma SplitLeadingWord(w: string, rest: string)
    requires IsWord(w)
    requires rest == [] || IsSpace(rest[0])
    ensures Split(w + rest) == [w] + Split(rest)
  {
    WordLengthOfWord(w, rest);
    assert (w + rest)[..|w|] == w;
    assert (w + rest)[|w|..] == rest;
  }

  /** Concatenating four strings, grouped from the right. */
  lemma ConcatRight(a: string, b: string, c: string, d: string)
    ensures a + b + c + d == a + (b + (c + d))
  {
  }

  /** White space in front of a string adds no token. */
  lemma SplitLeadingSpace(rest: string)
    ensures Split(" " + rest) == Split(rest)
  {
    assert (" " + rest)[1..] == rest;
  }

  /** Splitting undoes joining: a list of tokens survives a join/split round trip. */
  lemma {:induction false} SplitJoinWords(tokens: seq<string>)
    requires forall k :: 0 <= k < |tokens| ==> IsWord(tokens[k])
    ensures Split(JoinWords(tokens)) == tokens
    decreases |tokens|
  {
    if tokens == [] {
    } else if |tokens| == 1 {
      SplitLeadingWord(tokens[0], []);
      assert tokens[0] + [] == tokens[0];
    } else {
      var rest := JoinWords(tokens[1..]);
      assert tokens[0] + " " + rest == tokens[0] + (" " + rest);
      SplitLeadingWord(tokens[0], " " + rest);
      SplitLeadingSpace(rest);
      SplitJoinWords(tokens[1..]);
      assert tokens == [tokens[0]] + tokens[1..];
    }
  }

  // ---------------------------------------------------------------------
  // ASCII upper-casing
  // ---------------------------------------------------------------------

  predicate IsLower(c: char) { 'a' <= c <= 'z' }

  /** No lower-case ASCII letter occurs in s. */
  predicate NoLower(s: string) {
    forall i :: 0 <= i < |s| ==> !IsLower(s[i])
  }

  function UpperChar(c: char): char {
    if IsLower(c) then (c as int - 32) as char else c
  }

  /**
   * s with every lower-case ASCII letter replaced by its upper-case
   * partner; every other character stays where it is.
   */
  function ToUpper(s: string): (r: string)
    ensures |r| == |s|
    ensures NoLower(r)
    ensures forall i :: 0 <= i < |s| && IsLower(s[i]) ==> r[i] as int == s[i] as int - 32
    ensures forall i :: 0 <= i < |s| && !IsLower(s[i]) ==> r[i] == s[i]
  {
    seq(|s|, i requires 0 <= i < |s| => UpperChar(s[i]))
  }

  /** Upper-casing twice is upper-casing once. */
  lemma ToUpperIdempotent(s: string)
    ensures ToUpper(ToUpper(s)) == ToUpper(s)
  {
  }

  // ---------------------------------------------------------------------
  // Removing one character everywhere
  // ---------------------------------------------------------------------

  /** s with every occurrence of c deleted: the result holds no c and is no longer than s. */
  function RemoveChar(s: string, c: char): (r: string)
    ensures c !in r
    ensures |r| <= |s|
    decreases |s|
  {
    if s == [] then []
    else (if s[0] == c then [] else [s[0]]) + RemoveChar(s[1..], c)
  }

  /** Every character other than c occurs as often after the removal as before it. */
  lemma {:induction false} RemoveCharCounts(s: string, c: char, d: char)
    requires d != c
    ensures multiset(RemoveChar(s, c))[d] == multiset(s)[d]
    decreases |s|
  {
    if s != [] {
      RemoveCharCounts(s[1..], c, d);
      assert s == [s[0]] + s[1..];
    }
  }

  /** Removal works piecewise, so the surviving characters keep their order. */
  lemma {:induction false} RemoveCharAppend(a: string, b: string, c: char)
    ensures RemoveChar(a + b, c) == RemoveChar(a, c) + RemoveChar(b, c)
    decreases |a|
  {
    if a == [] {
      assert a + b == b;
    } else {
      var head := if a[0] == c then [] else [a[0]];
      RemoveCharFirst(a, c);
      RemoveCharFirst(a + b, c);
      assert (a + b)[0] == a[0];
      assert (a + b)[1..] == a[1..] + b;
      RemoveCharAppend(a[1..], b, c);
      assert head + RemoveChar(a[1..], c) + RemoveChar(b, c) == head + (RemoveChar(a[1..], c) + RemoveChar(b, c));
    }
  }

  /** Removal from a non-empty string: its first character survives unless it is c. */
  lemma RemoveCharFirst(s: string, c: char)
    requires s != []
    ensures RemoveChar(s, c) == (if s[0] == c then [] else [s[0]]) + RemoveChar(s[1..], c)
  {
  }

  /** A string without c is left unchanged. */
  lemma {:induction false} RemoveCharAbsent(s: string, c: char)
    requires c !in s
    ensures RemoveChar(s, c) == s
    decreases |s|
  {
    if s != [] {
      RemoveCharAbsent(s[1..], c);
    }
  }

  /** Removing twice is removing once. */
  lemma RemoveCharIdempotent(s: string, c: char)
    ensures RemoveChar(RemoveChar(s, c), c) == RemoveChar(s, c)
  {
    RemoveCharAbsent(RemoveChar(s, c), c);
  }

  // ---------------------------------------------------------------------
  // Lines, as successive std::getline calls deliver them
  // ---------------------------------------------------------------------

  /** The position of the first newline of s, or |s| when there is none. */
  function LineLength(s: string): (n: nat)
    ensures n <= |s|
    ensures '\n' !in s[..n]
    ensures n < |s| ==> s[n] == '\n'
    decreases |s|
  {
    if s == [] || s[0] == '\n' then 0
    else
      var n := 1 + LineLength(s[1..]);
      assert s[..n] == [s[0]] + s[1..][..n - 1];
      n
  }

  /**
   * The lines std::getline extracts from s, newlines dropped: a final line
   * without a newline still counts, and a trailing newline does not start
   * an extra empty line.
   */
  function Lines(s: string): (lines: seq<string>)
    ensures forall k :: 0 <= k < |lines| ==> '\n' !in lines[k]
    decreases |s|
  {
    if s == [] then []
    else
      var n := LineLength(s);
      [s[..n]] + (if n < |s| then Lines(s[n + 1..]) else [])
  }

  /** The lines written back, each followed by a newline. */
  function Unlines(lines: seq<string>): string
    decreases |lines|
  {
    if lines == [] then [] else lines[0] + "\n" + Unlines(lines[1..])
  }

  /** s with a newline appended unless it is empty or already ends in one. */
  function Terminated(s: string): (r: string)
    ensures s <= r
  {
    if s == [] || s[|s| - 1] == '\n' then s else s + "\n"
  }

  /** Terminating a text after its first line is terminating the rest. */
  lemma TerminatedAfterLine(line: string, rest: string)
    ensures Terminated(line + "\n" + rest) == line + "\n" + Terminated(rest)
  {
    var s := line + "\n" + rest;
    if rest != [] {
      assert s[|s| - 1] == rest[|rest| - 1];
      if rest[|rest| - 1] != '\n' {
        assert s + "\n" == line + "\n" + (rest + "\n");
      }
    }
  }

  /** A text with at least one newline is its first line, the newline, and the rest. */
  lemma SplitAtNewline(s: string, n: nat)
    requires n < |s| && s[n] == '\n'
    ensures s == s[..n] + "\n" + s[n + 1..]
  {
    assert s[..n + 1] == s[..n] + "\n";
    assert s == s[..n + 1] + s[n + 1..];
  }

  /** The lines of a text with a newline are its first line followed by the lines of the rest. */
  lemma LinesOfNewline(s: string)
    requires s != [] && LineLength(s) < |s|
    ensures Unlines(Lines(s)) == s[..LineLength(s)] + "\n" + Unlines(Lines(s[LineLength(s) + 1..]))
  {
    var n := LineLength(s);
    LinesUnfold(s);
    UnlinesCons(s[..n], Lines(s[n + 1..]));
  }

  /** A text with a newline: its first line, then the lines after that newline. */
  lemma LinesUnfold(s: string)
    requires s != [] && LineLength(s) < |s|
    ensures Lines(s) == [s[..LineLength(s)]] + Lines(s[LineLength(s) + 1..])
  {
  }

  /** Writing out a first line and further lines. */
  lemma UnlinesCons(line: string, lines: seq<string>)
    ensures Unlines([line] + lines) == line + "\n" + Unlines(lines)
  {
    assert ([line] + lines)[1..] == lines;
  }

  /** Splitting into lines loses nothing but a missing final newline. */
  lemma {:induction false} UnlinesLines(s: string)
    ensures Unlines(Lines(s)) == Terminated(s)
    decreases |s|
  {
    if s != [] {
      var n := LineLength(s);
      if n < |s| {
        var rest := s[n + 1..];
        SplitAtNewline(s, n);
        LinesOfNewline(s);
        UnlinesLines(rest);
        TerminatedAfterLine(s[..n], rest);
      } else {
        assert s[..n] == s;
        assert Lines(s) == [s];
      }
    }
  }

  /** Writing newline-free lines out and reading them back gives the same lines. */
  lemma {:induction false} LinesUnlines(lines: seq<string>)
    requires forall k :: 0 <= k < |lines| ==> '\n' !in lines[k]
    ensures Lines(Unlines(lines)) == lines
    decreases |lines|
  {
    if lines != [] {
      var s := Unlines(lines);
      var rest := Unlines(lines[1..]);
      LinesOfFirst(lines[0], rest);
      LinesUnlines(lines[1..]);
      assert lines == [lines[0]] + lines[1..];
    }
  }

  /** A newline-free line, a newline and a rest split into that line and the rest's lines. */
  lemma LinesOfFirst(line: string, rest: string)
    requires '\n' !in line
    ensures Lines(line + "\n" + rest) == [line] + Lines(rest)
  {
    var s := line + ("\n" + rest);
    assert s == line + "\n" + rest;
    LineLengthAt(line, "\n" + rest);
    assert s[..|line|] == line;
    assert s[|line| + 1..] == rest;
  }

  /** A newline-free prefix followed by a newline is exactly one line long. */
  lemma {:induction false} LineLengthAt(line: string, rest: string)
    requires '\n' !in line
    requires rest != [] && rest[0] == '\n'
    ensures LineLength(line + rest) == |line|
    decreases |line|
  {
    if line != [] {
      assert (line + rest)[1..] == line[1..] + rest;
      assert line[0] in line;
      LineLengthAt(line[1..], rest);
    }
  }

  // ---------------------------------------------------------------------
  // Decimal numbers: std::stoi and std::to_string
  // ---------------------------------------------------------------------

  const IntMin: int := -0x8000_0000
  const IntMax: int := 0x7FFF_FFFF

  predicate InIntRange(n: int) { IntMin <= n <= IntMax }

  predicate IsDigit(c: char) { '0' <= c <= '9' }

  predicate AllDigits(s: string) {
    forall i :: 0 <= i < |s| ==> IsDigit(s[i])
  }

  function DigitChar(d: nat): (c: char)
    requires d < 10
    ensures IsDigit(c)
  {
    ('0' as int + d) as char
  }

  /** The value of a string of decimal digits, most significant first. */
  function DigitsValue(ds: string): nat
    requires AllDigits(ds)
    decreases |ds|
  {
    if ds == [] then 0
    else 10 * DigitsValue(ds[..|ds| - 1]) + (ds[|ds| - 1] as int - '0' as int)
  }

  /** The number of leading white-space characters of s. */
  function SpaceRunLength(s: string): (n: nat)
    ensures n <= |s|
    ensures forall i :: 0 <= i < n ==> IsSpace(s[i])
    ensures n < |s| ==> !IsSpace(s[n])
    decreases |s|
  {
    if s == [] || !IsSpace(s[0]) then 0 else 1 + SpaceRunLength(s[1..])
  }

  /** The number of leading decimal digits of s. */
  function DigitRunLength(s: string): (n: nat)
    ensures n <= |s|
    ensures AllDigits(s[..n])
    ensures n < |s| ==> !IsDigit(s[n])
    decreases |s|
  {
    if s == [] || !IsDigit(s[0]) then 0
    else
      var n := 1 + DigitRunLength(s[1..]);
      assert s[..n] == [s[0]] + s[1..][..n - 1];
      n
  }

  /** Why std::stoi refuses a string: no digits where a number should be, or a value outside int. */
  datatype StoiError = InvalidArgument | OutOfRange

  /**
   * std::stoi in base 10: leading white space is skipped, one optional sign
   * is read, then the longest run of digits; whatever follows is ignored.
   * No digits at all is an invalid argument; a value outside the 32-bit
   * int range is out of range.
   */
  function Stoi(s: string): (r: Result<int, StoiError>)
    ensures r.Success? ==> InIntRange(r.value)
  {
    var t := s[SpaceRunLength(s)..];
    var signed := t != [] && (t[0] == '-' || t[0] == '+');
    var body := if signed then t[1..] else t;
    var digits := body[..DigitRunLength(body)];
    if digits == [] then Failure(InvalidArgument)
    else
      var value: int := DigitsValue(digits);
      var v := if t[0] == '-' then -value else value;
      if InIntRange(v) then Success(v) else Failure(OutOfRange)
  }

  /** The decimal digits of n, most significant first, without leading zeros. */
  function NatToDigits(n: nat): (ds: string)
    ensures ds != [] && AllDigits(ds)
    ensures DigitsValue(ds) == n
    decreases n
  {
    if n < 10 then [DigitChar(n)]
    else
      var ds := NatToDigits(n / 10) + [DigitChar(n % 10)];
      assert ds[..|ds| - 1] == NatToDigits(n / 10);
      ds
  }

  /** std::to_string for an integer: a minus sign for negative values, then the digits. */
  function IntToString(n: int): (s: string)
    ensures s != []
  {
    if n < 0 then "-" + NatToDigits(-n) else NatToDigits(n)
  }

  /** A string of digits is one whole run of digits. */
  lemma {:induction false} DigitRunOfDigits(ds: string)
    requires AllDigits(ds)
    ensures DigitRunLength(ds) == |ds|
    decreases |ds|
  {
    if ds != [] {
      DigitRunOfDigits(ds[1..]);
    }
  }

  /** std::stoi reads back every int that std::to_string writes. */
  lemma StoiIntToString(n: int)
    requires InIntRange(n)
    ensures Stoi(IntToString(n)) == Success(n)
  {
    var s := IntToString(n);
    assert SpaceRunLength(s) == 0;
    assert s[0..] == s;
    if n < 0 {
      var ds := NatToDigits(-n);
      assert s[1..] == ds;
      DigitRunOfDigits(ds);
      assert ds[..|ds|] == ds;
    } else {
      var ds := NatToDigits(n);
      assert !(s[0] == '-' || s[0] == '+');
      DigitRunOfDigits(ds);
      assert ds[..|ds|] == ds;
    }
  }

  /** A written int is one word: a sign and digits, no white space. */
  lemma IntToStringIsWord(n: int)
    ensures IsWord(IntToString(n))
  {
    var s := IntToString(n);
    var ds := if n < 0 then NatToDigits(-n) else NatToDigits(n);
    forall i | 0 <= i < |s|
      ensures !IsSpace(s[i])
    {
      if n < 0 && i > 0 {
        assert s[i] == ds[i - 1];
      }
    }
  }

  /** Different ints are written as different strings. */
  lemma IntToStringInjective(a: int, b: int)
    requires InIntRange(a) && InIntRange(b)
    requires IntToString(a) == IntToString(b)
    ensures a == b
  {
    StoiIntToString(a);
    StoiIntToString(b);
  }
}
