/** Character classes and the few string operations of Python and JavaScript
    that the document editor relies on: `str.strip`, `String.prototype.trim`,
    `str.startswith`, `str.split('\n')` and `'\n'.join`. */
module Text {

  /** Characters for which Python's `str.isspace()` holds; the same set is what
      `\s` matches in a `str` regular expression and what `str.strip()` removes. */
  predicate IsPySpace(c: char) {
    || ('\t' <= c <= '\r')
    || ('\U{1C}' <= c <= '\U{1F}')
    || c == ' ' || c == '\U{85}' || c == '\U{A0}' || c == '\U{1680}'
    || ('\U{2000}' <= c <= '\U{200A}')
    || c == '\U{2028}' || c == '\U{2029}' || c == '\U{202F}' || c == '\U{205F}' || c == '\U{3000}'
  }

  /** Characters removed by JavaScript's `String.prototype.trim`: the white space
      and line terminator code points of ECMAScript. */
  predicate IsJsSpace(c: char) {
    || ('\t' <= c <= '\r')
    || c == ' ' || c == '\U{A0}' || c == '\U{1680}'
    || ('\U{2000}' <= c <= '\U{200A}')
    || c == '\U{2028}' || c == '\U{2029}' || c == '\U{202F}' || c == '\U{205F}' || c == '\U{3000}'
    || c == '\U{FEFF}'
  }

  /** Removes the leading run of characters satisfying `ws`. */
  function TrimStart(s: string, ws: char -> bool): string {
    if |s| > 0 && ws(s[0]) then TrimStart(s[1..], ws) else s
  }

  /** Removes the trailing run of characters satisfying `ws`. */
  function TrimEnd(s: string, ws: char -> bool): string {
    if |s| > 0 && ws(s[|s| - 1]) then TrimEnd(s[..|s| - 1], ws) else s
  }

  /** Neither end of `s` is a character of the class `ws`. */
  predicate IsTrimmed(s: string, ws: char -> bool) {
    s == [] || (!ws(s[0]) && !ws(s[|s| - 1]))
  }

  /** Both-ends trimming, as Python's `str.strip()` and JavaScript's `trim()`. */
  function Trim(s: string, ws: char -> bool): string {
    TrimEnd(TrimStart(s, ws), ws)
  }

  /** Python's `str.strip()` with no argument. */
  function Strip(s: string): string {
    Trim(s, IsPySpace)
  }

  /** `TrimStart` removes a prefix made of `ws` characters and stops at the first
      character outside `ws`. */
  lemma {:induction false} TrimStartFacts(s: string, ws: char -> bool)
    ensures var r := TrimStart(s, ws);
      && |r| <= |s| && r == s[|s| - |r|..]
      && (forall i :: 0 <= i < |s| - |r| ==> ws(s[i]))
      && (r != [] ==> !ws(r[0]))
  {
    if |s| > 0 && ws(s[0]) {
      TrimStartFacts(s[1..], ws);
      var r := TrimStart(s, ws);
      forall i | 0 <= i < |s| - |r| ensures ws(s[i]) {
        if i > 0 { assert s[i] == s[1..][i - 1]; }
      }
    }
  }

  /** `TrimEnd` removes a suffix made of `ws` characters and stops at the last
      character outside `ws`. */
  lemma {:induction false} TrimEndFacts(s: string, ws: char -> bool)
    ensures var r := TrimEnd(s, ws);
      && |r| <= |s| && r == s[..|r|]
      && (forall i :: |r| <= i < |s| ==> ws(s[i]))
      && (r != [] ==> !ws(r[|r| - 1]))
  {
    if |s| > 0 && ws(s[|s| - 1]) {
      TrimEndFacts(s[..|s| - 1], ws);
      var r := TrimEnd(s, ws);
      forall i | |r| <= i < |s| ensures ws(s[i]) {
        if i < |s| - 1 { assert s[i] == s[..|s| - 1][i]; }
      }
    }
  }

  /** The trimmed string is trimmed, it is empty exactly when `s` is all
      white space, and an already trimmed string is left alone. */
  lemma TrimFacts(s: string, ws: char -> bool)
    ensures IsTrimmed(Trim(s, ws), ws)
    ensures Trim(s, ws) == [] <==> forall i :: 0 <= i < |s| ==> ws(s[i])
    ensures IsTrimmed(s, ws) ==> Trim(s, ws) == s
    ensures |Trim(s, ws)| <= |s|
  {
    var t := TrimStart(s, ws);
    TrimStartFacts(s, ws);
    TrimEndFacts(t, ws);
    var r := TrimEnd(t, ws);
    if r != [] {
      assert r[0] == t[0];
    }
    if IsTrimmed(s, ws) && s != [] {
      assert t == s;
    }
  }

  /** `Strip` leaves a trimmed string, which is empty exactly when `s` is all
      white space. */
  lemma StripFacts(s: string)
    ensures IsTrimmed(Strip(s), IsPySpace)
    ensures Strip(s) == [] <==> forall i :: 0 <= i < |s| ==> IsPySpace(s[i])
  {
    TrimFacts(s, IsPySpace);
  }

  /** Python's `s.startswith(prefix)`. */
  predicate StartsWith(s: string, prefix: string) {
    |prefix| <= |s| && s[..|prefix|] == prefix
  }

  /** Python's `s.split('\n')`: always at least one piece, none holding a newline. */
  function Split(s: string): (r: seq<string>)
    ensures |r| >= 1
    ensures forall k :: 0 <= k < |r| ==> '\n' !in r[k]
  {
    if |s| == 0 then [""]
    else if s[0] == '\n' then [""] + Split(s[1..])
    else
      var rest := Split(s[1..]);
      [[s[0]] + rest[0]] + rest[1..]
  }

  /** Python's `'\n'.join(lines)`. */
  function Join(lines: seq<string>): string {
    if |lines| == 0 then ""
    else if |lines| == 1 then lines[0]
    else lines[0] + "\n" + Join(lines[1..])
  }

  /** No piece of `lines` holds a newline. */
  predicate NoNewlines(lines: seq<string>) {
    forall k :: 0 <= k < |lines| ==> '\n' !in lines[k]
  }

  /** Joining the pieces of a split gives the text back. */
  lemma {:induction false} JoinSplit(s: string)
    ensures Join(Split(s)) == s
  {
    if |s| == 0 {
    } else if s[0] == '\n' {
      JoinSplit(s[1..]);
      assert s == "\n" + s[1..];
    } else {
      var rest := Split(s[1..]);
      JoinSplit(s[1..]);
      if |rest| == 1 {
        assert s == [s[0]] + s[1..];
      } else {
        assert Join(rest) == rest[0] + "\n" + Join(rest[1..]);
        assert s == [s[0]] + s[1..];
        assert [[s[0]] + rest[0]] + rest[1..] == [[s[0]] + rest[0]] + rest[1..];
        assert ([[s[0]] + rest[0]] + rest[1..])[1..] == rest[1..];
      }
    }
  }

  lemma {:induction false} SplitSingle(a: string)
    requires '\n' !in a
    ensures Split(a) == [a]
  {
    if |a| > 0 {
      assert '\n' !in a[1..] by {
        forall i | 0 <= i < |a[1..]| ensures a[1..][i] != '\n' { assert a[1..][i] == a[i + 1]; }
      }
      SplitSingle(a[1..]);
      assert [a[0]] + a[1..] == a;
    }
  }

  lemma {:induction false} SplitLine(a: string, rest: string)
    requires '\n' !in a
    ensures Split(a + "\n" + rest) == [a] + Split(rest)
  {
    if |a| == 0 {
      assert a + "\n" + rest == "\n" + rest;
      assert ("\n" + rest)[1..] == rest;
    } else {
      var s := a + "\n" + rest;
      assert s[0] == a[0];
      assert s[1..] == a[1..] + "\n" + rest;
      assert '\n' !in a[1..] by {
        forall i | 0 <= i < |a[1..]| ensures a[1..][i] != '\n' { assert a[1..][i] == a[i + 1]; }
      }
      SplitLine(a[1..], rest);
      assert [a[0]] + a[1..] == a;
    }
  }

  /** How `Split` treats the first character. */
  lemma SplitCons(c: char, r: string)
    ensures c == '\n' ==> Split([c] + r) == [""] + Split(r)
    ensures c != '\n' ==> Split([c] + r) == [[c] + Split(r)[0]] + Split(r)[1..]
  {
    assert ([c] + r)[0] == c && ([c] + r)[1..] == r;
  }

  /** The step of `SplitConcat` for a first character that is a newline. */
  lemma SplitConcatNewline(tail: string, b: string)
    requires Split(tail + "\n" + b) == Split(tail) + Split(b)
    ensures Split(['\n'] + tail + "\n" + b) == Split(['\n'] + tail) + Split(b)
  {
    assert ['\n'] + tail + "\n" + b == ['\n'] + (tail + "\n" + b);
    SplitCons('\n', tail + "\n" + b);
    SplitCons('\n', tail);
    PrependAssoc("", Split(tail), Split(b));
  }

  lemma PrependAssoc<T>(x: T, r: seq<T>, m: seq<T>)
    ensures [x] + (r + m) == ([x] + r) + m
  {
  }

  /** The step of `SplitConcat` for a first character other than a newline. */
  lemma SplitConcatChar(c: char, tail: string, b: string)
    requires c != '\n'
    requires Split(tail + "\n" + b) == Split(tail) + Split(b)
    ensures Split([c] + tail + "\n" + b) == Split([c] + tail) + Split(b)
  {
    assert [c] + tail + "\n" + b == [c] + (tail + "\n" + b);
    SplitCons(c, tail + "\n" + b);
    SplitCons(c, tail);
    ConsFirstPiece(c, Split(tail), Split(b));
  }

  /** Extending the first piece of `r + m` extends the first piece of `r`. */
  lemma ConsFirstPiece(c: char, r: seq<string>, m: seq<string>)
    requires |r| >= 1
    ensures [[c] + (r + m)[0]] + (r + m)[1..] == ([[c] + r[0]] + r[1..]) + m
  {
    assert (r + m)[0] == r[0];
    assert (r + m)[1..] == r[1..] + m;
  }

  /** Splitting at one newline splits both sides independently. */
  lemma {:induction false} SplitConcat(a: string, b: string)
    ensures Split(a + "\n" + b) == Split(a) + Split(b)
    decreases |a|
  {
    if |a| == 0 {
      assert a + "\n" + b == ['\n'] + b;
      SplitCons('\n', b);
    } else {
      var c, tail := a[0], a[1..];
      assert a == [c] + tail;
      SplitConcat(tail, b);
      if c == '\n' {
        SplitConcatNewline(tail, b);
      } else {
        SplitConcatChar(c, tail, b);
      }
    }
  }

  /** Splitting a join of newline-free lines gives the lines back. */
  lemma {:induction false} SplitJoin(lines: seq<string>)
    requires |lines| >= 1 && NoNewlines(lines)
    ensures Split(Join(lines)) == lines
  {
    if |lines| == 1 {
      SplitSingle(lines[0]);
    } else {
      SplitJoin(lines[1..]);
      SplitLine(lines[0], Join(lines[1..]));
      assert lines == [lines[0]] + lines[1..];
    }
  }

  /** A non-empty sequence is its front followed by its last element. */
  lemma DropLast<T>(s: seq<T>)
    requires s != []
    ensures s[..|s| - 1] + [s[|s| - 1]] == s
  {
  }

  /** Decimal digits of a natural number, as Python's `str(n)`. */
  function NatToString(n: nat): (r: string)
    ensures |r| >= 1
    ensures forall i :: 0 <= i < |r| ==> '0' <= r[i] <= '9'
    decreases n
  {
    var d := [((n % 10) + 48) as char];
    if n < 10 then d else NatToString(n / 10) + d
  }

  /** The number a string of decimal digits denotes. */
  function DigitsValue(s: string): nat {
    if s == [] then 0
    else
      var c := s[|s| - 1];
      DigitsValue(s[..|s| - 1]) * 10 + (if '0' <= c <= '9' then c as int - 48 else 0)
  }

  /** `NatToString(n)` is the decimal numeral of `n`: it denotes `n`, and it
      starts with `0` only when `n` is zero. */
  lemma {:induction false} NatToStringValue(n: nat)
    ensures DigitsValue(NatToString(n)) == n
    ensures NatToString(n)[0] == '0' <==> n == 0
    decreases n
  {
    var d := [((n % 10) + 48) as char];
    if n >= 10 {
      NatToStringValue(n / 10);
      var a := NatToString(n / 10);
      assert (a + d)[..|a + d| - 1] == a;
      assert (a + d)[0] == a[0];
    }
  }

  /** Python's `str(i)` for an `int`: a minus sign before the digits of `-i`. */
  function IntToString(i: int): (r: string)
    ensures |r| >= 1 && (r[0] == '-' <==> i < 0)
    ensures forall k :: 0 < k < |r| ==> '0' <= r[k] <= '9'
  {
    if i < 0 then "-" + NatToString(-i) else NatToString(i)
  }

  /** `IntToString(i)` is a minus sign exactly for a negative `i`, followed by
      the decimal numeral of its magnitude. */
  lemma IntToStringValue(i: int)
    ensures i < 0 ==> IntToString(i) == "-" + NatToString(-i) && DigitsValue(IntToString(i)[1..]) == -i
    ensures i >= 0 ==> DigitsValue(IntToString(i)) == i
  {
    if i < 0 {
      NatToStringValue(-i);
      assert IntToString(i)[1..] == NatToString(-i);
    } else {
      NatToStringValue(i);
    }
  }
}
