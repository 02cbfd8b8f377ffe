/**
 * String helpers shared by the model: JavaScript's `trim()` truthiness test,
 * `startsWith`, `split('\n')` and its inverse `join('\n')`, `String(n)` for a
 * natural number, and `toUpperCase()` over the characters the model needs.
 */
module Text {

  /** A code point that ECMAScript's `String.prototype.trim` removes: WhiteSpace or LineTerminator. */
  predicate IsSpace(c: char) {
    c == '\t' || c == '\n' || c == '\U{000B}' || c == '\U{000C}' || c == '\r' || c == ' '
    || c == '\U{00A0}' || c == '\U{1680}' || ('\U{2000}' <= c <= '\U{200A}')
    || c == '\U{2028}' || c == '\U{2029}' || c == '\U{202F}' || c == '\U{205F}'
    || c == '\U{3000}' || c == '\U{FEFF}'
  }

  /** `s.trim()` is the empty string, i.e. falsy. */
  predicate IsBlank(s: string) {
    forall i | 0 <= i < |s| :: IsSpace(s[i])
  }

  predicate StartsWith(s: string, prefix: string) {
    |prefix| <= |s| && s[..|prefix|] == prefix
  }

  function Last<T>(s: seq<T>): T
    requires |s| > 0
  {
    s[|s| - 1]
  }

  function Init<T>(s: seq<T>): seq<T>
    requires |s| > 0
  {
    s[..|s| - 1]
  }

  /** `s.split('\n')`: the pieces between newlines; there is always at least one. */
  function Split(s: string): (r: seq<string>)
    ensures |r| >= 1
  {
    if s == [] then [""]
    else if s[0] == '\n' then [""] + Split(s[1..])
    else
      var rest := Split(s[1..]);
      [[s[0]] + rest[0]] + rest[1..]
  }

  /** No piece of a split contains a newline. */
  lemma {:induction false} SplitPieces(s: string)
    ensures forall i | 0 <= i < |Split(s)| :: '\n' !in Split(s)[i]
  {
    if s != [] {
      SplitPieces(s[1..]);
    }
  }

  /** `parts.join('\n')`. */
  function Join(parts: seq<string>): string {
    if |parts| == 0 then ""
    else if |parts| == 1 then parts[0]
    else parts[0] + "\n" + Join(parts[1..])
  }

  /** Joining the pieces of a split gives the text back. */
  lemma {:induction false} JoinSplit(s: string)
    ensures Join(Split(s)) == s
  {
    if s == [] {
    } else if s[0] == '\n' {
      JoinSplit(s[1..]);
      assert s == "\n" + s[1..];
    } else {
      var rest := Split(s[1..]);
      JoinSplit(s[1..]);
      if |rest| == 1 {
        assert s == [s[0]] + rest[0];
      } else {
        assert rest == [rest[0]] + rest[1..];
        assert Join(rest) == rest[0] + "\n" + Join(rest[1..]);
        assert s == [s[0]] + s[1..];
      }
    }
  }

  lemma SplitPrependChar(c: char, s: string)
    requires c != '\n'
    ensures Split([c] + s) == [[c] + Split(s)[0]] + Split(s)[1..]
  {
    assert ([c] + s)[1..] == s;
  }

  lemma SplitPrependNewline(s: string)
    ensures Split("\n" + s) == [""] + Split(s)
  {
    assert ("\n" + s)[1..] == s;
  }

  /** Splitting a join of newline-free pieces gives the pieces back. */
  lemma {:induction false} SplitJoin(parts: seq<string>)
    requires |parts| >= 1
    requires forall i | 0 <= i < |parts| :: '\n' !in parts[i]
    ensures Split(Join(parts)) == parts
  {
    if |parts| == 1 {
      SplitNoNewline(parts[0]);
    } else {
      SplitJoin(parts[1..]);
      var tail := "\n" + Join(parts[1..]);
      SplitPrependNewline(Join(parts[1..]));
      SplitPrefixLine(parts[0], tail);
      assert Join(parts) == parts[0] + tail;
      assert Split(tail) == [""] + parts[1..];
      assert parts[0] + "" == parts[0];
      assert parts == [parts[0]] + parts[1..];
    }
  }

  /** A newline-free prefix glues onto the first piece of what follows it. */
  lemma {:induction false} SplitPrefixLine(p: string, s: string)
    requires '\n' !in p
    ensures Split(p + s) == [p + Split(s)[0]] + Split(s)[1..]
  {
    var r := Split(s);
    if p == [] {
      assert p + s == s;
      assert r == [r[0]] + r[1..];
      assert p + r[0] == r[0];
    } else {
      SplitPrefixLine(p[1..], s);
      assert p + s == [p[0]] + (p[1..] + s);
      SplitPrependChar(p[0], p[1..] + s);
      assert [p[0]] + (p[1..] + r[0]) == p + r[0];
    }
  }

  lemma SplitNoNewline(s: string)
    requires '\n' !in s
    ensures Split(s) == [s]
  {
    SplitPrefixLine(s, "");
    assert s + "" == s;
  }

  /**
   * The heart of incremental line splitting: splitting `x + y` gives the
   * complete pieces of `x`, then the split of `x`'s unfinished last piece
   * followed by `y`.
   */
  lemma {:induction false} SplitAppend(x: string, y: string)
    ensures Split(x + y) == Init(Split(x)) + Split(Last(Split(x)) + y)
  {
    if x == [] {
      assert x + y == y;
    } else {
      var c, t := x[0], x[1..];
      SplitAppend(t, y);
      assert x == [c] + t;
      if c == '\n' {
        SplitNewlineCase(c, t, y);
      } else {
        SplitCharCase(c, t, y);
      }
    }
  }

  /** The step of `SplitAppend` for a text that starts with a newline. */
  lemma SplitNewlineCase(c: char, t: string, y: string)
    requires c == '\n'
    requires Split(t + y) == Init(Split(t)) + Split(Last(Split(t)) + y)
    ensures Split([c] + t + y) == Init(Split([c] + t)) + Split(Last(Split([c] + t)) + y)
  {
    var r, q := Split(t), Split(t + y);
    var z := Split(Last(r) + y);
    var head: seq<string> := [""];
    ConcatAssoc([c], t, y);
    assert ([c] + t)[1..] == t;
    assert ([c] + (t + y))[1..] == t + y;
    assert Split([c] + t) == head + r;
    assert Split([c] + (t + y)) == head + q;
    assert Init(head + r) == head + Init(r);
    assert Last(head + r) == Last(r);
    ConcatAssoc(head, Init(r), z);
  }

  lemma ConcatAssoc<T>(a: seq<T>, b: seq<T>, c: seq<T>)
    ensures a + (b + c) == (a + b) + c
  {
  }

  /** The step of `SplitAppend` for a text that starts with any other character. */
  lemma SplitCharCase(c: char, t: string, y: string)
    requires c != '\n'
    requires Split(t + y) == Init(Split(t)) + Split(Last(Split(t)) + y)
    ensures Split([c] + t + y) == Init(Split([c] + t)) + Split(Last(Split([c] + t)) + y)
  {
    var r, q := Split(t), Split(t + y);
    var z := Split(Last(r) + y);
    ConcatAssoc([c], t, y);
    SplitPrependChar(c, t + y);
    SplitPrependChar(c, t);
    var first: seq<string> := [[c] + r[0]];
    if |r| == 1 {
      assert Init(first + r[1..]) == [];
      assert Last(first + r[1..]) == [c] + r[0];
      assert q == Split(r[0] + y);
      ConcatAssoc([c], r[0], y);
      SplitPrependChar(c, r[0] + y);
    } else {
      assert q[0] == r[0];
      assert q[1..] == Init(r)[1..] + z;
      assert Init(first + r[1..]) == first + Init(r)[1..];
      assert Last(first + r[1..]) == Last(r);
      ConcatAssoc(first, Init(r)[1..], z);
    }
  }

  predicate IsDigit(c: char) {
    '0' <= c <= '9'
  }

  function DigitChar(d: nat): (c: char)
    requires d < 10
    ensures IsDigit(c)
  {
    "0123456789"[d]
  }

  function DigitValue(c: char): (d: nat)
    requires IsDigit(c)
    ensures d < 10
  {
    c as int - '0' as int
  }

  /** `String(n)` for a natural number: its decimal digits, without leading zeros. */
  function Decimal(n: nat): (r: string)
    ensures |r| >= 1
    ensures forall i | 0 <= i < |r| :: IsDigit(r[i])
  {
    if n < 10 then [DigitChar(n)] else Decimal(n / 10) + [DigitChar(n % 10)]
  }

  /** The number a string of decimal digits denotes. */
  function ParseDecimal(s: string): nat
    requires forall i | 0 <= i < |s| :: IsDigit(s[i])
  {
    if s == [] then 0 else ParseDecimal(s[..|s| - 1]) * 10 + DigitValue(s[|s| - 1])
  }

  lemma {:induction false} DecimalRoundTrip(n: nat)
    ensures ParseDecimal(Decimal(n)) == n
  {
    var s := Decimal(n);
    if n < 10 {
      assert s[..0] == [];
    } else {
      DecimalRoundTrip(n / 10);
      assert s[..|s| - 1] == Decimal(n / 10);
    }
  }

  /**
   * `c.toUpperCase()` for ASCII and Latin-1 letters, and for the two other
   * lower-case letters whose upper case is ASCII (`ı` and `ſ`); `ß` becomes
   * "SS". Every other character is returned unchanged.
   */
  function UpperChar(c: char): (r: string)
    ensures |r| >= 1
  {
    if 'a' <= c <= 'z' || ('\U{00E0}' <= c <= '\U{00FE}' && c != '\U{00F7}') then [(c as int - 32) as char]
    else if c == '\U{00DF}' then "SS"
    else if c == '\U{00FF}' then "\U{0178}"
    else if c == '\U{00B5}' then "\U{039C}"
    else if c == '\U{0131}' then "I"
    else if c == '\U{017F}' then "S"
    else [c]
  }

  /** `s.toUpperCase()`, character by character. */
  function Upper(s: string): string {
    if s == [] then "" else UpperChar(s[0]) + Upper(s[1..])
  }

  /** The first code unit of `s`, upper-cased (`s.substring(0, 1).toUpperCase()`). */
  function UpperFirst(s: string): string
    requires |s| > 0
  {
    UpperChar(s[0])
  }
}
