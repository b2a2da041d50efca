/** String helpers shared by the templates: JavaScript's rendering of an
    integer, `s.replace(/\n/g, "<br>")`, `s.split("\n")` and the multi-line
    template literals the relay endpoints are written with. */
module Text {

  predicate NoNewline(s: string) {
    '\n' !in s
  }

  predicate IsDigit(c: char) {
    '0' <= c <= '9'
  }

  function Digit(d: nat): (c: char)
    requires d < 10
    ensures IsDigit(c)
  {
    "0123456789"[d]
  }

  function DigitValue(c: char): (d: nat)
    requires IsDigit(c)
    ensures d < 10
  {
    (c as int - '0' as int) as nat
  }

  /** Decimal rendering of a natural number, as `${n}` renders an integral Number. */
  function NatToString(n: nat): (s: string)
    ensures |s| >= 1
    ensures forall i :: 0 <= i < |s| ==> IsDigit(s[i])
    decreases n
  {
    if n < 10 then [Digit(n)] else NatToString(n / 10) + [Digit(n % 10)]
  }

  /** `${i}` for an integral Number: a minus sign before the digits of a negative value. */
  function IntToString(i: int): (s: string)
    ensures |s| >= 1
    ensures (i < 0) == (s[0] == '-')
  {
    if i < 0 then "-" + NatToString(-i) else NatToString(i)
  }

  /** Reads a string of decimal digits back as a number. */
  function ParseNat(s: string): nat
    requires forall i :: 0 <= i < |s| ==> IsDigit(s[i])
  {
    if |s| == 0 then 0 else ParseNat(s[..|s| - 1]) * 10 + DigitValue(s[|s| - 1])
  }

  lemma {:induction false} ParseNatToString(n: nat)
    ensures ParseNat(NatToString(n)) == n
    decreases n
  {
    if n >= 10 {
      var s := NatToString(n);
      assert s[..|s| - 1] == NatToString(n / 10);
      ParseNatToString(n / 10);
      assert DigitValue(s[|s| - 1]) == n % 10;
    } else {
      assert DigitValue(Digit(n)) == n;
    }
  }

  /** Distinct amounts render as distinct strings. */
  lemma NatToStringInjective(a: nat, b: nat)
    requires NatToString(a) == NatToString(b)
    ensures a == b
  {
    ParseNatToString(a);
    ParseNatToString(b);
  }

  function Count(s: string, c: char): nat {
    if s == [] then 0 else (if s[0] == c then 1 else 0) + Count(s[1..], c)
  }

  /** `s.replace(/\n/g, "<br>")`: every newline becomes `<br>`, every other
      character is kept as it is (nothing is escaped). */
  function ReplaceNewlines(s: string): string {
    if s == [] then []
    else (if s[0] == '\n' then "<br>" else [s[0]]) + ReplaceNewlines(s[1..])
  }

  lemma {:induction false} ReplaceNewlinesRemovesNewlines(s: string)
    ensures NoNewline(ReplaceNewlines(s))
  {
    if s != [] {
      ReplaceNewlinesRemovesNewlines(s[1..]);
    }
  }

  /** A text without newlines passes through unchanged, markup included. */
  lemma {:induction false} ReplaceNewlinesKeepsOtherText(s: string)
    requires NoNewline(s)
    ensures ReplaceNewlines(s) == s
  {
    if s != [] {
      assert NoNewline(s[1..]);
      ReplaceNewlinesKeepsOtherText(s[1..]);
    }
  }

  lemma {:induction false} ReplaceNewlinesAppend(a: string, b: string)
    ensures ReplaceNewlines(a + b) == ReplaceNewlines(a) + ReplaceNewlines(b)
  {
    if a != [] {
      assert (a + b)[1..] == a[1..] + b;
      ReplaceNewlinesAppend(a[1..], b);
    } else {
      assert a + b == b;
    }
  }

  /** Each newline grows the text by three characters: "\n" is one, "<br>" four. */
  lemma {:induction false} ReplaceNewlinesLength(s: string)
    ensures |ReplaceNewlines(s)| == |s| + 3 * Count(s, '\n')
  {
    if s != [] {
      ReplaceNewlinesLength(s[1..]);
    }
  }

  /** `lines.join("\n")`. */
  function Join(lines: seq<string>): string {
    if |lines| == 0 then ""
    else if |lines| == 1 then lines[0]
    else lines[0] + "\n" + Join(lines[1..])
  }

  /** `s.split("\n")`: never empty; a text without newlines is one line. */
  function SplitLines(s: string): (r: seq<string>)
    ensures |r| >= 1
  {
    if s == [] then [""]
    else if s[0] == '\n' then [""] + SplitLines(s[1..])
    else
      var rest := SplitLines(s[1..]);
      [[s[0]] + rest[0]] + rest[1..]
  }

  lemma {:induction false} SplitSingleLine(x: string)
    requires NoNewline(x)
    ensures SplitLines(x) == [x]
  {
    if x != [] {
      assert NoNewline(x[1..]);
      SplitSingleLine(x[1..]);
      assert [x[0]] + x[1..] == x;
    }
  }

  lemma {:induction false} SplitFirstLine(x: string, rest: string)
    requires NoNewline(x)
    ensures SplitLines(x + "\n" + rest) == [x] + SplitLines(rest)
  {
    if x == [] {
      assert x + "\n" + rest == "\n" + rest;
      assert ("\n" + rest)[1..] == rest;
    } else {
      var s := x + "\n" + rest;
      assert s[0] == x[0];
      assert s[1..] == x[1..] + "\n" + rest;
      assert NoNewline(x[1..]);
      SplitFirstLine(x[1..], rest);
      assert [x[0]] + x[1..] == x;
    }
  }

  /** Splitting a joined list of newline-free lines gives back the lines. */
  lemma {:induction false} SplitJoin(lines: seq<string>)
    requires |lines| >= 1
    requires forall i :: 0 <= i < |lines| ==> NoNewline(lines[i])
    ensures SplitLines(Join(lines)) == lines
  {
    if |lines| == 1 {
      SplitSingleLine(lines[0]);
    } else {
      SplitFirstLine(lines[0], Join(lines[1..]));
      SplitJoin(lines[1..]);
    }
  }

  /** Joining the lines of a text gives back the text. */
  lemma {:induction false} JoinSplit(s: string)
    ensures Join(SplitLines(s)) == s
  {
    if s != [] {
      JoinSplit(s[1..]);
      var rest := SplitLines(s[1..]);
      if s[0] == '\n' {
        assert Join([""] + rest) == "" + "\n" + Join(rest);
      } else if |rest| == 1 {
        assert Join([[s[0]] + rest[0]] + rest[1..]) == [s[0]] + rest[0];
      } else {
        assert rest == [rest[0]] + rest[1..];
        assert Join(rest) == rest[0] + "\n" + Join(rest[1..]);
        var r := [[s[0]] + rest[0]] + rest[1..];
        assert r[1..] == rest[1..];
        assert Join(r) == ([s[0]] + rest[0]) + "\n" + Join(rest[1..]);
        assert s == [s[0]] + s[1..];
      }
    }
  }

  function Indented(indent: string, lines: seq<string>): (r: seq<string>)
    ensures |r| == |lines|
    ensures forall i :: 0 <= i < |lines| ==> r[i] == indent + lines[i]
  {
    if lines == [] then [] else [indent + lines[0]] + Indented(indent, lines[1..])
  }

  /** A multi-line template literal as the endpoints write them: it opens with
      a line break, every body line carries the source's indentation, and the
      text ends with the indentation of the closing backtick. */
  function Template(indent: string, lines: seq<string>, closing: string): string {
    Join([""] + Indented(indent, lines) + [closing])
  }

  /** Line k + 1 of a template (after the opening break) is body line k. */
  lemma {:induction false} TemplateLines(indent: string, lines: seq<string>, closing: string)
    requires NoNewline(indent) && NoNewline(closing)
    requires forall i :: 0 <= i < |lines| ==> NoNewline(lines[i])
    ensures SplitLines(Template(indent, lines, closing)) == [""] + Indented(indent, lines) + [closing]
  {
    var all := [""] + Indented(indent, lines) + [closing];
    forall i | 0 <= i < |all| ensures NoNewline(all[i]) {
      if 1 <= i <= |lines| {
        assert all[i] == indent + lines[i - 1];
      }
    }
    SplitJoin(all);
  }
}
