/** The few pieces of Python's string handling the core relies on: str() of an integer,
    the "{:02d}" format, str.join, str.split("\n") and textwrap.dedent. */
module Strings {
  import opened Wrappers

  // ---------------------------------------------------------------------------
  // Decimal rendering

  function Digit(d: nat): (c: char)
    requires d < 10
  {
    (('0' as int) + d) as char
  }

  /** str(n) for a non-negative integer: its decimal digits, most significant first. */
  function Decimal(n: nat): (r: string)
    ensures |r| >= 1
    decreases n
  {
    if n < 10 then [Digit(n)] else Decimal(n / 10) + [Digit(n % 10)]
  }

  /** str(i) for any integer. */
  function IntToString(i: int): string
  {
    if i < 0 then "-" + Decimal(-i) else Decimal(i)
  }

  /** f"{n:02d}": the decimal digits, left-padded with '0' to at least two characters. */
  function ZeroPad2(n: nat): (r: string)
    ensures |r| >= 2
  {
    var d := Decimal(n);
    if |d| < 2 then "0" + d else d
  }

  lemma {:induction false} DecimalSingleDigit(n: nat)
    ensures |Decimal(n)| == 1 <==> n < 10
  {
    if n >= 10 {
      assert |Decimal(n)| == |Decimal(n / 10)| + 1;
    }
  }

  /** Only zero itself is written with a leading '0'. */
  lemma {:induction false} DecimalNoLeadingZero(n: nat)
    requires n >= 1
    ensures Decimal(n)[0] != '0'
    decreases n
  {
    if n >= 10 {
      DecimalNoLeadingZero(n / 10);
      assert Decimal(n)[0] == Decimal(n / 10)[0];
    }
  }

  /** Different numbers have different decimal renderings. */
  lemma {:induction false} DecimalInjective(a: nat, b: nat)
    requires Decimal(a) == Decimal(b)
    ensures a == b
    decreases a
  {
    DecimalSingleDigit(a);
    DecimalSingleDigit(b);
    if a >= 10 && b >= 10 {
      var da, db := Decimal(a), Decimal(b);
      assert da[|da| - 1] == Digit(a % 10) && db[|db| - 1] == Digit(b % 10);
      assert da[..|da| - 1] == Decimal(a / 10) && db[..|db| - 1] == Decimal(b / 10);
      DecimalInjective(a / 10, b / 10);
    }
  }

  /** Different numbers have different "{:02d}" renderings. */
  lemma ZeroPad2Injective(a: nat, b: nat)
    requires ZeroPad2(a) == ZeroPad2(b)
    ensures a == b
  {
    DecimalSingleDigit(a);
    DecimalSingleDigit(b);
    if a >= 1 { DecimalNoLeadingZero(a); }
    if b >= 1 { DecimalNoLeadingZero(b); }
    var da, db := Decimal(a), Decimal(b);
    if |da| < 2 && |db| < 2 {
      assert da == ZeroPad2(a)[1..] && db == ZeroPad2(b)[1..];
    }
    DecimalInjective(a, b);
  }

  // ---------------------------------------------------------------------------
  // str.join and str.split

  /** sep.join(parts) */
  function Join(sep: string, parts: seq<string>): string
  {
    if parts == [] then ""
    else if |parts| == 1 then parts[0]
    else parts[0] + sep + Join(sep, parts[1..])
  }

  /** text.split("\n"): the lines between newlines, always at least one. */
  function Lines(text: string): (r: seq<string>)
    ensures |r| >= 1
  {
    if text == [] then [[]]
    else
      var rest := Lines(text[1..]);
      if text[0] == '\n' then [[]] + rest else [[text[0]] + rest[0]] + rest[1..]
  }

  lemma {:induction false} LinesAfterLine(l: string, rest: string)
    requires '\n' !in l
    ensures Lines(l + rest) == [l + Lines(rest)[0]] + Lines(rest)[1..]
  {
    if l != [] {
      assert (l + rest)[1..] == l[1..] + rest;
      LinesAfterLine(l[1..], rest);
      var r := Lines(l[1..] + rest);
      assert (l + rest)[0] == l[0] && l[0] != '\n';
      assert Lines(l + rest) == [[l[0]] + r[0]] + r[1..];
      assert r[0] == l[1..] + Lines(rest)[0] && r[1..] == Lines(rest)[1..];
      assert [l[0]] + (l[1..] + Lines(rest)[0]) == l + Lines(rest)[0];
    } else {
      assert l + rest == rest && l + Lines(rest)[0] == Lines(rest)[0];
      assert [Lines(rest)[0]] + Lines(rest)[1..] == Lines(rest);
    }
  }

  /** Splitting lines that were joined by newlines gives the lines back. */
  lemma {:induction false} LinesOfJoin(ls: seq<string>)
    requires |ls| >= 1
    requires forall i :: 0 <= i < |ls| ==> '\n' !in ls[i]
    ensures Lines(Join("\n", ls)) == ls
  {
    if |ls| == 1 {
      LinesAfterLine(ls[0], "");
      assert ls[0] + "" == ls[0];
    } else {
      var tail := Join("\n", ls[1..]);
      LinesOfJoin(ls[1..]);
      assert Join("\n", ls) == ls[0] + ("\n" + tail);
      LinesAfterLine(ls[0], "\n" + tail);
      assert ("\n" + tail)[1..] == tail;
      assert Lines("\n" + tail) == [[]] + Lines(tail);
      assert ls[0] + [] == ls[0];
      assert [ls[0]] + ls[1..] == ls;
    }
  }

  // ---------------------------------------------------------------------------
  // textwrap.dedent

  predicate IsBlank(c: char)
  {
    c == ' ' || c == '\t'
  }

  predicate AllBlank(s: string)
  {
    forall i :: 0 <= i < |s| ==> IsBlank(s[i])
  }

  /** The leading spaces and tabs of a line. */
  function Indent(l: string): (r: string)
    ensures r <= l && AllBlank(r)
  {
    if l != [] && IsBlank(l[0]) then [l[0]] + Indent(l[1..]) else []
  }

  /** The longest common prefix of two strings. */
  function CommonPrefix(a: string, b: string): (r: string)
    ensures r <= a && r <= b
  {
    if a != [] && b != [] && a[0] == b[0] then [a[0]] + CommonPrefix(a[1..], b[1..]) else []
  }

  /** A line of spaces and tabs only is emptied. */
  function ClearBlank(l: string): string
  {
    if AllBlank(l) then [] else l
  }

  /** The margin dedent removes: folding left to right, the common prefix of the indents of
      all non-empty lines (Python narrows the margin with startswith tests and a character
      scan, which computes the same longest common prefix); None when every line is empty. */
  function MarginFrom(acc: Option<string>, ls: seq<string>): Option<string>
    decreases |ls|
  {
    if ls == [] then acc
    else
      var l := ls[0];
      var acc' := if l == [] then acc
                  else match acc
                    case None => Some(Indent(l))
                    case Some(m) => Some(CommonPrefix(m, Indent(l)));
      MarginFrom(acc', ls[1..])
  }

  /** A non-empty margin is cut from every line that starts with it. */
  function StripMargin(m: Option<string>, l: string): string
  {
    if m.Some? && m.value != [] && m.value <= l then l[|m.value|..] else l
  }

  /** textwrap.dedent(text) */
  function Dedent(text: string): string
  {
    var ls := Lines(text);
    var cleared := seq(|ls|, i requires 0 <= i < |ls| => ClearBlank(ls[i]));
    var m := MarginFrom(None, cleared);
    Join("\n", seq(|cleared|, i requires 0 <= i < |cleared| => StripMargin(m, cleared[i])))
  }

  lemma {:induction false} IndentKeepsBlankPrefix(p: string, l: string)
    requires AllBlank(p) && p <= l
    ensures p <= Indent(l)
  {
    if p != [] {
      IndentKeepsBlankPrefix(p[1..], l[1..]);
    }
  }

  /** A blank prefix followed by a non-blank character is the whole indent. */
  lemma {:induction false} IndentOfMargin(p: string, rest: string)
    requires AllBlank(p) && (rest == [] || !IsBlank(rest[0]))
    ensures Indent(p + rest) == p
  {
    if p != [] {
      assert (p + rest)[1..] == p[1..] + rest;
      IndentOfMargin(p[1..], rest);
    } else {
      assert p + rest == rest;
    }
  }

  lemma {:induction false} CommonPrefixKeeps(p: string, a: string, b: string)
    requires p <= a && p <= b
    ensures p <= CommonPrefix(a, b)
  {
    if p != [] {
      CommonPrefixKeeps(p[1..], a[1..], b[1..]);
    }
  }

  lemma {:induction false} CommonPrefixOfPrefix(p: string, b: string)
    requires p <= b
    ensures CommonPrefix(p, b) == p
  {
    if p != [] {
      CommonPrefixOfPrefix(p[1..], b[1..]);
    }
  }

  /** Every non-empty line is indented by at least p and one is indented by exactly p:
      the margin is p. */
  lemma {:induction false} MarginIs(acc: Option<string>, ls: seq<string>, p: string)
    requires forall i :: 0 <= i < |ls| && ls[i] != [] ==> p <= Indent(ls[i])
    requires acc.Some? ==> p <= acc.value
    requires acc == Some(p) || exists i :: 0 <= i < |ls| && ls[i] != [] && Indent(ls[i]) == p
    ensures MarginFrom(acc, ls) == Some(p)
    decreases |ls|
  {
    if ls != [] {
      var l := ls[0];
      var acc' := if l == [] then acc
                  else match acc
                    case None => Some(Indent(l))
                    case Some(m) => Some(CommonPrefix(m, Indent(l)));
      if l != [] && acc.Some? {
        CommonPrefixKeeps(p, acc.value, Indent(l));
        if acc.value == p {
          CommonPrefixOfPrefix(p, Indent(l));
        }
        if Indent(l) == p {
          var r := CommonPrefix(acc.value, p);
          assert r <= p && p <= r;
          assert |r| == |p|;
          assert r == p[..|r|] && p[..|p|] == p;
          assert acc' == Some(p);
        }
      }
      if acc' != Some(p) {
        var i :| 0 <= i < |ls| && ls[i] != [] && Indent(ls[i]) == p;
        assert i != 0;
        assert ls[1..][i - 1] == ls[i];
      }
      MarginIs(acc', ls[1..], p);
    }
  }

  /** dedent of newline-joined lines that share the blank prefix p, where some line is
      indented by exactly p: blank lines are emptied, p is cut from all others. */
  lemma DedentCommonIndent(ls: seq<string>, p: string, k: nat)
    requires |ls| >= 1 && p != [] && AllBlank(p)
    requires forall i :: 0 <= i < |ls| ==> '\n' !in ls[i]
    requires forall i :: 0 <= i < |ls| && !AllBlank(ls[i]) ==> p <= ls[i]
    requires k < |ls| && !AllBlank(ls[k]) && Indent(ls[k]) == p
    ensures Dedent(Join("\n", ls)) ==
            Join("\n", seq(|ls|, i requires 0 <= i < |ls| => if AllBlank(ls[i]) then [] else ls[i][|p|..]))
  {
    LinesOfJoin(ls);
    var cleared := seq(|ls|, i requires 0 <= i < |ls| => ClearBlank(ls[i]));
    forall i | 0 <= i < |cleared| && cleared[i] != []
      ensures p <= Indent(cleared[i])
    {
      IndentKeepsBlankPrefix(p, ls[i]);
    }
    assert cleared[k] != [] by {
      assert !AllBlank(cleared[k]);
    }
    MarginIs(None, cleared, p);
    var stripped := seq(|cleared|, i requires 0 <= i < |cleared| => StripMargin(Some(p), cleared[i]));
    var expected := seq(|ls|, i requires 0 <= i < |ls| => if AllBlank(ls[i]) then [] else ls[i][|p|..]);
    forall i | 0 <= i < |ls|
      ensures stripped[i] == expected[i]
    {
      if AllBlank(ls[i]) {
        assert cleared[i] == [];
        assert !(p <= []);
      }
    }
    assert stripped == expected;
  }
}
