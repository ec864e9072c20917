/** The brace escaping that get_webhook_template applies to the serialised template before it
    is embedded in a prompt whose own placeholders use single braces. */
module Prompt {

  predicate IsBrace(c: char)
  {
    c == '{' || c == '}'
  }

  /** s.replace(c, rep) for a one-character pattern. */
  function ReplaceChar(s: string, c: char, rep: string): string
  {
    if s == [] then [] else (if s[0] == c then rep else [s[0]]) + ReplaceChar(s[1..], c, rep)
  }

  /** template.replace("{", "{{").replace("}", "}}") */
  function EscapeBraces(s: string): string
  {
    ReplaceChar(ReplaceChar(s, '{', "{{"), '}', "}}")
  }

  /** Reference reading of the escaping, one character at a time: a brace is doubled,
      any other character is kept. */
  function DoubleBraces(s: string): string
  {
    if s == [] then [] else (if IsBrace(s[0]) then [s[0], s[0]] else [s[0]]) + DoubleBraces(s[1..])
  }

  /** The number of brace characters in s. */
  function CountBraces(s: string): nat
  {
    if s == [] then 0 else (if IsBrace(s[0]) then 1 else 0) + CountBraces(s[1..])
  }

  /** s with every brace removed. */
  function NonBraces(s: string): string
  {
    if s == [] then [] else (if IsBrace(s[0]) then [] else [s[0]]) + NonBraces(s[1..])
  }

  /** t.replace(cc, c) for the doubled character cc: scanning left to right, each
      non-overlapping pair of c becomes one c. */
  function CollapsePairs(t: string, c: char): string
  {
    if |t| >= 2 && t[0] == c && t[1] == c then [c] + CollapsePairs(t[2..], c)
    else if t == [] then []
    else [t[0]] + CollapsePairs(t[1..], c)
  }

  /** The inverse transform: t.replace("{{", "{").replace("}}", "}") */
  function UnescapeBraces(t: string): string
  {
    CollapsePairs(CollapsePairs(t, '{'), '}')
  }

  /** Every brace in t stands in a pair of two equal braces, pairs read from the left. */
  predicate Paired(t: string)
  {
    if t == [] then true
    else if IsBrace(t[0]) then |t| >= 2 && t[1] == t[0] && Paired(t[2..])
    else Paired(t[1..])
  }

  /** The length of the run of c at the start of t. */
  function RunLength(t: string, c: char): nat
  {
    if t != [] && t[0] == c then 1 + RunLength(t[1..], c) else 0
  }

  // ---------------------------------------------------------------------------

  lemma {:induction false} ReplaceCharAppend(a: string, b: string, c: char, rep: string)
    ensures ReplaceChar(a + b, c, rep) == ReplaceChar(a, c, rep) + ReplaceChar(b, c, rep)
  {
    if a != [] {
      assert (a + b)[1..] == a[1..] + b;
      ReplaceCharAppend(a[1..], b, c, rep);
    } else {
      assert a + b == b;
    }
  }

  /** The two chained replacements double each brace and keep everything else. */
  lemma {:induction false} EscapeIsDoubling(s: string)
    ensures EscapeBraces(s) == DoubleBraces(s)
  {
    if s != [] {
      var x := s[0];
      var head := if x == '{' then "{{" else [x];
      EscapeIsDoubling(s[1..]);
      assert ReplaceChar(s, '{', "{{") == head + ReplaceChar(s[1..], '{', "{{");
      ReplaceCharAppend(head, ReplaceChar(s[1..], '{', "{{"), '}', "}}");
      if x == '{' {
        assert ReplaceChar(head, '}', "}}") == "{{";
      } else if x == '}' {
        assert ReplaceChar(head, '}', "}}") == "}}";
      } else {
        assert ReplaceChar(head, '}', "}}") == [x];
      }
    }
  }

  /** Each brace adds exactly one character. */
  lemma {:induction false} EscapeBracesLength(s: string)
    ensures |EscapeBraces(s)| == |s| + CountBraces(s)
  {
    EscapeIsDoubling(s);
    DoubleBracesLength(s);
  }

  lemma {:induction false} DoubleBracesLength(s: string)
    ensures |DoubleBraces(s)| == |s| + CountBraces(s)
  {
    if s != [] {
      DoubleBracesLength(s[1..]);
    }
  }

  lemma {:induction false} NonBracesAppend(a: string, b: string)
    ensures NonBraces(a + b) == NonBraces(a) + NonBraces(b)
  {
    if a != [] {
      assert (a + b)[1..] == a[1..] + b;
      NonBracesAppend(a[1..], b);
    } else {
      assert a + b == b;
    }
  }

  /** No character other than a brace is added, dropped or moved. */
  lemma {:induction false} EscapeBracesKeepsOthers(s: string)
    ensures NonBraces(EscapeBraces(s)) == NonBraces(s)
  {
    EscapeIsDoubling(s);
    DoubleBracesKeepsOthers(s);
  }

  lemma {:induction false} DoubleBracesKeepsOthers(s: string)
    ensures NonBraces(DoubleBraces(s)) == NonBraces(s)
  {
    if s != [] {
      var head := if IsBrace(s[0]) then [s[0], s[0]] else [s[0]];
      NonBracesAppend(head, DoubleBraces(s[1..]));
      DoubleBracesKeepsOthers(s[1..]);
      assert NonBraces(head) == (if IsBrace(s[0]) then [] else [s[0]]);
    }
  }

  lemma {:induction false} CollapseOpenOfDoubled(s: string)
    ensures CollapsePairs(DoubleBraces(s), '{') == ReplaceChar(s, '}', "}}")
  {
    if s != [] {
      var x := s[0];
      var rest := DoubleBraces(s[1..]);
      CollapseOpenOfDoubled(s[1..]);
      if x == '{' {
        assert DoubleBraces(s) == ['{', '{'] + rest;
        assert (['{', '{'] + rest)[2..] == rest;
      } else if x == '}' {
        var t := ['}', '}'] + rest;
        assert DoubleBraces(s) == t;
        assert t[1..] == ['}'] + rest && (['}'] + rest)[1..] == rest;
        assert CollapsePairs(['}'] + rest, '{') == ['}'] + CollapsePairs(rest, '{');
      } else {
        assert DoubleBraces(s) == [x] + rest;
        assert ([x] + rest)[1..] == rest;
      }
    }
  }

  lemma {:induction false} CollapseOfReplaced(s: string, c: char)
    ensures CollapsePairs(ReplaceChar(s, c, [c, c]), c) == s
  {
    if s != [] {
      var rest := ReplaceChar(s[1..], c, [c, c]);
      CollapseOfReplaced(s[1..], c);
      if s[0] == c {
        assert ReplaceChar(s, c, [c, c]) == [c, c] + rest;
        assert ([c, c] + rest)[2..] == rest;
      } else {
        assert ReplaceChar(s, c, [c, c]) == [s[0]] + rest;
        assert ([s[0]] + rest)[1..] == rest;
      }
      assert [s[0]] + s[1..] == s;
    }
  }

  /** Collapsing the doubled braces recovers the input exactly. */
  lemma EscapeRoundTrip(s: string)
    ensures UnescapeBraces(EscapeBraces(s)) == s
  {
    EscapeIsDoubling(s);
    CollapseOpenOfDoubled(s);
    CollapseOfReplaced(s, '}');
  }

  /** Every escaped string is paired. */
  lemma {:induction false} EscapeBracesPaired(s: string)
    ensures Paired(EscapeBraces(s))
  {
    EscapeIsDoubling(s);
    DoubleBracesPaired(s);
  }

  lemma {:induction false} DoubleBracesPaired(s: string)
    ensures Paired(DoubleBraces(s))
  {
    if s != [] {
      DoubleBracesPaired(s[1..]);
      var rest := DoubleBraces(s[1..]);
      if IsBrace(s[0]) {
        assert ([s[0], s[0]] + rest)[2..] == rest;
      } else {
        assert ([s[0]] + rest)[1..] == rest;
      }
    }
  }

  /** Conversely, every paired string is the escaping of something: its unescaping. */
  lemma PairedIsEscaped(t: string)
    requires Paired(t)
    ensures EscapeBraces(UnescapeBraces(t)) == t
  {
    var u := Undouble(t);
    UndoubleDoubles(t);
    EscapeIsDoubling(u);
    EscapeRoundTrip(u);
  }

  /** Each pair of braces of a paired string, halved. */
  function Undouble(t: string): string
    requires Paired(t)
  {
    if t == [] then [] else if IsBrace(t[0]) then [t[0]] + Undouble(t[2..]) else [t[0]] + Undouble(t[1..])
  }

  lemma {:induction false} UndoubleDoubles(t: string)
    requires Paired(t)
    ensures DoubleBraces(Undouble(t)) == t
  {
    if t != [] {
      var k := if IsBrace(t[0]) then 2 else 1;
      UndoubleDoubles(t[k..]);
      assert Undouble(t) == [t[0]] + Undouble(t[k..]);
      assert ([t[0]] + Undouble(t[k..]))[1..] == Undouble(t[k..]);
      assert t == t[..k] + t[k..];
    }
  }

  /** A run of equal braces that starts a paired string has even length. */
  lemma {:induction false} PairedRunEven(t: string, c: char)
    requires Paired(t) && IsBrace(c)
    ensures RunLength(t, c) % 2 == 0
  {
    if t != [] && t[0] == c {
      assert t[1..][0] == c;
      assert t[1..][1..] == t[2..];
      PairedRunEven(t[2..], c);
    }
  }

  /** In a paired string, a brace run can start only where a pair starts. */
  lemma {:induction false} PairedRunStart(t: string, i: nat)
    requires Paired(t) && 0 < i < |t|
    requires IsBrace(t[i]) && t[i - 1] != t[i]
    ensures Paired(t[i..])
  {
    var k := if IsBrace(t[0]) then 2 else 1;
    if i > k {
      PairedRunStart(t[k..], i - k);
      assert t[k..][i - k..] == t[i..];
    } else if i == k {
      assert t[k..] == t[i..];
    }
  }

  /** Braces appear in the escaped text only in runs of even length. */
  lemma EscapeBracesEvenRuns(s: string, i: nat)
    requires i < |EscapeBraces(s)|
    requires IsBrace(EscapeBraces(s)[i])
    requires i == 0 || EscapeBraces(s)[i - 1] != EscapeBraces(s)[i]
    ensures RunLength(EscapeBraces(s)[i..], EscapeBraces(s)[i]) % 2 == 0
  {
    var t := EscapeBraces(s);
    EscapeBracesPaired(s);
    if i > 0 {
      PairedRunStart(t, i);
    }
    PairedRunEven(t[i..], t[i]);
  }
}
