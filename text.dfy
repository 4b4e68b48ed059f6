/**
 * The string operations the components and handlers rely on:
 * `toLowerCase`, `includes`, `trim`, `replace` with a one-character pattern,
 * `join('\n')`, and the decimal rendering of a non-negative integer in a
 * template string. Strings are sequences of characters.
 */
module Text {

  // ---------------------------------------------------------------------------
  // Lower-casing (ASCII letters only)
  // ---------------------------------------------------------------------------

  function LowerChar(c: char): char
  {
    if 'A' <= c <= 'Z' then (c as int + 32) as char else c
  }

  /** `s.toLowerCase()`, restricted to the ASCII letters. */
  function ToLower(s: string): string
  {
    seq(|s|, i requires 0 <= i < |s| => LowerChar(s[i]))
  }

  /** Lower-casing twice is lower-casing once. */
  lemma ToLowerIdempotent(s: string)
    ensures ToLower(ToLower(s)) == ToLower(s)
  {
  }

  // ---------------------------------------------------------------------------
  // Substring search: `s.includes(sub)`
  // ---------------------------------------------------------------------------

  predicate StartsWith(s: string, prefix: string)
  {
    |prefix| <= |s| && s[..|prefix|] == prefix
  }

  /** `s.includes(sub)`: some suffix of `s` starts with `sub`. */
  predicate Contains(s: string, sub: string)
    decreases |s|
  {
    StartsWith(s, sub) || (|s| > 0 && Contains(s[1..], sub))
  }

  /** `sub` occurs in `s` at position `i`. */
  ghost predicate OccursAt(s: string, sub: string, i: int)
  {
    0 <= i && i + |sub| <= |s| && s[i..i + |sub|] == sub
  }

  /** `Contains` finds exactly the substrings that occur at some position. */
  lemma {:induction false} ContainsIff(s: string, sub: string)
    ensures Contains(s, sub) <==> exists i :: OccursAt(s, sub, i)
    decreases |s|
  {
    if StartsWith(s, sub) {
      assert OccursAt(s, sub, 0);
    } else if |s| == 0 {
      assert !exists i :: OccursAt(s, sub, i);
    } else {
      ContainsIff(s[1..], sub);
      if Contains(s[1..], sub) {
        var i :| OccursAt(s[1..], sub, i);
        assert s[i + 1..i + 1 + |sub|] == s[1..][i..i + |sub|];
        assert OccursAt(s, sub, i + 1);
      }
      if exists i :: OccursAt(s, sub, i) {
        var i :| OccursAt(s, sub, i);
        assert i != 0;
        assert s[1..][i - 1..i - 1 + |sub|] == s[i..i + |sub|];
        assert OccursAt(s[1..], sub, i - 1);
      }
    }
  }

  /** Nothing longer than a string occurs in it. */
  lemma {:induction false} ContainsNoLonger(s: string, sub: string)
    ensures Contains(s, sub) ==> |sub| <= |s|
    decreases |s|
  {
    if |s| > 0 {
      ContainsNoLonger(s[1..], sub);
    }
  }

  /** Every string includes the empty string. */
  lemma ContainsEmpty(s: string)
    ensures Contains(s, "")
  {
    assert StartsWith(s, "");
  }

  /** A string includes each of its infixes. */
  lemma ContainsInfix(a: string, b: string, c: string)
    ensures Contains(a + b + c, b)
  {
    var s := a + b + c;
    assert s[|a|..|a| + |b|] == b;
    assert OccursAt(s, b, |a|);
    ContainsIff(s, b);
  }

  /** Whatever a string includes, any string around it includes too. */
  lemma ContainsWithin(a: string, s: string, b: string, sub: string)
    requires Contains(s, sub)
    ensures Contains(a + s + b, sub)
  {
    ContainsIff(s, sub);
    var i :| OccursAt(s, sub, i);
    var t := a + s + b;
    assert t[|a| + i..|a| + i + |sub|] == s[i..i + |sub|];
    assert OccursAt(t, sub, |a| + i);
    ContainsIff(t, sub);
  }

  /** What a string's infix includes, the string includes too. */
  lemma ContainsTransitive(s: string, mid: string, sub: string)
    requires Contains(s, mid) && Contains(mid, sub)
    ensures Contains(s, sub)
  {
    ContainsIff(s, mid);
    var i :| OccursAt(s, mid, i);
    assert s == s[..i] + mid + s[i + |mid|..];
    ContainsWithin(s[..i], mid, s[i + |mid|..], sub);
  }

  /** Lower-casing distributes over concatenation. */
  lemma ToLowerConcat(a: string, b: string)
    ensures ToLower(a + b) == ToLower(a) + ToLower(b)
  {
  }

  /** A word is found in the lower-cased text when one of the text's pieces lower-cases to it. */
  lemma ContainsLowered(a: string, b: string, c: string, word: string)
    requires ToLower(b) == word
    ensures Contains(ToLower(a + b + c), word)
  {
    ToLowerConcat(a + b, c);
    ToLowerConcat(a, b);
    ContainsInfix(ToLower(a), word, ToLower(c));
  }

  // ---------------------------------------------------------------------------
  // Template literals: literal text and substitutions, joined in order
  // ---------------------------------------------------------------------------

  /** A template literal's value: its pieces, joined left to right. */
  function Concat(pieces: seq<string>): string
    decreases |pieces|
  {
    if |pieces| == 0 then "" else Concat(pieces[..|pieces| - 1]) + pieces[|pieces| - 1]
  }

  /** A template's value includes each of its pieces. */
  lemma {:induction false} ConcatHasPiece(pieces: seq<string>, i: int)
    requires 0 <= i < |pieces|
    ensures Contains(Concat(pieces), pieces[i])
    decreases |pieces|
  {
    var init := pieces[..|pieces| - 1];
    var last := pieces[|pieces| - 1];
    if i == |pieces| - 1 {
      assert Concat(pieces) == Concat(init) + last + "";
      ContainsInfix(Concat(init), last, "");
    } else {
      ConcatHasPiece(init, i);
      assert Concat(pieces) == "" + Concat(init) + last;
      ContainsWithin("", Concat(init), last, pieces[i]);
    }
  }

  /** A template's value includes each two neighbouring pieces, run together. */
  lemma {:induction false} ConcatHasAdjacent(pieces: seq<string>, i: int)
    requires 0 <= i && i + 1 < |pieces|
    ensures Contains(Concat(pieces), pieces[i] + pieces[i + 1])
    decreases |pieces|
  {
    var init := pieces[..|pieces| - 1];
    var last := pieces[|pieces| - 1];
    if i + 1 == |pieces| - 1 {
      assert init[..|init| - 1] == pieces[..i];
      assert Concat(pieces) == Concat(pieces[..i]) + (pieces[i] + pieces[i + 1]) + "";
      ContainsInfix(Concat(pieces[..i]), pieces[i] + pieces[i + 1], "");
    } else {
      ConcatHasAdjacent(init, i);
      assert Concat(pieces) == "" + Concat(init) + last;
      ContainsWithin("", Concat(init), last, pieces[i] + pieces[i + 1]);
    }
  }

  /** A character none of the pieces holds is not in the template's value. */
  lemma {:induction false} ConcatLacks(pieces: seq<string>, c: char)
    requires forall i :: 0 <= i < |pieces| ==> c !in pieces[i]
    ensures c !in Concat(pieces)
    decreases |pieces|
  {
    if |pieces| > 0 {
      ConcatLacks(pieces[..|pieces| - 1], c);
    }
  }

  // ---------------------------------------------------------------------------
  // `s.trim()` with the ECMAScript white-space and line-terminator set
  // ---------------------------------------------------------------------------

  /** The characters `String.prototype.trim` strips (WhiteSpace and LineTerminator). */
  predicate IsJsWhitespace(c: char)
  {
    c == '\t' || c == '\n' || c == '\U{000B}' || c == '\U{000C}' || c == '\r' || c == ' '
    || c == '\U{00A0}' || c == '\U{1680}' || ('\U{2000}' <= c <= '\U{200A}')
    || c == '\U{2028}' || c == '\U{2029}' || c == '\U{202F}' || c == '\U{205F}'
    || c == '\U{3000}' || c == '\U{FEFF}'
  }

  function TrimStart(s: string): string
    decreases |s|
  {
    if |s| > 0 && IsJsWhitespace(s[0]) then TrimStart(s[1..]) else s
  }

  function TrimEnd(s: string): string
    decreases |s|
  {
    if |s| > 0 && IsJsWhitespace(s[|s| - 1]) then TrimEnd(s[..|s| - 1]) else s
  }

  /** `s.trim()` */
  function Trim(s: string): string
  {
    TrimEnd(TrimStart(s))
  }

  /** `!s.trim()`: the trimmed string is empty, hence falsy. */
  predicate IsBlank(s: string)
  {
    Trim(s) == ""
  }

  ghost predicate AllWhitespace(s: string)
  {
    forall i :: 0 <= i < |s| ==> IsJsWhitespace(s[i])
  }

  lemma {:induction false} TrimStartEmptyIff(s: string)
    ensures TrimStart(s) == "" <==> AllWhitespace(s)
    decreases |s|
  {
    if |s| > 0 && IsJsWhitespace(s[0]) {
      TrimStartEmptyIff(s[1..]);
      assert AllWhitespace(s) <==> AllWhitespace(s[1..]) by {
        if AllWhitespace(s[1..]) {
          forall i | 0 <= i < |s| ensures IsJsWhitespace(s[i]) {
            if i > 0 { assert s[i] == s[1..][i - 1]; }
          }
        }
      }
    }
  }

  lemma {:induction false} TrimStartHead(s: string)
    ensures TrimStart(s) != "" ==> !IsJsWhitespace(TrimStart(s)[0])
    decreases |s|
  {
    if |s| > 0 && IsJsWhitespace(s[0]) {
      TrimStartHead(s[1..]);
    }
  }

  lemma {:induction false} TrimEndKeepsSolidHead(s: string)
    requires |s| > 0 && !IsJsWhitespace(s[0])
    ensures TrimEnd(s) != ""
    decreases |s|
  {
    if IsJsWhitespace(s[|s| - 1]) {
      assert |s| > 1;
      assert s[..|s| - 1][0] == s[0];
      TrimEndKeepsSolidHead(s[..|s| - 1]);
    }
  }

  /** Blank in the sense of `!s.trim()` is exactly "made only of white space". */
  lemma BlankIff(s: string)
    ensures IsBlank(s) <==> AllWhitespace(s)
  {
    TrimStartEmptyIff(s);
    TrimStartHead(s);
    if TrimStart(s) != "" {
      TrimEndKeepsSolidHead(TrimStart(s));
    }
  }

  // ---------------------------------------------------------------------------
  // `s.replace(' ', '')`: a string pattern replaces its FIRST occurrence only
  // ---------------------------------------------------------------------------

  function RemoveFirst(s: string, c: char): string
    decreases |s|
  {
    if |s| == 0 then s
    else if s[0] == c then s[1..]
    else [s[0]] + RemoveFirst(s[1..], c)
  }

  /** The number of occurrences of `c` in `s`. */
  function Occurrences(s: string, c: char): nat
    decreases |s|
  {
    if |s| == 0 then 0 else (if s[0] == c then 1 else 0) + Occurrences(s[1..], c)
  }

  lemma {:induction false} OccurrencesZero(s: string, c: char)
    ensures Occurrences(s, c) == 0 <==> c !in s
    decreases |s|
  {
    if |s| > 0 {
      OccurrencesZero(s[1..], c);
      assert s == [s[0]] + s[1..];
    }
  }

  /** Removing the first occurrence removes one occurrence, when there is one. */
  lemma {:induction false} RemoveFirstOccurrences(s: string, c: char)
    ensures Occurrences(RemoveFirst(s, c), c) == if Occurrences(s, c) == 0 then 0 else Occurrences(s, c) - 1
    decreases |s|
  {
    if |s| > 0 && s[0] != c {
      RemoveFirstOccurrences(s[1..], c);
      var r := RemoveFirst(s[1..], c);
      assert ([s[0]] + r)[1..] == r;
    }
  }

  /** After removing the first `c`, no `c` is left exactly when there was at most one. */
  lemma RemoveFirstLeavesNone(s: string, c: char)
    ensures c !in RemoveFirst(s, c) <==> Occurrences(s, c) <= 1
  {
    RemoveFirstOccurrences(s, c);
    OccurrencesZero(RemoveFirst(s, c), c);
  }

  // ---------------------------------------------------------------------------
  // `lines.join('\n')` and its inverse, splitting at line breaks
  // ---------------------------------------------------------------------------

  /** `lines.join('\n')` */
  function JoinLines(lines: seq<string>): string
    decreases |lines|
  {
    if |lines| == 0 then ""
    else if |lines| == 1 then lines[0]
    else lines[0] + "\n" + JoinLines(lines[1..])
  }

  /** The joined text includes each of the lines. */
  lemma {:induction false} JoinLinesHasLine(lines: seq<string>, i: int)
    requires 0 <= i < |lines|
    ensures Contains(JoinLines(lines), lines[i])
    decreases |lines|
  {
    if |lines| == 1 {
      assert JoinLines(lines) == "" + lines[0] + "";
      ContainsInfix("", lines[0], "");
    } else if i == 0 {
      assert JoinLines(lines) == "" + lines[0] + ("\n" + JoinLines(lines[1..]));
      ContainsInfix("", lines[0], "\n" + JoinLines(lines[1..]));
    } else {
      JoinLinesHasLine(lines[1..], i - 1);
      assert JoinLines(lines) == lines[0] + "\n" + JoinLines(lines[1..]) + "";
      ContainsWithin(lines[0] + "\n", JoinLines(lines[1..]), "", lines[i]);
    }
  }

  lemma JoinLinesHasLines(lines: seq<string>)
    ensures forall i :: 0 <= i < |lines| ==> Contains(JoinLines(lines), lines[i])
  {
    forall i | 0 <= i < |lines| ensures Contains(JoinLines(lines), lines[i]) {
      JoinLinesHasLine(lines, i);
    }
  }

  /** Cuts a string at every line break; the inverse of `JoinLines` for lines without breaks. */
  function SplitLines(s: string): (parts: seq<string>)
    ensures |parts| > 0
    decreases |s|
  {
    if |s| == 0 then [""]
    else if s[0] == '\n' then [""] + SplitLines(s[1..])
    else
      var rest := SplitLines(s[1..]);
      [[s[0]] + rest[0]] + rest[1..]
  }

  ghost predicate NoLineBreaks(lines: seq<string>)
  {
    forall i :: 0 <= i < |lines| ==> '\n' !in lines[i]
  }

  lemma {:induction false} SplitSingleLine(a: string)
    requires '\n' !in a
    ensures SplitLines(a) == [a]
    decreases |a|
  {
    if |a| > 0 {
      assert '\n' !in a[1..] by { assert forall k :: 0 <= k < |a| - 1 ==> a[1..][k] == a[k + 1]; }
      SplitSingleLine(a[1..]);
      assert [a[0]] + a[1..] == a;
    }
  }

  lemma {:induction false} SplitAfterLine(a: string, b: string)
    requires '\n' !in a
    ensures SplitLines(a + "\n" + b) == [a] + SplitLines(b)
    decreases |a|
  {
    var s := a + "\n" + b;
    if |a| == 0 {
      assert s == "\n" + b;
      assert s[1..] == b;
    } else {
      assert '\n' !in a[1..] by { assert forall k :: 0 <= k < |a| - 1 ==> a[1..][k] == a[k + 1]; }
      assert s[1..] == a[1..] + "\n" + b;
      SplitAfterLine(a[1..], b);
      assert [a[0]] + a[1..] == a;
    }
  }

  /** Joining lines that hold no line break and splitting again gives back the same lines. */
  lemma {:induction false} SplitJoinLines(lines: seq<string>)
    requires |lines| > 0 && NoLineBreaks(lines)
    ensures SplitLines(JoinLines(lines)) == lines
    decreases |lines|
  {
    if |lines| == 1 {
      SplitSingleLine(lines[0]);
    } else {
      SplitJoinLines(lines[1..]);
      SplitAfterLine(lines[0], JoinLines(lines[1..]));
      assert [lines[0]] + lines[1..] == lines;
    }
  }

  // ---------------------------------------------------------------------------
  // Decimal rendering of a non-negative integer (as a template string shows it)
  // ---------------------------------------------------------------------------

  function DigitChar(d: int): char
    requires 0 <= d < 10
  {
    ('0' as int + d) as char
  }

  predicate IsDigit(c: char)
  {
    '0' <= c <= '9'
  }

  function DigitValue(c: char): int
  {
    c as int - '0' as int
  }

  /** `${n}` for a non-negative integer `n`: no sign, no leading zero. */
  function Decimal(n: nat): (s: string)
    ensures |s| > 0 && forall i :: 0 <= i < |s| ==> IsDigit(s[i])
    ensures |s| > 1 ==> s[0] != '0'
    decreases n
  {
    if n < 10 then [DigitChar(n)] else Decimal(n / 10) + [DigitChar(n % 10)]
  }

  /** Reads a string of decimal digits back as a number. */
  function ParseDecimal(s: string): int
    decreases |s|
  {
    if |s| == 0 then 0 else ParseDecimal(s[..|s| - 1]) * 10 + DigitValue(s[|s| - 1])
  }

  /** The rendered number reads back as the number. */
  lemma {:induction false} ParseDecimalRoundTrip(n: nat)
    ensures ParseDecimal(Decimal(n)) == n
    decreases n
  {
    if n >= 10 {
      ParseDecimalRoundTrip(n / 10);
      var s := Decimal(n);
      assert s[..|s| - 1] == Decimal(n / 10);
    }
  }
}
