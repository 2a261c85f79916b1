/**
 * The parts of Go's `strings` and `fmt` packages the handlers use, on ASCII text.
 * A Go string is a sequence of bytes; here it is a `string` whose characters stand
 * for those bytes one by one.
 */
module Text {

  /** The single-byte white space that `strings.TrimSpace` removes: tab, line feed,
      vertical tab, form feed, carriage return and space. */
  predicate IsSpace(c: char) {
    c == ' ' || '\t' <= c <= '\r'
  }

  predicate NoSpace(s: string) {
    forall i :: 0 <= i < |s| ==> !IsSpace(s[i])
  }

  function UpperChar(c: char): char {
    if 'a' <= c <= 'z' then (c as int - 32) as char else c
  }

  function LowerChar(c: char): char {
    if 'A' <= c <= 'Z' then (c as int + 32) as char else c
  }

  /** `strings.ToUpper` on ASCII letters. */
  function ToUpper(s: string): (r: string)
    ensures |r| == |s|
    ensures forall i :: 0 <= i < |s| ==> r[i] == UpperChar(s[i])
  {
    seq(|s|, i requires 0 <= i < |s| => UpperChar(s[i]))
  }

  /** `strings.ToLower` on ASCII letters. */
  function ToLower(s: string): (r: string)
    ensures |r| == |s|
    ensures forall i :: 0 <= i < |s| ==> r[i] == LowerChar(s[i])
  {
    seq(|s|, i requires 0 <= i < |s| => LowerChar(s[i]))
  }

  /** Drop the white-space bytes at the front. */
  function TrimLeft(s: string): (r: string)
    ensures |r| <= |s|
  {
    if |s| > 0 && IsSpace(s[0]) then TrimLeft(s[1..]) else s
  }

  /** Drop the white-space bytes at the back. */
  function TrimRight(s: string): (r: string)
    ensures |r| <= |s| && r == s[..|r|]
  {
    if |s| > 0 && IsSpace(s[|s| - 1]) then TrimRight(s[..|s| - 1]) else s
  }

  /** `strings.TrimSpace`: drop leading and trailing white space; a text of white
      space only becomes empty. */
  function TrimSpace(s: string): string {
    TrimRight(TrimLeft(s))
  }

  /** `strings.HasPrefix`. */
  predicate HasPrefix(s: string, prefix: string) {
    |prefix| <= |s| && s[..|prefix|] == prefix
  }

  predicate OccursAt(s: string, sub: string, i: int) {
    0 <= i && i + |sub| <= |s| && s[i..i + |sub|] == sub
  }

  /** `strings.Contains`: `sub` occurs somewhere in `s` (the empty string always does). */
  predicate Contains(s: string, sub: string) {
    exists i | 0 <= i <= |s| - |sub| :: OccursAt(s, sub, i)
  }

  /** `strings.Join`: the parts with `sep` between consecutive ones. */
  function Join(parts: seq<string>, sep: string): string {
    if |parts| == 0 then ""
    else if |parts| == 1 then parts[0]
    else parts[0] + sep + Join(parts[1..], sep)
  }

  /** Position of the first `c` in `s`. */
  function FirstIndex(s: string, c: char): (i: nat)
    requires c in s
    ensures i < |s| && s[i] == c && c !in s[..i]
  {
    if s[0] == c then 0 else 1 + FirstIndex(s[1..], c)
  }

  /** `strings.Split` with a one-byte separator: the maximal pieces between the
      separators, so one more piece than there are separators. */
  function Split(s: string, sep: char): (parts: seq<string>)
    ensures |parts| >= 1
    ensures forall k :: 0 <= k < |parts| ==> sep !in parts[k]
    decreases |s|
  {
    if sep !in s then [s]
    else
      var i := FirstIndex(s, sep);
      [s[..i]] + Split(s[i + 1..], sep)
  }

  function DigitChar(d: nat): char
    requires d < 10
  {
    ('0' as int + d) as char
  }

  /** The decimal digits of a natural number, most significant first. */
  function Digits(n: nat): (r: string)
    ensures |r| >= 1
    ensures forall i :: 0 <= i < |r| ==> '0' <= r[i] <= '9'
  {
    if n < 10 then [DigitChar(n)] else Digits(n / 10) + [DigitChar(n % 10)]
  }

  /** `fmt.Sprintf("%d", n)`. */
  function Decimal(n: int): string {
    if n < 0 then "-" + Digits(-n) else Digits(n)
  }

  /** The number a string of decimal digits denotes. */
  function DigitsValue(s: string): int {
    if |s| == 0 then 0
    else DigitsValue(s[..|s| - 1]) * 10 + (s[|s| - 1] as int - '0' as int)
  }

  /** The number `fmt` writes with `%d` is read back as the same number. */
  lemma {:induction false} DigitsRoundTrip(n: nat)
    ensures DigitsValue(Digits(n)) == n
  {
    if n >= 10 {
      var ds := Digits(n / 10) + [DigitChar(n % 10)];
      assert ds[..|ds| - 1] == Digits(n / 10);
      DigitsRoundTrip(n / 10);
    }
  }

  lemma {:induction false} DecimalShape(n: int)
    ensures |Decimal(n)| >= 1 && NoSpace(Decimal(n))
    ensures n < 0 ==> Decimal(n)[0] == '-' && DigitsValue(Decimal(n)[1..]) == -n
    ensures n >= 0 ==> DigitsValue(Decimal(n)) == n
  {
    if n < 0 {
      NegativeDecimalShape(n);
    } else {
      DigitsShape(n);
    }
  }

  lemma {:induction false} DigitsShape(n: nat)
    ensures |Digits(n)| >= 1 && NoSpace(Digits(n)) && DigitsValue(Digits(n)) == n
  {
    DigitsRoundTrip(n);
  }

  lemma {:induction false} NegativeDecimalShape(n: int)
    requires n < 0
    ensures var d := Decimal(n);
            |d| >= 1 && NoSpace(d) && d[0] == '-' && DigitsValue(d[1..]) == -n
  {
    var ds := Digits(-n);
    assert Decimal(n) == "-" + ds;
    assert ("-" + ds)[1..] == ds;
    DigitsShape(-n);
    NoSpaceAppend("-", ds);
  }

  lemma {:induction false} NoSpaceAppend(a: string, b: string)
    requires NoSpace(a) && NoSpace(b)
    ensures NoSpace(a + b)
  {
    forall i | 0 <= i < |a + b| ensures !IsSpace((a + b)[i]) {
      if i >= |a| {
        assert (a + b)[i] == b[i - |a|];
      }
    }
  }

  lemma ToUpperAppend(a: string, b: string)
    ensures ToUpper(a + b) == ToUpper(a) + ToUpper(b)
  {
  }

  /** Upper-casing an upper-cased text changes nothing more. */
  lemma ToUpperIdempotent(s: string)
    ensures ToUpper(ToUpper(s)) == ToUpper(s)
  {
  }

  /** Lower-casing before upper-casing makes no difference to the upper-cased text,
      and upper-casing before lower-casing none to the lower-cased text. */
  lemma CaseFoldings(s: string)
    ensures ToUpper(ToLower(s)) == ToUpper(s)
    ensures ToLower(ToUpper(s)) == ToLower(s)
  {
  }

  /** Trimming from the left removes exactly the white space at the front: what is
      left is a suffix of `s` that is empty or starts with a non-space byte. */
  lemma {:induction false} TrimLeftMeaning(s: string)
    ensures var r := TrimLeft(s);
            r == s[|s| - |r|..] && (|r| > 0 ==> !IsSpace(r[0])) &&
            forall j :: 0 <= j < |s| - |r| ==> IsSpace(s[j])
    decreases |s|
  {
    if |s| > 0 && IsSpace(s[0]) {
      var r := TrimLeft(s[1..]);
      TrimLeftMeaning(s[1..]);
      assert s[1..][|s| - 1 - |r|..] == s[|s| - |r|..];
      forall j | 1 <= j < |s| - |r| ensures IsSpace(s[j]) {
        assert s[j] == s[1..][j - 1];
      }
    }
  }

  /** Trimming from the right removes exactly the white space at the back: what is
      left is a prefix of `s` that is empty or ends with a non-space byte. */
  lemma {:induction false} TrimRightMeaning(s: string)
    ensures var r := TrimRight(s);
            r == s[..|r|] && (|r| > 0 ==> !IsSpace(r[|r| - 1])) &&
            forall j :: |r| <= j < |s| ==> IsSpace(s[j])
    decreases |s|
  {
    if |s| > 0 && IsSpace(s[|s| - 1]) {
      var init := s[..|s| - 1];
      TrimRightMeaning(init);
      forall j | |TrimRight(init)| <= j < |s| - 1 ensures IsSpace(s[j]) {
        assert s[j] == init[j];
      }
    }
  }

  /** White space in front of a text is all that trimming from the left removes first. */
  lemma {:induction false} TrimLeftAfterBlank(blank: string, t: string)
    requires forall j :: 0 <= j < |blank| ==> IsSpace(blank[j])
    ensures TrimLeft(blank + t) == TrimLeft(t)
    decreases |blank|
  {
    if |blank| > 0 {
      assert (blank + t)[0] == blank[0];
      assert (blank + t)[1..] == blank[1..] + t;
      TrimLeftAfterBlank(blank[1..], t);
    } else {
      assert blank + t == t;
    }
  }

  /** White space in front of a text does not change its trimmed form. */
  lemma {:induction false} TrimSpaceAfterBlank(blank: string, t: string)
    requires forall j :: 0 <= j < |blank| ==> IsSpace(blank[j])
    ensures TrimSpace(blank + t) == TrimSpace(t)
  {
    TrimLeftAfterBlank(blank, t);
  }

  /** Once a text has something left after trimming from the left, whatever is
      appended to it survives that trimming unchanged. */
  lemma {:induction false} TrimLeftAppend(s: string, v: string)
    requires TrimLeft(s) != ""
    ensures TrimLeft(s + v) == TrimLeft(s) + v
    decreases |s|
  {
    assert (s + v)[0] == s[0];
    if IsSpace(s[0]) {
      assert (s + v)[1..] == s[1..] + v;
      TrimLeftAppend(s[1..], v);
    }
  }

  /** Trimming from the right keeps a prefix whose last byte is not white space. */
  lemma {:induction false} TrimRightKeepsPrefix(s: string, w: string)
    requires |w| > 0 && !IsSpace(w[|w| - 1]) && HasPrefix(s, w)
    ensures HasPrefix(TrimRight(s), w)
    decreases |s|
  {
    assert s[|w| - 1] == w[|w| - 1];
    if IsSpace(s[|s| - 1]) {
      var init := s[..|s| - 1];
      assert init[..|w|] == s[..|w|];
      TrimRightKeepsPrefix(init, w);
    }
  }

  /** A text that starts with a non-space word keeps that word as a prefix when trimmed. */
  lemma {:induction false} TrimSpaceKeepsPrefix(s: string, w: string)
    requires |w| > 0 && NoSpace(w) && HasPrefix(s, w)
    ensures HasPrefix(TrimSpace(s), w)
  {
    assert s[0] == w[0];
    assert TrimLeft(s) == s;
    TrimRightKeepsPrefix(s, w);
  }

  /** A word that starts with a non-space byte cannot begin at a leading space. */
  lemma {:induction false} ContainsAfterSpace(s: string, w: string)
    requires |s| > 0 && IsSpace(s[0]) && |w| > 0 && !IsSpace(w[0])
    ensures Contains(s[1..], w) <==> Contains(s, w)
  {
    if Contains(s[1..], w) {
      var i :| 0 <= i <= |s| - 1 - |w| && OccursAt(s[1..], w, i);
      assert s[i + 1..i + 1 + |w|] == s[1..][i..i + |w|];
      assert OccursAt(s, w, i + 1);
    }
    if Contains(s, w) {
      var i :| 0 <= i <= |s| - |w| && OccursAt(s, w, i);
      assert s[i] == w[0];
      assert s[1..][i - 1..i - 1 + |w|] == s[i..i + |w|];
      assert OccursAt(s[1..], w, i - 1);
    }
  }

  /** A word that ends in a non-space byte cannot end at a trailing space. */
  lemma {:induction false} ContainsBeforeSpace(s: string, w: string)
    requires |s| > 0 && IsSpace(s[|s| - 1]) && |w| > 0 && !IsSpace(w[|w| - 1])
    ensures Contains(s[..|s| - 1], w) <==> Contains(s, w)
  {
    var init := s[..|s| - 1];
    if Contains(init, w) {
      var i :| 0 <= i <= |init| - |w| && OccursAt(init, w, i);
      assert init[i..i + |w|] == s[i..i + |w|];
      assert OccursAt(s, w, i);
    }
    if Contains(s, w) {
      var i :| 0 <= i <= |s| - |w| && OccursAt(s, w, i);
      assert s[i + |w| - 1] == w[|w| - 1];
      assert init[i..i + |w|] == s[i..i + |w|];
      assert OccursAt(init, w, i);
    }
  }

  lemma {:induction false} ContainsTrimLeft(s: string, w: string)
    requires |w| > 0 && NoSpace(w)
    ensures Contains(TrimLeft(s), w) <==> Contains(s, w)
    decreases |s|
  {
    if |s| > 0 && IsSpace(s[0]) {
      ContainsTrimLeft(s[1..], w);
      ContainsAfterSpace(s, w);
    }
  }

  lemma {:induction false} ContainsTrimRight(s: string, w: string)
    requires |w| > 0 && NoSpace(w)
    ensures Contains(TrimRight(s), w) <==> Contains(s, w)
    decreases |s|
  {
    if |s| > 0 && IsSpace(s[|s| - 1]) {
      ContainsTrimRight(s[..|s| - 1], w);
      ContainsBeforeSpace(s, w);
    }
  }

  /** Trimming only removes white space at the ends: a word without white space
      occurs in the trimmed text exactly when it occurs in the original. */
  lemma {:induction false} ContainsTrimSpace(s: string, w: string)
    requires |w| > 0 && NoSpace(w)
    ensures Contains(TrimSpace(s), w) <==> Contains(s, w)
  {
    ContainsTrimLeft(s, w);
    ContainsTrimRight(TrimLeft(s), w);
  }

  /** `strings.Split(s, ",")` re-joined with "," gives `s` back. */
  lemma {:induction false} JoinSplit(s: string, sep: char)
    ensures Join(Split(s, sep), [sep]) == s
    decreases |s|
  {
    if sep in s {
      var i := FirstIndex(s, sep);
      var rest := Split(s[i + 1..], sep);
      JoinSplit(s[i + 1..], sep);
      var parts := [s[..i]] + rest;
      assert Split(s, sep) == parts;
      assert |parts| >= 2 && parts[0] == s[..i] && parts[1..] == rest;
      assert Join(parts, [sep]) == s[..i] + [sep] + Join(rest, [sep]);
      assert s == s[..i] + [sep] + s[i + 1..];
    }
  }

  /** Splitting a join of separator-free pieces gives the pieces back. */
  lemma {:induction false} SplitJoin(parts: seq<string>, sep: char)
    requires |parts| >= 1
    requires forall k :: 0 <= k < |parts| ==> sep !in parts[k]
    ensures Split(Join(parts, [sep]), sep) == parts
  {
    if |parts| > 1 {
      var s := Join(parts, [sep]);
      assert s == parts[0] + [sep] + Join(parts[1..], [sep]);
      assert s[|parts[0]|] == sep;
      assert s[..|parts[0]|] == parts[0];
      assert FirstIndex(s, sep) == |parts[0]|;
      assert s[|parts[0]| + 1..] == Join(parts[1..], [sep]);
      SplitJoin(parts[1..], sep);
    }
  }
}
