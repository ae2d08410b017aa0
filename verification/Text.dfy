/** The string operations the models need, spelled out on character sequences. */
module Text {
  predicate IsSpace(c: char) {
    c == ' ' || '\t' <= c <= '\r'
  }

  function LStrip(s: string): (r: string)
    ensures r != "" ==> !IsSpace(r[0])
  {
    if s != "" && IsSpace(s[0]) then LStrip(s[1..]) else s
  }

  function RStrip(s: string): (r: string)
    ensures r != "" ==> !IsSpace(r[|r| - 1])
    ensures r <= s
  {
    if s != "" && IsSpace(s[|s| - 1]) then RStrip(s[..|s| - 1]) else s
  }

  /** Python's `s.strip()`, JavaScript's `s.trim()`. */
  function Strip(s: string): string {
    RStrip(LStrip(s))
  }

  ghost predicate Blank(s: string) {
    forall i :: 0 <= i < |s| ==> IsSpace(s[i])
  }

  lemma {:induction false} LStripCuts(s: string)
    ensures |LStrip(s)| <= |s| && s[|s| - |LStrip(s)|..] == LStrip(s) && Blank(s[..|s| - |LStrip(s)|])
  {
    if s != "" && IsSpace(s[0]) {
      LStripCuts(s[1..]);
    }
  }

  lemma {:induction false} RStripCuts(s: string)
    ensures Blank(s[|RStrip(s)|..])
  {
    if s != "" && IsSpace(s[|s| - 1]) {
      RStripCuts(s[..|s| - 1]);
    }
  }

  /** Stripping cuts off exactly the space at both ends. */
  lemma StripCuts(s: string) returns (before: string, after: string)
    ensures s == before + Strip(s) + after && Blank(before) && Blank(after)
    ensures Strip(s) != "" ==> !IsSpace(Strip(s)[0]) && !IsSpace(Strip(s)[|Strip(s)| - 1])
  {
    LStripCuts(s);
    RStripCuts(LStrip(s));
    before := s[..|s| - |LStrip(s)|];
    after := LStrip(s)[|Strip(s)|..];
    assert s == before + LStrip(s) && LStrip(s) == Strip(s) + after;
  }

  lemma StripTwice(s: string)
    ensures Strip(Strip(s)) == Strip(s)
  {
    var t := Strip(s);
    if t != "" {
      assert t[0] == LStrip(s)[0];
      assert LStrip(t) == t;
    }
  }

  function LowerChar(c: char): char {
    if 'A' <= c <= 'Z' then c + (32 as char) else c
  }

  /** `s.casefold()` on ASCII letters. */
  function Fold(s: string): (r: string)
    ensures |r| == |s|
  {
    seq(|s|, i requires 0 <= i < |s| => LowerChar(s[i]))
  }

  lemma FoldAppend(s: string, t: string)
    ensures Fold(s + t) == Fold(s) + Fold(t)
  {
  }

  // ---- comparing like a case-blind, padding index ----

  function DropPad(s: string): (r: string)
    ensures r <= s
    ensures r != "" ==> r[|r| - 1] != ' '
  {
    if s != "" && s[|s| - 1] == ' ' then DropPad(s[..|s| - 1]) else s
  }

  /** Strings with the same key are one value to the index. */
  function IndexKey(s: string): string {
    Fold(DropPad(s))
  }

  lemma StrippedKey(s: string)
    requires Strip(s) == s
    ensures IndexKey(s) == Fold(s)
  {
  }

  lemma {:induction false} FoldDropsPad(s: string, t: string)
    requires Fold(s) == Fold(t)
    ensures IndexKey(s) == IndexKey(t)
  {
    assert |s| == |Fold(s)| == |t|;
    if s != "" {
      var n := |s| - 1;
      assert Fold(s)[n] == LowerChar(s[n]) && Fold(t)[n] == LowerChar(t[n]);
      if s[n] == ' ' {
        assert Fold(s[..n]) == Fold(s)[..n] && Fold(t[..n]) == Fold(t)[..n];
        FoldDropsPad(s[..n], t[..n]);
      }
    }
  }

  // ---- decimal numerals ----

  function Digit(d: nat): char
    requires d < 10
  {
    '0' + (d as char)
  }

  function Decimal(n: nat): (r: string)
    ensures r != ""
    ensures forall i :: 0 <= i < |r| ==> '0' <= r[i] <= '9'
  {
    if n < 10 then [Digit(n)] else Decimal(n / 10) + [Digit(n % 10)]
  }

  lemma {:induction false} DecimalInjective(a: nat, b: nat)
    requires Decimal(a) == Decimal(b)
    ensures a == b
  {
    var x, y := Decimal(a), Decimal(b);
    assert x[|x| - 1] == Digit(a % 10) && y[|y| - 1] == Digit(b % 10);
    assert x[..|x| - 1] == (if a < 10 then "" else Decimal(a / 10));
    assert y[..|y| - 1] == (if b < 10 then "" else Decimal(b / 10));
    if a >= 10 && b >= 10 {
      DecimalInjective(a / 10, b / 10);
    }
  }

  /** A Python prefix slice `s[:n]`, with its reading of negative bounds. */
  function PrefixSlice(s: string, n: int): string {
    if n >= |s| then s
    else if n >= 0 then s[..n]
    else if |s| + n >= 0 then s[..|s| + n]
    else ""
  }

  /** `a < b` on strings: the first differing character decides. */
  predicate Less(a: string, b: string) {
    b != "" && (a == "" || a[0] < b[0] || (a[0] == b[0] && Less(a[1..], b[1..])))
  }

  /** One comes first at the first difference, or as a proper beginning. */
  lemma {:induction false} LessExactly(a: string, b: string)
    ensures Less(a, b) <==>
            exists n: nat :: n <= |a| && n < |b| && a[..n] == b[..n] && (n == |a| || a[n] < b[n])
  {
    if a != "" && b != "" && a[0] == b[0] {
      LessExactly(a[1..], b[1..]);
      if n: nat :| n <= |a[1..]| && n < |b[1..]| && a[1..][..n] == b[1..][..n] && (n == |a[1..]| || a[1..][n] < b[1..][n]) {
        assert a[..n + 1] == [a[0]] + a[1..][..n] && b[..n + 1] == [b[0]] + b[1..][..n];
      }
      if n: nat :| n <= |a| && n < |b| && a[..n] == b[..n] && (n == |a| || a[n] < b[n]) {
        assert n > 0;
        assert a[1..][..n - 1] == a[..n][1..] && b[1..][..n - 1] == b[..n][1..];
      }
    } else if b != "" {
      if Less(a, b) {
        assert a[..0] == b[..0];
      }
      if n: nat :| n <= |a| && n < |b| && a[..n] == b[..n] && (n == |a| || a[n] < b[n]) {
        if n > 0 {
          assert a[..n][0] == b[..n][0];
        }
      }
    }
  }
}
