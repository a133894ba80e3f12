/** Identifiers as the programs write them: lower-case hexadecimal strings. */
module Hex {
  import opened Arithmetic

  function Digit(c: char): nat {
    if '0' <= c <= '9' then (c - '0') as nat
    else if 'a' <= c <= 'f' then (c - 'a') as nat + 10
    else 0
  }

  predicate IsDigit(c: char) { '0' <= c <= '9' || 'a' <= c <= 'f' }

  function DigitChar(d: nat): (c: char)
    requires d < 16
    ensures IsDigit(c) && Digit(c) == d
  {
    if d < 10 then '0' + d as char else 'a' + (d - 10) as char
  }

  /** The sixteen digits in order. */
  lemma DigitsInOrder(d: nat, c: char)
    requires d < 16
    ensures DigitChar(d) == "0123456789abcdef"[d] && Digit("0123456789abcdef"[d]) == d
    ensures IsDigit(c) <==> c in "0123456789abcdef"
  {
  }

  predicate IsHex(s: string) { forall i :: 0 <= i < |s| ==> IsDigit(s[i]) }

  function Pow16(k: nat): (p: nat)
    ensures p > 0
  {
    if k == 0 then 1 else 16 * Pow16(k - 1)
  }

  /** The number a hexadecimal string denotes. */
  function Num(s: string): nat {
    if s == [] then 0 else 16 * Num(s[..|s| - 1]) + Digit(s[|s| - 1])
  }

  /** The order std::string and Python's str use: by the first character that differs, a proper prefix
      being smaller. */
  predicate Less(s: string, t: string) {
    t != [] && (s == [] || s[0] < t[0] || (s[0] == t[0] && Less(s[1..], t[1..])))
  }

  /** The first i characters agree, and then s ends or has the smaller character. */
  predicate LessAt(s: string, t: string, i: nat) {
    i <= |s| && i < |t| && s[..i] == t[..i] && (i == |s| || s[i] < t[i])
  }

  lemma {:induction false} LessIsLexicographic(s: string, t: string)
    ensures Less(s, t) <==> exists i: nat :: LessAt(s, t, i)
    decreases |s|
  {
    if s == [] || t == [] || s[0] != t[0] {
      FirstDiffers(s, t);
    } else {
      LessIsLexicographic(s[1..], t[1..]);
      if Less(s, t) {
        var i: nat :| LessAt(s[1..], t[1..], i);
        LessBehind(s, t, i);
      }
      if i: nat :| LessAt(s, t, i) {
        LessBehind(s, t, i - 1);
      }
    }
  }

  lemma FirstDiffers(s: string, t: string)
    requires s == [] || t == [] || s[0] != t[0]
    ensures Less(s, t) <==> LessAt(s, t, 0)
    ensures forall i: nat :: LessAt(s, t, i) ==> i == 0
  {
    forall i: nat | LessAt(s, t, i) ensures i == 0 {
      AgreesAtFront(s, t, i);
    }
  }

  lemma AgreesAtFront(s: string, t: string, i: nat)
    ensures LessAt(s, t, i) && i > 0 ==> s != [] && t != [] && s[0] == t[0]
  {
    if LessAt(s, t, i) && i > 0 {
      assert s[..i][0] == s[0] && t[..i][0] == t[0];
    }
  }

  lemma LessBehind(s: string, t: string, i: nat)
    requires s != [] && t != [] && s[0] == t[0]
    ensures LessAt(s, t, i + 1) <==> LessAt(s[1..], t[1..], i)
  {
    if i < |s| && i + 1 < |t| {
      assert s[..i + 1] == [s[0]] + s[1..][..i];
      assert t[..i + 1] == [t[0]] + t[1..][..i];
    }
  }

  lemma PowerSplit(d: nat, p: nat, q: nat)
    ensures 16 * (d * p + q) == d * (16 * p) + 16 * q
  {
  }

  /** The first digit counts for as many places as follow it. */
  lemma {:induction false} NumFront(s: string)
    requires s != []
    ensures Num(s) == Digit(s[0]) * Pow16(|s| - 1) + Num(s[1..])
    decreases |s|
  {
    if |s| == 1 {
      assert s[..0] == [] && s[1..] == [];
    } else {
      var front := s[..|s| - 1];
      NumFront(front);
      assert front[1..] == s[1..][..|s[1..]| - 1];
      PowerSplit(Digit(s[0]), Pow16(|front| - 1), Num(front[1..]));
    }
  }

  lemma {:induction false} NumBound(s: string)
    ensures Num(s) < Pow16(|s|)
    decreases |s|
  {
    if s != [] {
      NumBound(s[..|s| - 1]);
    }
  }

  /** On strings of one length the character order is the numeric order, and equal numbers have equal
      strings. */
  lemma {:induction false} LessIsNumeric(s: string, t: string)
    requires |s| == |t| && IsHex(s) && IsHex(t)
    ensures Less(s, t) <==> Num(s) < Num(t)
    ensures Num(s) == Num(t) ==> s == t
    decreases |s|
  {
    if s != [] {
      var p := Pow16(|s| - 1);
      NumFront(s);
      NumFront(t);
      NumBound(s[1..]);
      NumBound(t[1..]);
      LessIsNumeric(s[1..], t[1..]);
      DigitOrder(s[0], t[0]);
      if Digit(s[0]) < Digit(t[0]) {
        MulMonotone(Digit(s[0]), Digit(t[0]), p);
      } else if Digit(t[0]) < Digit(s[0]) {
        MulMonotone(Digit(t[0]), Digit(s[0]), p);
      } else {
        assert s == [s[0]] + s[1..] && t == [t[0]] + t[1..];
      }
    }
  }

  lemma DigitOrder(c: char, d: char)
    requires IsDigit(c) && IsDigit(d)
    ensures c < d <==> Digit(c) < Digit(d)
    ensures c == d <==> Digit(c) == Digit(d)
  {
  }

  // ----- addition -----

  /** The number denoted by digits listed from the least significant. */
  function LowFirst(s: string): nat {
    if s == [] then 0 else LowFirst(s[..|s| - 1]) + Digit(s[|s| - 1]) * Pow16(|s| - 1)
  }

  function Reverse(s: string): (r: string)
    ensures |r| == |s| && forall i :: 0 <= i < |s| ==> r[i] == s[|s| - 1 - i]
  {
    if s == [] then [] else [s[|s| - 1]] + Reverse(s[..|s| - 1])
  }

  lemma {:induction false} ReverseDenotes(s: string)
    ensures Num(Reverse(s)) == LowFirst(s)
    decreases |s|
  {
    if s != [] {
      ReverseDenotes(s[..|s| - 1]);
      NumFront(Reverse(s));
      assert Reverse(s)[1..] == Reverse(s[..|s| - 1]);
    }
  }

  lemma Carry(r: nat, p: nat)
    ensures (r % 16) * p + (r / 16) * (16 * p) == r * p
  {
    assert r == r % 16 + 16 * (r / 16);
    assert r * p == (r % 16) * p + 16 * (r / 16) * p;
  }

  /** One more column of an addition, with operand digits a and b, carry c and place value p. */
  lemma AddColumn(low: nat, a: nat, b: nat, c: nat, p: nat, x: nat, y: nat)
    requires low + c * p == x + y
    ensures low + ((a + b + c) % 16) * p + ((a + b + c) / 16) * (16 * p) == (a * p + x) + (b * p + y)
  {
    Carry(a + b + c, p);
    assert (a + b + c) * p == a * p + b * p + c * p;
  }

  /** The columns in which both operands have a digit; h1 is not longer than h2. */
  method AddColumns(h1: string, h2: string) returns (res: string, c: nat)
    requires IsHex(h1) && IsHex(h2) && |h1| <= |h2|
    ensures |res| == |h1| && IsHex(res) && c <= 1
    ensures LowFirst(res) + c * Pow16(|res|) == Num(h1) + Num(h2[|h2| - |h1|..])
  {
    var df := |h2| - |h1|;
    res, c := [], 0;
    var i := |h1|;
    while i > 0
      invariant 0 <= i <= |h1| && |res| == |h1| - i && IsHex(res) && c <= 1
      invariant LowFirst(res) + c * Pow16(|res|) == Num(h1[i..]) + Num(h2[i + df..])
    {
      hide Num, LowFirst, Pow16;
      i := i - 1;
      var r := Digit(h1[i]) + Digit(h2[i + df]) + c;
      BothDigits(h1, h2, i, df, res, c);
      res := res + [DigitChar(r % 16)];
      c := r / 16;
    }
    assert h1[0..] == h1;
  }

  /** The columns in which only h2 has a digit. */
  method AddRest(h2: string, df: nat, low: string, carry: nat, ghost h1: string) returns (res: string, c: nat)
    requires IsHex(h2) && IsHex(low) && carry <= 1 && |low| + df == |h2|
    requires LowFirst(low) + carry * Pow16(|low|) == Num(h1) + Num(h2[df..])
    ensures |res| == |h2| && IsHex(res) && c <= 1
    ensures LowFirst(res) + c * Pow16(|res|) == Num(h1) + Num(h2)
  {
    res, c := low, carry;
    var i := df;
    while i > 0
      invariant 0 <= i <= df && |res| == |h2| - i && IsHex(res) && c <= 1
      invariant LowFirst(res) + c * Pow16(|res|) == Num(h1) + Num(h2[i..])
    {
      hide Num, LowFirst, Pow16;
      i := i - 1;
      var r := Digit(h2[i]) + c;
      NextDigit(h2, i, |res|);
      NextColumn(res, c, 0, Digit(h2[i]), Num(h1), Num(h2[i + 1..]));
      res := res + [DigitChar(r % 16)];
      c := r / 16;
    }
    assert h2[0..] == h2;
  }

  /** A carry is left exactly when the sum has no room. */
  lemma CarryIff(res: string, c: nat)
    ensures c > 0 <==> LowFirst(res) + c * Pow16(|res|) >= Pow16(|res|)
  {
    ReverseDenotes(res);
    NumBound(Reverse(res));
    if c > 0 {
      MulMonotone(0, c, Pow16(|res|));
    }
  }

  lemma CarryDigit(res: string, c: nat)
    requires IsHex(res) && c <= 1
    ensures c == 0 ==> Num(Reverse(res)) == LowFirst(res) + c * Pow16(|res|)
    ensures c > 0 ==> Num(Reverse(res + [DigitChar(c)])) == LowFirst(res) + c * Pow16(|res|)
  {
    hide Num, LowFirst, Pow16, Reverse, IsHex;
    if c == 0 {
      ReverseDenotes(res);
    } else {
      Appended(res, DigitChar(c));
      ReverseDenotes(res + [DigitChar(c)]);
    }
  }

  /** hs_add: school addition of two hexadecimal strings of any lengths. */
  method HsAdd(first: string, second: string) returns (sum: string)
    requires IsHex(first) && IsHex(second)
    ensures IsHex(sum) && Num(sum) == Num(first) + Num(second)
    ensures var longest := if |first| > |second| then |first| else |second|; longest <= |sum| <= longest + 1
    ensures |first| < |sum| && |second| < |sum| <==>
            Num(first) + Num(second) >= Pow16(if |first| > |second| then |first| else |second|)
  {
    var h1, h2 := first, second;
    if |h1| > |h2| {
      h1, h2 := h2, h1;
    }
    sum := AddShorter(h1, h2);
  }

  /** The operands in order of their lengths. */
  method AddShorter(h1: string, h2: string) returns (sum: string)
    requires IsHex(h1) && IsHex(h2) && |h1| <= |h2|
    ensures IsHex(sum) && Num(sum) == Num(h1) + Num(h2) && |h2| <= |sum| <= |h2| + 1
    ensures |h2| < |sum| <==> Num(h1) + Num(h2) >= Pow16(|h2|)
  {
    var res, c := AddColumns(h1, h2);
    res, c := AddRest(h2, |h2| - |h1|, res, c, h1);
    CarryIff(res, c);
    CarryDigit(res, c);
    hide Pow16, Num, LowFirst;
    if c > 0 {
      res := res + [DigitChar(c)];
    }
    sum := Reverse(res);
  }

  /** The digit at i has k digits behind it. */
  lemma NextDigit(s: string, i: nat, k: nat)
    requires i + k + 1 == |s|
    ensures Num(s[i..]) == Digit(s[i]) * Pow16(k) + Num(s[i + 1..])
  {
    NumFront(s[i..]);
    assert s[i..][1..] == s[i + 1..];
  }

  lemma NextColumn(res: string, c: nat, a: nat, b: nat, x: nat, y: nat)
    requires LowFirst(res) + c * Pow16(|res|) == x + y
    ensures var r, p := a + b + c, Pow16(|res|);
            LowFirst(res + [DigitChar(r % 16)]) + (r / 16) * Pow16(|res| + 1) == (a * p + x) + (b * p + y)
  {
    AddColumn(LowFirst(res), a, b, c, Pow16(|res|), x, y);
    Appended(res, DigitChar((a + b + c) % 16));
  }

  /** One column of the two-operand loop. */
  lemma BothDigits(h1: string, h2: string, i: nat, df: nat, res: string, c: nat)
    requires i < |h1| && |h2| == |h1| + df && |res| == |h1| - i - 1
    requires LowFirst(res) + c * Pow16(|res|) == Num(h1[i + 1..]) + Num(h2[i + 1 + df..])
    ensures var r := Digit(h1[i]) + Digit(h2[i + df]) + c;
            LowFirst(res + [DigitChar(r % 16)]) + (r / 16) * Pow16(|res| + 1) == Num(h1[i..]) + Num(h2[i + df..])
  {
    hide Num, LowFirst, Pow16;
    NextDigit(h1, i, |res|);
    NextDigit(h2, i + df, |res|);
    NextColumn(res, c, Digit(h1[i]), Digit(h2[i + df]), Num(h1[i + 1..]), Num(h2[i + 1 + df..]));
  }

  lemma Appended(s: string, c: char)
    ensures LowFirst(s + [c]) == LowFirst(s) + Digit(c) * Pow16(|s|)
  {
    assert (s + [c])[..|s|] == s;
  }

  // ----- the last digits -----

  lemma {:induction false} NumConcat(s: string, t: string)
    ensures Num(s + t) == Num(s) * Pow16(|t|) + Num(t)
    decreases |t|
  {
    if t == [] {
      assert s + t == s;
    } else {
      assert (s + t)[..|s + t| - 1] == s + t[..|t| - 1];
      NumConcat(s, t[..|t| - 1]);
      PowerSplit(Num(s), Pow16(|t| - 1), Num(t[..|t| - 1]));
    }
  }

  /** Keeping the last k digits is reduction modulo 16^k. */
  lemma LastDigits(s: string, k: nat)
    requires k <= |s|
    ensures Num(s[|s| - k..]) == Num(s) % Pow16(k)
  {
    var high, low := s[..|s| - k], s[|s| - k..];
    assert s == high + low;
    NumConcat(high, low);
    NumBound(low);
    hide Num, Pow16;
    QuotientIs(Num(s), Pow16(k), Num(high), Num(low));
  }

  /** A single digit d with k zeros behind it and any number in front. */
  lemma {:induction false} SingleDigit(zeros: nat, d: char, k: nat)
    requires IsDigit(d)
    ensures Num(seq(zeros, i => '0') + [d] + seq(k, i => '0')) == Digit(d) * Pow16(k)
  {
    ZerosDenote(zeros);
    ZerosDenote(k);
    NumConcat(seq(zeros, i => '0'), [d]);
    NumConcat(seq(zeros, i => '0') + [d], seq(k, i => '0'));
    assert Num([d]) == Digit(d) by {
      assert [d][..0] == [];
    }
  }

  lemma {:induction false} ZerosDenote(k: nat)
    ensures Num(seq(k, i => '0')) == 0
    decreases k
  {
    if k > 0 {
      ZerosDenote(k - 1);
      assert seq(k, i => '0')[..k - 1] == seq(k - 1, i => '0');
    }
  }
}
