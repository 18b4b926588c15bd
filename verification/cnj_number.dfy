/**
  The unified case number of Art. 1 of CNJ Resolution 65/2008,
  `NNNNNNN-DD.AAAA.J.TR.OOOO`: 20 digits laid out as 7-2.4.1.2.4.
  Every formatter of the services produces this layout; none of them checks
  the DD check digits.
 */
module CnjNumber {
  import opened Js

  predicate AllDigits(s: string) {
    forall i :: 0 <= i < |s| ==> IsDigit(s[i])
  }

  /** Positions of the five separators in the 25-character layout. */
  predicate IsSeparatorPosition(i: int) {
    i == 7 || i == 10 || i == 15 || i == 17 || i == 20
  }

  /** The layout `NNNNNNN-DD.AAAA.J.TR.OOOO`. */
  predicate IsFormatted(r: string) {
    && |r| == 25
    && r[7] == '-' && r[10] == '.' && r[15] == '.' && r[17] == '.' && r[20] == '.'
    && forall i :: 0 <= i < 25 && !IsSeparatorPosition(i) ==> IsDigit(r[i])
  }

  /** `$1-$2.$3.$4.$5.$6` over the groups 7, 2, 4, 1, 2, 4 of a 20-character string. */
  function Format(d: string): (r: string)
    requires |d| == 20
    ensures |r| == 25
    ensures AllDigits(d) ==> IsFormatted(r)
    ensures Digits(r) == Digits(d)
  {
    var r := d[..7] + "-" + d[7..9] + "." + d[9..13] + "." + d[13..14] + "." + d[14..16] + "." + d[16..];
    FormatKeepsDigits(d);
    r
  }

  lemma DigitsSkip(x: string, c: char, y: string)
    requires !IsDigit(c)
    ensures Digits(x + [c] + y) == Digits(x) + Digits(y)
  {
    DigitsAppend(x + [c], y);
    DigitsAppend(x, [c]);
    assert Digits([c]) == [];
  }

  /** The separators of the layout hold no digit. */
  lemma DigitsOfLayout(a: string, b: string, c: string, e: string, f: string, g: string)
    ensures Digits(a + "-" + b + "." + c + "." + e + "." + f + "." + g)
         == Digits(a) + Digits(b) + Digits(c) + Digits(e) + Digits(f) + Digits(g)
  {
    var p2 := a + "-" + b;
    var p4 := p2 + "." + c;
    var p6 := p4 + "." + e;
    var p8 := p6 + "." + f;
    DigitsSkip(a, '-', b);
    DigitsSkip(p2, '.', c);
    DigitsSkip(p4, '.', e);
    DigitsSkip(p6, '.', f);
    DigitsSkip(p8, '.', g);
  }

  lemma DigitsOfSix(a: string, b: string, c: string, e: string, f: string, g: string)
    ensures Digits(a + b + c + e + f + g)
         == Digits(a) + Digits(b) + Digits(c) + Digits(e) + Digits(f) + Digits(g)
  {
    DigitsAppend(a, b);
    DigitsAppend(a + b, c);
    DigitsAppend(a + b + c, e);
    DigitsAppend(a + b + c + e, f);
    DigitsAppend(a + b + c + e + f, g);
  }

  lemma FormatKeepsDigits(d: string)
    requires |d| == 20
    ensures Digits(d[..7] + "-" + d[7..9] + "." + d[9..13] + "." + d[13..14] + "." + d[14..16] + "." + d[16..])
         == Digits(d)
  {
    var a, b, c, e, f, g := d[..7], d[7..9], d[9..13], d[13..14], d[14..16], d[16..];
    DigitsOfLayout(a, b, c, e, f, g);
    DigitsOfSix(a, b, c, e, f, g);
    assert a + b + c + e + f + g == d;
  }

  /** Formatting and stripping are inverse: the digits of a formatted
      number are the 20 digits it was made from, and a number in the layout
      is the formatting of its own digits. */
  lemma {:induction false} FormatRoundTrip(d: string, r: string)
    requires |d| == 20 && AllDigits(d)
    requires IsFormatted(r)
    ensures Digits(Format(d)) == d
    ensures |Digits(r)| == 20 && Format(Digits(r)) == r
  {
    DigitsOfAllDigits(d);
    var plain := r[..7] + r[8..10] + r[11..15] + r[16..17] + r[18..20] + r[21..];
    assert |plain| == 20;
    assert AllDigits(plain) by {
      forall i | 0 <= i < 20 ensures IsDigit(plain[i]) {
        var j := if i < 7 then i else if i < 9 then i + 1 else if i < 13 then i + 2
                 else if i < 14 then i + 3 else if i < 16 then i + 4 else i + 5;
        assert plain[i] == r[j];
        assert !IsSeparatorPosition(j);
      }
    }
    assert Format(plain) == r by {
      assert plain[..7] == r[..7] && plain[7..9] == r[8..10] && plain[9..13] == r[11..15];
      assert plain[13..14] == r[16..17] && plain[14..16] == r[18..20] && plain[16..] == r[21..];
      assert r == r[..7] + [r[7]] + r[8..10] + [r[10]] + r[11..15] + [r[15]] + r[16..17] + [r[17]] + r[18..20] + [r[20]] + r[21..];
    }
    DigitsOfAllDigits(plain);
  }
}
