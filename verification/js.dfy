/**
  The JavaScript values and string primitives that the services are written
  against: dynamic request bodies (`unknown`), truthiness, `String(v)`,
  `trim`, case mapping, `replace(/\D+/g, "")`, `includes`, `join` and
  `split` with a regular expression.
 */
module Js {

  datatype Option<+T> = None | Some(value: T)

  /** A value or a thrown `Error` with its message. */
  datatype Result<+T> = Ok(value: T) | Err(message: string)

  /** A JavaScript number. Only integral finite values are represented. */
  datatype Number = Finite(n: int) | NaN | PosInf | NegInf

  /** A JavaScript value as it arrives in a parsed JSON body or a driver row. */
  datatype Json =
    | Undefined
    | Null
    | Bool(b: bool)
    | Num(num: Number)
    | Str(s: string)
    | Arr(items: seq<Json>)
    | Obj(fields: map<string, Json>)

  /** `!!v` */
  predicate Truthy(v: Json) {
    match v
    case Undefined => false
    case Null => false
    case Bool(b) => b
    case Num(n) => n != Finite(0) && n != NaN
    case Str(s) => s != ""
    case Arr(_) => true
    case Obj(_) => true
  }

  /** `a || b` */
  function Or(a: Json, b: Json): (r: Json)
    ensures Truthy(r) <==> Truthy(a) || Truthy(b)
    ensures Truthy(a) ==> r == a
  {
    if Truthy(a) then a else b
  }

  /** `v?.[key]`: a missing key, and any non-object, give `undefined`. */
  function Get(v: Json, key: string): Json {
    if v.Obj? && key in v.fields then v.fields[key] else Undefined
  }

  /** Optional-string shortcut: `typeof v === "string" ? v : null`. */
  function AsString(v: Json): Option<string> {
    if v.Str? then Some(v.s) else None
  }

  // ---------------------------------------------------------------------
  // Characters

  /** The characters `String.prototype.trim` and the regex class `\s` remove:
      WhiteSpace and LineTerminator of ECMA-262. */
  predicate IsSpace(c: char) {
    || c == '\t' || c == '\n' || c == '\U{B}' || c == '\U{C}' || c == '\r' || c == ' '
    || c == '\U{A0}' || c == '\U{1680}' || ('\U{2000}' <= c <= '\U{200A}')
    || c == '\U{2028}' || c == '\U{2029}' || c == '\U{202F}' || c == '\U{205F}'
    || c == '\U{3000}' || c == '\U{FEFF}'
  }

  /** `\d` */
  predicate IsDigit(c: char) {
    '0' <= c <= '9'
  }

  /** `toLowerCase` on one character: ASCII and the Latin-1 letters. */
  function LowerChar(c: char): (r: char)
    ensures IsSpace(r) <==> IsSpace(c)
    ensures IsDigit(r) <==> IsDigit(c)
  {
    if 'A' <= c <= 'Z' || ('\U{C0}' <= c <= '\U{DE}' && c != '\U{D7}') then
      (c as int + 32) as char
    else c
  }

  /** `toUpperCase` on one character: ASCII and the Latin-1 letters. */
  function UpperChar(c: char): (r: char)
    ensures IsSpace(r) <==> IsSpace(c)
    ensures IsDigit(r) <==> IsDigit(c)
  {
    if 'a' <= c <= 'z' || ('\U{E0}' <= c <= '\U{FE}' && c != '\U{F7}') then
      (c as int - 32) as char
    else c
  }

  function ToLower(s: string): (r: string)
    ensures |r| == |s|
    ensures forall i :: 0 <= i < |s| ==> r[i] == LowerChar(s[i])
  {
    seq(|s|, i requires 0 <= i < |s| => LowerChar(s[i]))
  }

  function ToUpper(s: string): (r: string)
    ensures |r| == |s|
    ensures forall i :: 0 <= i < |s| ==> r[i] == UpperChar(s[i])
  {
    seq(|s|, i requires 0 <= i < |s| => UpperChar(s[i]))
  }

  lemma LowerIdempotent(s: string)
    ensures ToLower(ToLower(s)) == ToLower(s)
  {
  }

  lemma UpperIdempotent(s: string)
    ensures ToUpper(ToUpper(s)) == ToUpper(s)
  {
  }

  /** Upper-casing maps white space to white space only, so a trimmed
      string stays trimmed. */
  lemma UpperKeepsTrimmed(s: string)
    requires IsTrimmed(s)
    ensures IsTrimmed(ToUpper(s))
  {
  }

  /** No element occurs twice. */
  predicate Distinct<T(==)>(s: seq<T>) {
    forall i, j :: 0 <= i < j < |s| ==> s[i] != s[j]
  }

  // ---------------------------------------------------------------------
  // trim

  /** Where `s.trim()` starts: the first non-space at or after `i`, or
      the end of `s`. */
  function TrimLo(s: string, i: nat): (r: nat)
    requires i <= |s|
    ensures i <= r <= |s|
    decreases |s| - i
  {
    if i < |s| && IsSpace(s[i]) then TrimLo(s, i + 1) else i
  }

  /** Where `s.trim()` ends: one past the last non-space before `j`, but
      not before `lo`. */
  function TrimHi(s: string, lo: nat, j: nat): (r: nat)
    requires lo <= j <= |s|
    ensures lo <= r <= j
    decreases j
  {
    if j > lo && IsSpace(s[j - 1]) then TrimHi(s, lo, j - 1) else j
  }

  /** What `TrimLo` skips is white space, and it stops on a non-space. */
  lemma {:induction false} TrimLoSpaces(s: string, i: nat)
    requires i <= |s|
    ensures forall k :: i <= k < TrimLo(s, i) ==> IsSpace(s[k])
    ensures TrimLo(s, i) < |s| ==> !IsSpace(s[TrimLo(s, i)])
    decreases |s| - i
  {
    if i < |s| && IsSpace(s[i]) {
      TrimLoSpaces(s, i + 1);
    }
  }

  /** What `TrimHi` skips is white space, and it stops after a non-space. */
  lemma {:induction false} TrimHiSpaces(s: string, lo: nat, j: nat)
    requires lo <= j <= |s|
    ensures forall k :: TrimHi(s, lo, j) <= k < j ==> IsSpace(s[k])
    ensures TrimHi(s, lo, j) > lo ==> !IsSpace(s[TrimHi(s, lo, j) - 1])
    decreases j
  {
    if j > lo && IsSpace(s[j - 1]) {
      TrimHiSpaces(s, lo, j - 1);
    }
  }

  /** Where `s.trim()` starts inside `s`. */
  function TrimOffset(s: string): nat
  {
    TrimLo(s, 0)
  }

  /** `s.trim()` */
  function Trim(s: string): string {
    s[TrimLo(s, 0)..TrimHi(s, TrimLo(s, 0), |s|)]
  }

  /** A string is trimmed when it neither starts nor ends with white space. */
  predicate IsTrimmed(s: string) {
    s == [] || (!IsSpace(s[0]) && !IsSpace(s[|s| - 1]))
  }

  /** `s.trim()` is the largest infix of `s` without white space at either
      end; it is empty exactly when `s` is all white space. */
  lemma TrimSpec(s: string)
    ensures IsTrimmed(Trim(s))
    ensures |Trim(s)| <= |s|
    ensures TrimOffset(s) + |Trim(s)| <= |s|
    ensures Trim(s) == s[TrimOffset(s)..TrimOffset(s) + |Trim(s)|]
    ensures Trim(s) == [] <==> forall i :: 0 <= i < |s| ==> IsSpace(s[i])
  {
    var lo := TrimLo(s, 0);
    TrimLoSpaces(s, 0);
    TrimHiSpaces(s, lo, |s|);
  }

  /** Every non-space character of `s` lies inside `s.trim()`. */
  lemma TrimKeeps(s: string, k: nat)
    requires k < |s| && !IsSpace(s[k])
    ensures TrimOffset(s) <= k < TrimOffset(s) + |Trim(s)|
    ensures Trim(s)[k - TrimOffset(s)] == s[k]
  {
    TrimLoSpaces(s, 0);
    TrimHiSpaces(s, TrimLo(s, 0), |s|);
  }

  lemma TrimOfTrimmed(s: string)
    requires IsTrimmed(s)
    ensures Trim(s) == s
  {
  }

  lemma TrimIdempotent(s: string)
    ensures Trim(Trim(s)) == Trim(s)
  {
    TrimSpec(s);
    TrimOfTrimmed(Trim(s));
  }

  /** `Boolean(s.trim())` */
  predicate IsBlank(s: string) {
    Trim(s) == []
  }

  // ---------------------------------------------------------------------
  // Digits, numbers and String(v)

  /** `s.replace(/\D+/g, "")`: the digits of `s`, in order. */
  function Digits(s: string): (r: string)
    ensures |r| <= |s|
    ensures forall i :: 0 <= i < |r| ==> IsDigit(r[i])
  {
    if s == [] then []
    else if IsDigit(s[0]) then [s[0]] + Digits(s[1..])
    else Digits(s[1..])
  }

  lemma {:induction false} DigitsOfAllDigits(s: string)
    requires forall i :: 0 <= i < |s| ==> IsDigit(s[i])
    ensures Digits(s) == s
  {
    if s != [] {
      DigitsOfAllDigits(s[1..]);
    }
  }

  lemma DigitsOfDigits(s: string)
    ensures Digits(Digits(s)) == Digits(s)
  {
    DigitsOfAllDigits(Digits(s));
  }

  lemma {:induction false} DigitsAppend(a: string, b: string)
    ensures Digits(a + b) == Digits(a) + Digits(b)
  {
    if a == [] {
      assert a + b == b;
    } else {
      assert (a + b)[1..] == a[1..] + b;
      DigitsAppend(a[1..], b);
    }
  }

  function DigitChar(d: nat): char
    requires d < 10
  {
    "0123456789"[d]
  }

  /** Decimal notation of a natural number, as `String(n)` prints it. */
  function NatToString(n: nat): (r: string)
    ensures |r| >= 1
    ensures forall i :: 0 <= i < |r| ==> IsDigit(r[i])
    decreases n
  {
    if n < 10 then [DigitChar(n)] else NatToString(n / 10) + [DigitChar(n % 10)]
  }

  /** Distinct numbers print differently. */
  lemma {:induction false} NatToStringInjective(m: nat, n: nat)
    requires NatToString(m) == NatToString(n)
    ensures m == n
    decreases m
  {
    var r := NatToString(m);
    if m >= 10 && n >= 10 {
      assert r[..|r| - 1] == NatToString(m / 10) == NatToString(n / 10);
      NatToStringInjective(m / 10, n / 10);
      assert DigitChar(m % 10) == r[|r| - 1] == DigitChar(n % 10);
    } else if m < 10 && n < 10 {
      assert DigitChar(m) == r[0] == DigitChar(n);
    } else {
      assert false;
    }
  }

  function IntToString(n: int): string {
    if n < 0 then "-" + NatToString(-n) else NatToString(n)
  }

  /** `String(v)` (an array prints its items joined with commas, with
      `null` and `undefined` items printed empty). */
  function JsString(v: Json): string
    decreases v, 1
  {
    match v
    case Undefined => "undefined"
    case Null => "null"
    case Bool(b) => if b then "true" else "false"
    case Num(n) =>
      (match n
       case Finite(k) => IntToString(k)
       case NaN => "NaN"
       case PosInf => "Infinity"
       case NegInf => "-Infinity")
    case Str(s) => s
    case Arr(items) => JoinJson(items, ",", v)
    case Obj(_) => "[object Object]"
  }

  /** `items.join(sep)`, with `null`/`undefined` items printed empty. */
  function JoinJson(items: seq<Json>, sep: string, ghost parent: Json): string
    requires forall x :: x in items ==> x < parent
    decreases parent, 0, |items|
  {
    if items == [] then ""
    else
      assert items[0] in items;
      var head := if items[0].Undefined? || items[0].Null? then "" else JsString(items[0]);
      assert forall x :: x in items[1..] ==> x in items;
      if |items| == 1 then head else head + sep + JoinJson(items[1..], sep, parent)
  }

  // ---------------------------------------------------------------------
  // Searching

  /** `s.startsWith(p)` */
  predicate StartsWith(s: string, p: string) {
    |p| <= |s| && s[..|p|] == p
  }

  /** `s.endsWith(t)` */
  predicate EndsWith(s: string, t: string) {
    |t| <= |s| && s[|s| - |t|..] == t
  }

  /** A prefix of a prefix is a prefix, and a suffix of a suffix a suffix. */
  lemma AffixTransitive(s: string, mid: string, t: string)
    ensures StartsWith(s, mid) && StartsWith(mid, t) ==> StartsWith(s, t)
    ensures EndsWith(s, mid) && EndsWith(mid, t) ==> EndsWith(s, t)
  {
    if StartsWith(s, mid) && StartsWith(mid, t) {
      assert s[..|t|] == mid[..|t|];
    }
    if EndsWith(s, mid) && EndsWith(mid, t) {
      assert s[|s| - |t|..] == mid[|mid| - |t|..];
    }
  }

  /** `s.includes(sub)` */
  predicate Contains(s: string, sub: string)
    decreases |s|
  {
    StartsWith(s, sub) || (s != [] && Contains(s[1..], sub))
  }

  lemma {:induction false} ContainsAt(s: string, sub: string, i: nat)
    requires i + |sub| <= |s| && s[i..i + |sub|] == sub
    ensures Contains(s, sub)
    decreases i
  {
    if i > 0 {
      assert s[1..][i - 1..i - 1 + |sub|] == sub;
      ContainsAt(s[1..], sub, i - 1);
    }
  }

  /** `includes` finds an occurrence at some position. */
  lemma {:induction false} ContainsWitness(s: string, sub: string) returns (i: nat)
    requires Contains(s, sub)
    ensures i + |sub| <= |s| && s[i..i + |sub|] == sub
    decreases |s|
  {
    if StartsWith(s, sub) {
      i := 0;
    } else {
      var j := ContainsWitness(s[1..], sub);
      assert s[1..][j..j + |sub|] == s[j + 1..j + 1 + |sub|];
      i := j + 1;
    }
  }

  lemma ContainsAppend(s: string, sub: string, t: string)
    requires Contains(s, sub)
    ensures Contains(s + t, sub)
  {
    var i := ContainsWitness(s, sub);
    assert (s + t)[i..i + |sub|] == s[i..i + |sub|];
    ContainsAt(s + t, sub, i);
  }

  lemma ContainsSuffix(s: string, sub: string)
    ensures Contains(s + sub, sub)
  {
    assert (s + sub)[|s|..|s| + |sub|] == sub;
    ContainsAt(s + sub, sub, |s|);
  }

  lemma ContainsPrepend(t: string, s: string, sub: string)
    requires Contains(s, sub)
    ensures Contains(t + s, sub)
  {
    var i := ContainsWitness(s, sub);
    assert (t + s)[|t| + i..|t| + i + |sub|] == s[i..i + |sub|];
    ContainsAt(t + s, sub, |t| + i);
  }

  /** A string that starts with `h + sub` contains `sub`. */
  lemma StartsWithContains(s: string, h: string, sub: string)
    requires StartsWith(s, h + sub)
    ensures Contains(s, sub)
  {
    assert s[|h|..|h| + |sub|] == (h + sub)[|h|..];
    ContainsAt(s, sub, |h|);
  }

  /** A string containing `mid` contains everything `mid` contains. */
  lemma ContainsTransitive(s: string, mid: string, sub: string)
    requires Contains(s, mid) && Contains(mid, sub)
    ensures Contains(s, sub)
  {
    var i := ContainsWitness(s, mid);
    var j := ContainsWitness(mid, sub);
    forall k | 0 <= k < |sub| ensures s[i + j + k] == sub[k] {
      assert s[i..i + |mid|][j + k] == mid[j + k];
      assert mid[j..j + |sub|][k] == sub[k];
    }
    assert s[i + j..i + j + |sub|] == sub;
    ContainsAt(s, sub, i + j);
  }

  /** `s.includes(c)` for one character. */
  lemma {:induction false} ContainsChar(s: string, c: char)
    ensures Contains(s, [c]) <==> c in s
    decreases |s|
  {
    if s != [] {
      ContainsChar(s[1..], c);
      assert s == [s[0]] + s[1..];
    }
  }

  // ---------------------------------------------------------------------
  // join and split

  /** `parts.join(sep)` */
  function Join(parts: seq<string>, sep: string): string {
    if parts == [] then ""
    else if |parts| == 1 then parts[0]
    else parts[0] + sep + Join(parts[1..], sep)
  }

  /** Every part occurs in the joined string. */
  lemma {:induction false} ContainsJoinPart(parts: seq<string>, sep: string, i: nat)
    requires i < |parts|
    ensures Contains(Join(parts, sep), parts[i])
  {
    if |parts| == 1 || i == 0 {
      assert Join(parts, sep)[0..|parts[0]|] == parts[0];
      ContainsAt(Join(parts, sep), parts[0], 0);
    } else {
      ContainsJoinPart(parts[1..], sep, i - 1);
      assert Join(parts, sep) == (parts[0] + sep) + Join(parts[1..], sep);
      ContainsPrepend(parts[0] + sep, Join(parts[1..], sep), parts[i]);
    }
  }

  /** Every character of a joined string comes from a part or from the separator. */
  lemma {:induction false} JoinChars(parts: seq<string>, sep: string)
    ensures forall x :: x in Join(parts, sep) ==> x in sep || exists p :: p in parts && x in p
  {
    if |parts| > 1 {
      JoinChars(parts[1..], sep);
      assert forall p :: p in parts[1..] ==> p in parts;
      assert parts[0] in parts;
    } else if |parts| == 1 {
      assert parts[0] in parts;
    }
  }

  /** `s.split(c)` for a one-character string separator; `cur` is the piece read so far. */
  function SplitOnFrom(s: string, c: char, cur: string): (r: seq<string>)
    ensures |r| >= 1
    decreases |s|
  {
    if s == [] then [cur]
    else if s[0] == c then [cur] + SplitOnFrom(s[1..], c, [])
    else SplitOnFrom(s[1..], c, cur + [s[0]])
  }

  function SplitOn(s: string, c: char): (r: seq<string>)
    ensures |r| >= 1
  {
    SplitOnFrom(s, c, [])
  }

  /** Joining the pieces of a split with the same separator gives the text back. */
  lemma {:induction false} JoinSplitOnFrom(s: string, c: char, cur: string)
    ensures Join(SplitOnFrom(s, c, cur), [c]) == cur + s
    decreases |s|
  {
    if s == [] {
    } else if s[0] == c {
      JoinSplitOnFrom(s[1..], c, []);
      assert s == [c] + s[1..];
    } else {
      JoinSplitOnFrom(s[1..], c, cur + [s[0]]);
      assert cur + [s[0]] + s[1..] == cur + s;
    }
  }

  lemma JoinSplitOn(s: string, c: char)
    ensures Join(SplitOn(s, c), [c]) == s
  {
    JoinSplitOnFrom(s, c, []);
  }

  /** Characters other than the separator only extend the current piece. */
  lemma {:induction false} SplitOnPlain(w: string, t: string, c: char, cur: string)
    requires c !in w
    ensures SplitOnFrom(w + t, c, cur) == SplitOnFrom(t, c, cur + w)
    decreases |w|
  {
    if w == [] {
      assert w + t == t && cur + w == cur;
    } else {
      assert (w + t)[0] == w[0] && (w + t)[1..] == w[1..] + t;
      SplitOnPlain(w[1..], t, c, cur + [w[0]]);
      assert cur + [w[0]] + w[1..] == cur + w;
    }
  }

  /** Splitting a join of separator-free parts gives the parts back. */
  lemma {:induction false} SplitOnJoinFrom(parts: seq<string>, c: char, cur: string)
    requires |parts| >= 1
    requires forall p :: p in parts ==> c !in p
    ensures SplitOnFrom(Join(parts, [c]), c, cur) == [cur + parts[0]] + parts[1..]
  {
    assert parts[0] in parts;
    if |parts| == 1 {
      SplitOnPlain(parts[0], [], c, cur);
      assert parts[0] + [] == parts[0];
    } else {
      var rest := Join(parts[1..], [c]);
      assert Join(parts, [c]) == parts[0] + ([c] + rest);
      SplitOnPlain(parts[0], [c] + rest, c, cur);
      assert ([c] + rest)[1..] == rest;
      assert forall p :: p in parts[1..] ==> p in parts;
      SplitOnJoinFrom(parts[1..], c, []);
      assert [] + parts[1..][0] == parts[1];
      assert [parts[1]] + parts[1..][1..] == parts[1..];
    }
  }

  lemma SplitOnJoin(parts: seq<string>, c: char)
    requires |parts| >= 1
    requires forall p :: p in parts ==> c !in p
    ensures SplitOn(Join(parts, [c]), c) == parts
  {
    SplitOnJoinFrom(parts, c, []);
    assert [] + parts[0] == parts[0];
    assert [parts[0]] + parts[1..] == parts;
  }

  /** A piece holds characters of the current piece or non-separator characters of the text. */
  lemma {:induction false} SplitOnChars(s: string, c: char, cur: string)
    ensures forall p, x :: p in SplitOnFrom(s, c, cur) && x in p ==> x in cur || (x in s && x != c)
    decreases |s|
  {
    if s != [] {
      if s[0] == c {
        SplitOnChars(s[1..], c, []);
      } else {
        SplitOnChars(s[1..], c, cur + [s[0]]);
      }
      assert forall x :: x in s[1..] ==> x in s;
    }
  }

  /** A matcher that matches exactly one character `c` wherever `c` occurs
      in `s`, and nothing elsewhere, splits `s` like the string `c`. */
  lemma {:induction false} SplitAsSplitOn(s: string, m: string -> nat, c: char, cur: string)
    requires forall i :: 0 <= i < |s| ==> m(s[i..]) == (if s[i] == c then 1 else 0)
    ensures SplitFrom(s, m, cur) == SplitOnFrom(s, c, cur)
    decreases |s|
  {
    if s != [] {
      assert s[0..] == s;
      forall i | 0 <= i < |s[1..]| ensures m(s[1..][i..]) == (if s[1..][i] == c then 1 else 0) {
        assert s[1..][i..] == s[i + 1..];
      }
      if s[0] == c {
        SplitAsSplitOn(s[1..], m, c, []);
      } else {
        SplitAsSplitOn(s[1..], m, c, cur + [s[0]]);
      }
    }
  }

  /**
    `s.split(re)` for a regular expression that never matches the empty
    string: `m(t)` is the length of the match of `re` anchored at the head
    of `t`, 0 when there is none. `cur` is the piece read so far.
   */
  function SplitFrom(s: string, m: string -> nat, cur: string): (r: seq<string>)
    ensures |r| >= 1
    decreases |s|
  {
    if s == [] then [cur]
    else
      var k := m(s);
      if 0 < k <= |s| then [cur] + SplitFrom(s[k..], m, "")
      else SplitFrom(s[1..], m, cur + [s[0]])
  }

  function Split(s: string, m: string -> nat): (r: seq<string>)
    ensures |r| >= 1
  {
    SplitFrom(s, m, "")
  }

  /** The head-matcher of a one-character class, `/[...]/`. */
  ghost predicate MatchesClassChar(m: string -> nat, cls: char -> bool) {
    forall t: string {:trigger m(t)} :: |t| > 0 && cls(t[0]) ==> 0 < m(t) <= |t|
  }

  /** When every character of a class starts a separator, no piece of the
      split contains a character of that class. */
  lemma {:induction false} SplitPiecesAvoidClass(s: string, m: string -> nat, cls: char -> bool, cur: string)
    requires MatchesClassChar(m, cls)
    requires forall c :: c in cur ==> !cls(c)
    ensures forall p, c :: p in SplitFrom(s, m, cur) && c in p ==> !cls(c)
    decreases |s|
  {
    if s != [] {
      var k := m(s);
      if 0 < k <= |s| {
        SplitPiecesAvoidClass(s[k..], m, cls, "");
      } else {
        assert !cls(s[0]);
        SplitPiecesAvoidClass(s[1..], m, cls, cur + [s[0]]);
      }
    }
  }

  /** Reading characters that start no separator only extends the current piece. */
  lemma {:induction false} SplitFromPlain(w: string, t: string, m: string -> nat, cur: string)
    requires forall i :: 0 <= i < |w| ==> !(0 < m(w[i..] + t) <= |w[i..] + t|)
    ensures SplitFrom(w + t, m, cur) == SplitFrom(t, m, cur + w)
    decreases |w|
  {
    if w != [] {
      assert w[0..] + t == w + t;
      assert (w + t)[1..] == w[1..] + t;
      forall i | 0 <= i < |w[1..]| ensures !(0 < m(w[1..][i..] + t) <= |w[1..][i..] + t|) {
        assert w[1..][i..] == w[i + 1..];
      }
      SplitFromPlain(w[1..], t, m, cur + [w[0]]);
      assert cur + [w[0]] + w[1..] == cur + w;
    } else {
      assert w + t == t && cur + w == cur;
    }
  }

  /** The loop `for (const x of xs) { const y = f(x); if (y) out.push(y); }`:
      the defined images, in order. */
  function FilterMap<A, B>(f: A -> Option<B>, xs: seq<A>): (r: seq<B>)
    ensures |r| <= |xs|
  {
    if xs == [] then []
    else
      var rest := FilterMap(f, xs[1..]);
      match f(xs[0])
      case Some(y) => [y] + rest
      case None => rest
  }

  lemma {:induction false} FilterMapAppend<A, B>(f: A -> Option<B>, a: seq<A>, b: seq<A>)
    ensures FilterMap(f, a + b) == FilterMap(f, a) + FilterMap(f, b)
  {
    if a == [] {
      assert a + b == b;
    } else {
      assert (a + b)[1..] == a[1..] + b;
      FilterMapAppend(f, a[1..], b);
    }
  }

  lemma FilterMapSingle<A, B>(f: A -> Option<B>, x: A)
    ensures FilterMap(f, [x]) == (if f(x).Some? then [f(x).value] else [])
  {
    assert [x][1..] == [];
  }

  /** One more element of a prefix: its image, if defined, joins the output. */
  lemma FilterMapSnoc<A, B>(f: A -> Option<B>, xs: seq<A>, i: nat)
    requires i < |xs|
    ensures FilterMap(f, xs[..i + 1]) == FilterMap(f, xs[..i]) + (if f(xs[i]).Some? then [f(xs[i]).value] else [])
  {
    assert xs[..i + 1] == xs[..i] + [xs[i]];
    FilterMapAppend(f, xs[..i], [xs[i]]);
    FilterMapSingle(f, xs[i]);
  }

  /** Every output is the image of some input, and every defined image is output. */
  lemma {:induction false} FilterMapMembers<A, B>(f: A -> Option<B>, xs: seq<A>)
    ensures forall y :: y in FilterMap(f, xs) <==> exists x :: x in xs && f(x) == Some(y)
  {
    if xs != [] {
      FilterMapMembers(f, xs[1..]);
      assert forall x :: x in xs <==> x == xs[0] || x in xs[1..];
    }
  }

  /** `parts.map((p) => p.trim())` */
  function TrimAll(parts: seq<string>): (r: seq<string>)
    ensures |r| == |parts|
    ensures forall i :: 0 <= i < |r| ==> r[i] == Trim(parts[i])
  {
    seq(|parts|, i requires 0 <= i < |parts| => Trim(parts[i]))
  }

  /** `parts.filter(Boolean)` over strings: the non-empty parts, in order. */
  function NonEmpty(parts: seq<string>): (r: seq<string>)
    ensures |r| <= |parts|
    ensures forall p :: p in r <==> p in parts && p != ""
  {
    if parts == [] then []
    else if parts[0] == "" then NonEmpty(parts[1..])
    else [parts[0]] + NonEmpty(parts[1..])
  }

  /** Filtering parts that are all non-empty keeps every one of them. */
  lemma {:induction false} NonEmptyAll(parts: seq<string>)
    requires forall p :: p in parts ==> p != ""
    ensures NonEmpty(parts) == parts
  {
    if parts != [] {
      assert parts[0] in parts;
      assert forall p :: p in parts[1..] ==> p in parts;
      NonEmptyAll(parts[1..]);
    }
  }

  /** `s.split(re).map((p) => p.trim()).filter(Boolean)`, the idiom every
      list-valued request field goes through. */
  function SplitTrimmed(s: string, m: string -> nat): (r: seq<string>)
    ensures forall p :: p in r ==> p != "" && IsTrimmed(p)
  {
    var r := NonEmpty(TrimAll(Split(s, m)));
    assert forall p :: p in r ==> p != "" && IsTrimmed(p) by {
      forall p | p in r ensures p != "" && IsTrimmed(p) {
        var i :| 0 <= i < |TrimAll(Split(s, m))| && TrimAll(Split(s, m))[i] == p;
        TrimSpec(Split(s, m)[i]);
      }
    }
    r
  }

  lemma TrimAvoidsClass(p: string, cls: char -> bool)
    requires forall c :: c in p ==> !cls(c)
    ensures forall c :: c in Trim(p) ==> !cls(c)
  {
    TrimSpec(p);
    var j := TrimOffset(p);
    forall c | c in Trim(p) ensures !cls(c) {
      var k :| 0 <= k < |Trim(p)| && Trim(p)[k] == c;
      assert c == p[j + k];
    }
  }

  /** Every item of a split-trim-filter chain is free of the separator class. */
  lemma SplitTrimmedAvoidsClass(s: string, m: string -> nat, cls: char -> bool)
    requires MatchesClassChar(m, cls)
    ensures forall p, c :: p in SplitTrimmed(s, m) && c in p ==> !cls(c)
  {
    var pieces := Split(s, m);
    SplitPiecesAvoidClass(s, m, cls, "");
    var trimmed := TrimAll(pieces);
    forall i | 0 <= i < |trimmed| ensures forall c :: c in trimmed[i] ==> !cls(c) {
      assert pieces[i] in pieces;
      TrimAvoidsClass(pieces[i], cls);
    }
    assert forall p :: p in SplitTrimmed(s, m) ==> p in trimmed;
  }
}
