/**
  The three case-number formatters outside the search services: the shared
  `onlyDigits`/`toFormattedCNJ` helpers, the Datajud mapper's
  `normalizeCNJ` (formats when it can, otherwise keeps the bare digits) and
  the PDPJ client's `normalizeCNJ` (formats or refuses). All three lay a
  number out as in Art. 1 of CNJ Resolution 65/2008 and agree on every
  20-digit input.
 */
module CnjFormatters {
  import opened Js
  import opened CnjNumber

  // ---------------------------------------------------------------------
  // dist/lib/cnj.js

  /** `onlyDigits(s = "")`: the digits of `String(s)`; an absent argument is "". */
  function OnlyDigits(s: Json): (r: string)
    ensures AllDigits(r)
    ensures s.Undefined? ==> r == ""
  {
    if s.Undefined? then "" else Digits(JsString(s))
  }

  /** Keeping the digits of a digit string changes nothing. */
  lemma OnlyDigitsIdempotent(s: Json)
    ensures OnlyDigits(Str(OnlyDigits(s))) == OnlyDigits(s)
  {
    if !s.Undefined? {
      DigitsOfDigits(JsString(s));
    }
  }

  /** `toFormattedCNJ(s = "")` */
  function ToFormattedCnj(s: Json): (r: Option<string>)
    ensures r.Some? <==> |OnlyDigits(s)| == 20
    ensures r.Some? ==> IsFormatted(r.value)
  {
    var d := OnlyDigits(s);
    if |d| != 20 then None else Some(Format(d))
  }

  /** The formatted number keeps the digits it was made from. */
  lemma ToFormattedKeepsDigits(s: Json)
    requires ToFormattedCnj(s).Some?
    ensures OnlyDigits(Str(ToFormattedCnj(s).value)) == OnlyDigits(s)
  {
    var d := OnlyDigits(s);
    DigitsOfAllDigits(d);
  }

  // ---------------------------------------------------------------------
  // src/services/processes.js

  /** `normalizeCNJ(s)` of the Datajud mapper, for a string argument: ""
      for "", the layout for exactly 20 digits, the bare digits otherwise. */
  function NormalizeCnjDatajud(s: string): (r: string)
    ensures s == "" ==> r == ""
    ensures |Digits(s)| == 20 ==> IsFormatted(r)
    ensures |Digits(s)| != 20 ==> r == Digits(s)
  {
    if s == "" then ""
    else
      var digits := Digits(s);
      if |digits| == 20 then Format(digits) else digits
  }

  /** Whatever the input, the digits of the output are the digits of the input. */
  lemma NormalizeCnjDatajudKeepsDigits(s: string)
    ensures Digits(NormalizeCnjDatajud(s)) == Digits(s)
  {
    DigitsOfDigits(s);
  }

  /** Normalising twice is normalising once. */
  lemma NormalizeCnjDatajudIdempotent(s: string)
    ensures NormalizeCnjDatajud(NormalizeCnjDatajud(s)) == NormalizeCnjDatajud(s)
  {
    NormalizeCnjDatajudKeepsDigits(s);
    var r := NormalizeCnjDatajud(s);
    if |Digits(s)| == 20 {
      var zeros := "00000000000000000000";
      assert AllDigits(zeros);
      FormatRoundTrip(zeros, r);
    } else if s != "" {
      DigitsOfDigits(s);
    }
  }

  // ---------------------------------------------------------------------
  // src/services/pdpjClient.ts

  /** `normalizeCNJ(value)` of the PDPJ client. */
  function NormalizeCnjPdpj(value: Json): (r: Option<string>)
    ensures value.Undefined? || value.Null? ==> r.None?
    ensures r.Some? <==> !value.Undefined? && !value.Null? && |Digits(JsString(value))| == 20
    ensures r.Some? ==> |r.value| == 25 && IsFormatted(r.value)
  {
    if value.Undefined? || value.Null? then None
    else
      var digits := Digits(JsString(value));
      if |digits| != 20 then None
      else Some(digits[..7] + "-" + digits[7..9] + "." + digits[9..13] + "." + digits[13..14] + "." + digits[14..16] + "." + digits[16..])
  }

  /** Removing the separators from the PDPJ layout gives the digits back. */
  lemma NormalizeCnjPdpjKeepsDigits(value: Json)
    requires NormalizeCnjPdpj(value).Some?
    ensures Digits(NormalizeCnjPdpj(value).value) == Digits(JsString(value))
  {
    var digits := Digits(JsString(value));
    FormatKeepsDigits(digits);
    DigitsOfAllDigits(digits);
  }

  /** On a number of 20 digits the three formatters write the same text. */
  lemma FormattersAgree(s: string)
    requires |Digits(s)| == 20
    ensures NormalizeCnjPdpj(Str(s)) == ToFormattedCnj(Str(s)) == Some(NormalizeCnjDatajud(s))
  {
  }
}
