/**
  The Datajud configuration's `parseAliases`: the list of tribunal index
  aliases read from one environment value, written either as a JSON array
  or as names separated by newlines, commas, semicolons or white space.
  `JSON.parse` is a parameter (`None` where it throws).
 */
module DatajudConfig {
  import opened Js

  /** The class `[\n,;\s]`. */
  predicate IsAliasSeparator(c: char) {
    c == '\n' || c == ',' || c == ';' || IsSpace(c)
  }

  /** The head-matcher of `/[\n,;\s]+/`: the length of the leading run of
      separator characters. */
  function SeparatorRun(t: string): (r: nat)
    ensures r <= |t|
    ensures r == 0 <==> t == [] || !IsAliasSeparator(t[0])
    ensures forall i :: 0 <= i < r ==> IsAliasSeparator(t[i])
  {
    if t != [] && IsAliasSeparator(t[0]) then 1 + SeparatorRun(t[1..]) else 0
  }

  /** `typeof value === "string" ? value.trim() : String(value || "").trim()` */
  function AliasText(value: Json): (r: string)
    ensures IsTrimmed(r)
  {
    TrimSpec(JsString(Or(value, Str(""))));
    if value.Str? then
      TrimSpec(value.s);
      Trim(value.s)
    else Trim(JsString(Or(value, Str(""))))
  }

  function AliasTexts(items: seq<Json>): (r: seq<string>)
    ensures |r| == |items|
    ensures forall i :: 0 <= i < |items| ==> r[i] == AliasText(items[i])
  {
    seq(|items|, i requires 0 <= i < |items| => AliasText(items[i]))
  }

  /** `parseAliases(raw)` */
  function ParseAliases(raw: Json, parseJson: string -> Option<Json>): (r: seq<string>)
    ensures !Truthy(raw) ==> r == []
    ensures Truthy(raw) && IsBlank(JsString(raw)) ==> r == []
    ensures forall a :: a in r ==> a != "" && IsTrimmed(a)
  {
    if !Truthy(raw) then []
    else
      var input := Trim(JsString(raw));
      if input == "" then []
      else
        var parsed := parseJson(input);
        if parsed.Some? && parsed.value.Arr? then NonEmpty(AliasTexts(parsed.value.items))
        else SplitTrimmed(input, SeparatorRun)
  }

  /** A JSON array gives exactly its non-blank stringified, trimmed
      elements; anything else is split on runs of separators, and no entry
      then holds a separator character. */
  lemma ParseAliasesSpec(raw: Json, parseJson: string -> Option<Json>)
    requires Truthy(raw) && !IsBlank(JsString(raw))
    ensures var input := Trim(JsString(raw));
      var parsed := parseJson(input);
      && (parsed.Some? && parsed.value.Arr? ==>
            forall a :: a in ParseAliases(raw, parseJson) <==>
              a != "" && exists i :: 0 <= i < |parsed.value.items| && AliasText(parsed.value.items[i]) == a)
      && (!(parsed.Some? && parsed.value.Arr?) ==>
            ParseAliases(raw, parseJson) == SplitTrimmed(input, SeparatorRun)
            && forall a, c :: a in ParseAliases(raw, parseJson) && c in a ==> !IsAliasSeparator(c))
  {
    var input := Trim(JsString(raw));
    var parsed := parseJson(input);
    if parsed.Some? && parsed.value.Arr? {
      var texts := AliasTexts(parsed.value.items);
      forall a ensures a in texts <==> exists i :: 0 <= i < |parsed.value.items| && AliasText(parsed.value.items[i]) == a {
        if a in texts {
          var i :| 0 <= i < |texts| && texts[i] == a;
        }
      }
    } else {
      assert MatchesClassChar(SeparatorRun, IsAliasSeparator);
      SplitTrimmedAvoidsClass(input, SeparatorRun, IsAliasSeparator);
    }
  }
}
