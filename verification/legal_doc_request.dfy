/**
  Reading the untyped body of a document-generation request: trimmed text
  fields, the kind of filing, the list of parties and the list of attached
  documents.
 */
module LegalDocRequest {
  import opened Js
  import opened LegalDocTemplates

  /** `sanitizeText(value)`: a string with something besides white space,
      trimmed; `null` for anything else. */
  function SanitizeText(v: Json): (r: Option<string>)
    ensures r.Some? <==> v.Str? && !IsBlank(v.s)
    ensures r.Some? ==> r.value == Trim(v.s) && r.value != [] && IsTrimmed(r.value)
  {
    if v.Str? && Trim(v.s) != [] then
      TrimSpec(v.s);
      Some(Trim(v.s))
    else None
  }

  /** Sanitizing a sanitized text changes nothing. */
  lemma SanitizeTextIdempotent(v: Json)
    requires SanitizeText(v).Some?
    ensures SanitizeText(Str(SanitizeText(v).value)) == SanitizeText(v)
  {
    TrimIdempotent(v.s);
  }

  /** `parseTipoPeca(value)`: the trimmed text when it names a template. */
  function ParseTipoPeca(v: Json): (r: Option<TipoPeca>)
    ensures r.Some? <==> v.Str? && exists t :: Name(t) == Trim(v.s)
    ensures r.Some? ==> Name(r.value) == Trim(v.s)
  {
    match SanitizeText(v)
    case None => None
    case Some(text) => ParseName(text)
  }

  datatype Papel = Autor | Reu | Terceiro

  /** A party as the generator receives it; `qualificacao` is left out of
      the record when the request gives none. */
  datatype Parte = Parte(nome: string, papel: Papel, qualificacao: Option<string>)

  function PapelName(p: Papel): string {
    match p
    case Autor => "autor"
    case Reu => "reu"
    case Terceiro => "terceiro"
  }

  /** The accepted roles; every other text is refused. */
  function ParsePapel(s: Option<string>): (r: Option<Papel>)
    ensures r.Some? <==> s.Some? && s.value in {"autor", "reu", "terceiro"}
    ensures r.Some? ==> PapelName(r.value) == s.value
  {
    if s == Some("autor") then Some(Autor)
    else if s == Some("reu") then Some(Reu)
    else if s == Some("terceiro") then Some(Terceiro)
    else None
  }

  /** `typeof item === "object"` for a truthy item. */
  predicate IsObjectLike(v: Json) {
    v.Obj? || v.Arr?
  }

  /** One item of the `partes` array: kept when it is an object with a
      non-blank `nome` and an accepted `papel`. */
  function ParteOf(item: Json): (r: Option<Parte>)
    ensures r.Some? <==>
      && Truthy(item) && IsObjectLike(item)
      && SanitizeText(Get(item, "nome")).Some?
      && ParsePapel(SanitizeText(Get(item, "papel"))).Some?
    ensures r.Some? ==> r.value.nome == SanitizeText(Get(item, "nome")).value
    ensures r.Some? ==> PapelName(r.value.papel) == SanitizeText(Get(item, "papel")).value
    ensures r.Some? ==> r.value.qualificacao == SanitizeText(Get(item, "qualificacao"))
  {
    if !Truthy(item) || !IsObjectLike(item) then None
    else
      var nome := SanitizeText(Get(item, "nome"));
      var papel := ParsePapel(SanitizeText(Get(item, "papel")));
      var qualificacao := SanitizeText(Get(item, "qualificacao"));
      if nome.None? then None
      else if papel.None? then None
      else Some(Parte(nome.value, papel.value, qualificacao))
  }

  /** A party is well formed when its texts are non-empty and trimmed. */
  predicate WellFormed(p: Parte) {
    && p.nome != [] && IsTrimmed(p.nome)
    && (p.qualificacao.Some? ==> p.qualificacao.value != [] && IsTrimmed(p.qualificacao.value))
  }

  /** The parties kept are exactly the images of acceptable items, and
      every one of them is well formed. */
  lemma PartesSound(items: seq<Json>)
    ensures forall p :: p in FilterMap(ParteOf, items) <==> exists x :: x in items && ParteOf(x) == Some(p)
    ensures forall p :: p in FilterMap(ParteOf, items) ==> WellFormed(p)
  {
    FilterMapMembers(ParteOf, items);
  }

  /** `parsePartes(raw)`: every acceptable item of an array, in order;
      nothing for a value that is not an array. */
  method ParsePartes(raw: Json) returns (partes: seq<Parte>)
    ensures partes == (if raw.Arr? then FilterMap(ParteOf, raw.items) else [])
  {
    partes := [];
    if !raw.Arr? {
      return;
    }
    var items := raw.items;
    for i := 0 to |items|
      invariant partes == FilterMap(ParteOf, items[..i])
    {
      var parte := ParteOf(items[i]);
      FilterMapSnoc(ParteOf, items, i);
      if parte.Some? {
        partes := partes + [parte.value];
      }
    }
    assert items[..|items|] == items;
  }

  /** The head-matcher of `/\r?\n|,/`. */
  function DocumentSeparator(t: string): nat {
    if |t| >= 2 && t[0] == '\r' && t[1] == '\n' then 2
    else if t != [] && (t[0] == '\n' || t[0] == ',') then 1
    else 0
  }

  predicate IsDocumentSeparatorChar(c: char) {
    c == '\n' || c == ','
  }

  /** The documents named by a truthy request field, before the empty
      list is turned into `undefined`. */
  function DocumentsOf(raw: Json): seq<string> {
    if raw.Arr? then FilterMap(SanitizeText, raw.items)
    else if raw.Str? then SplitTrimmed(raw.s, DocumentSeparator)
    else []
  }

  /** Every document name is non-blank and trimmed; one read from a text
      holds neither a line break nor a comma. */
  lemma DocumentsShape(raw: Json)
    ensures forall p :: p in DocumentsOf(raw) ==> p != [] && IsTrimmed(p)
    ensures raw.Str? ==> forall p, c :: p in DocumentsOf(raw) && c in p ==> !IsDocumentSeparatorChar(c)
  {
    if raw.Arr? {
      FilterMapMembers(SanitizeText, raw.items);
    } else if raw.Str? {
      assert MatchesClassChar(DocumentSeparator, IsDocumentSeparatorChar);
      SplitTrimmedAvoidsClass(raw.s, DocumentSeparator, IsDocumentSeparatorChar);
    }
  }

  /** `normalizeDocumentList(raw)`: the non-blank trimmed names, from an
      array or from a text with one name per line or comma; `undefined`
      when none remain. */
  method NormalizeDocumentList(raw: Json) returns (r: Option<seq<string>>)
    ensures r.Some? <==> Truthy(raw) && DocumentsOf(raw) != []
    ensures r.Some? ==> r.value == DocumentsOf(raw)
    ensures r.Some? ==> forall p :: p in r.value ==> p != [] && IsTrimmed(p)
    ensures r.Some? && raw.Str? ==> forall p, c :: p in r.value && c in p ==> !IsDocumentSeparatorChar(c)
  {
    if !Truthy(raw) {
      return None;
    }
    var list: seq<string> := [];
    if raw.Arr? {
      var items := raw.items;
      for i := 0 to |items|
        invariant list == FilterMap(SanitizeText, items[..i])
      {
        var text := SanitizeText(items[i]);
        FilterMapSnoc(SanitizeText, items, i);
        if text.Some? {
          list := list + [text.value];
        }
      }
      assert items[..|items|] == items;
    } else if raw.Str? {
      list := SplitTrimmed(raw.s, DocumentSeparator);
    }
    assert list == DocumentsOf(raw);
    DocumentsShape(raw);
    if list == [] {
      return None;
    }
    return Some(list);
  }
}
