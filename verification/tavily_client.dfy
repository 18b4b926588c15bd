/**
  What the case-tracking services read out of web-search results: the
  unified case numbers mentioned in a result, with the court and the other
  fields its metadata gives, and the dated movements listed in its text.
  The search itself is a parameter: the functions here take the answer it
  gave, or the error its request raised, which they pass on.
 */
module TavilyClient {
  import opened Js
  import opened CnjNumber

  /** `FoundProcess` */
  datatype FoundProcess = FoundProcess(
    numeroCnj: string,
    tribunal: string,
    orgao: Option<string>,
    classe: Option<string>,
    assunto: Option<string>)

  /** `FoundMovement` */
  datatype FoundMovement = FoundMovement(data: string, orgao: Option<string>, descricao: string)

  /** `TavilyResultItem`: the text fields and the two free-form records. */
  datatype ResultItem = ResultItem(
    title: Option<string>,
    content: Option<string>,
    snippet: Option<string>,
    url: Option<string>,
    publishedDate: Option<string>,
    metadata: Json,
    attributes: Json)

  /** `TavilySearchResponse`: `None` for a field that is not an array. */
  datatype SearchResponse = SearchResponse(results: Option<seq<ResultItem>>, hits: Option<seq<ResultItem>>)

  // ---------------------------------------------------------------------
  // Small readers

  /** `normalizeCnj(value)`: the digits of `value` when there are exactly 20. */
  function NormalizeCnj(value: string): (r: Option<string>)
    ensures r.Some? <==> |Digits(value)| == 20
    ensures r.Some? ==> r.value == Digits(value) && AllDigits(r.value)
  {
    var digits := Digits(value);
    if |digits| != 20 then None else Some(digits)
  }

  /** `getStringField(source, key)`: a text entry, trimmed, unless it is blank. */
  function GetStringField(source: Json, key: string): (r: Option<string>)
    ensures r.Some? <==> Get(source, key).Str? && !IsBlank(Get(source, key).s)
    ensures r.Some? ==> r.value == Trim(Get(source, key).s)
  {
    var value := Get(source, key);
    if value.Str? && Trim(value.s) != [] then Some(Trim(value.s)) else None
  }

  /** A text field counts when it is present and not empty. */
  predicate Given(s: Option<string>) {
    s.Some? && s.value != ""
  }

  /** `a || b` over optional texts. */
  function OrElse(a: Option<string>, b: Option<string>): Option<string> {
    if Given(a) then a else b
  }

  function GivenText(s: Option<string>): Option<string> {
    if Given(s) then s else None
  }

  /** `[item.title, item.content, item.snippet].filter(Boolean).join(" \n")` */
  function ItemText(item: ResultItem): string {
    Join(FilterMap(GivenText, [item.title, item.content, item.snippet]), " \n")
  }

  /** `extractResults(data)`: a non-empty `results`, else a non-empty `hits`, else nothing. */
  function ExtractResults(data: SearchResponse): (r: seq<ResultItem>)
    ensures data.results.Some? && data.results.value != [] ==> r == data.results.value
    ensures !(data.results.Some? && data.results.value != []) && data.hits.Some? && data.hits.value != [] ==> r == data.hits.value
    ensures r == [] <==> (data.results.None? || data.results.value == []) && (data.hits.None? || data.hits.value == [])
  {
    if data.results.Some? && |data.results.value| > 0 then data.results.value
    else if data.hits.Some? && |data.hits.value| > 0 then data.hits.value
    else []
  }

  // ---------------------------------------------------------------------
  // Case numbers in a result

  /** The head-matcher of `/(\d{7}-\d{2}\.\d{4}\.\d\.\d{2}\.\d{4})|(\d{20})/`:
      the formatted number first, then 20 bare digits. */
  function CnjMatchAt(t: string): (k: nat)
    ensures k == 0 || k == 20 || k == 25
    ensures k <= |t|
    ensures k == 25 ==> IsFormatted(t[..25])
    ensures k == 20 ==> AllDigits(t[..20])
  {
    if |t| >= 25 && IsFormatted(t[..25]) then 25
    else if |t| >= 20 && AllDigits(t[..20]) then 20
    else 0
  }

  /** Every match of the global expression, left to right, each search
      resuming after the previous match. */
  function CnjMatches(t: string): (r: seq<string>)
    decreases |t|
  {
    if t == [] then []
    else
      var k := CnjMatchAt(t);
      if k > 0 then [t[..k]] + CnjMatches(t[k..]) else CnjMatches(t[1..])
  }

  /** A match holds exactly 20 digits. */
  lemma MatchHasTwentyDigits(t: string)
    requires CnjMatchAt(t) > 0
    ensures NormalizeCnj(t[..CnjMatchAt(t)]).Some?
  {
    var m := t[..CnjMatchAt(t)];
    if |m| == 25 {
      var zeros := "00000000000000000000";
      assert AllDigits(zeros);
      FormatRoundTrip(zeros, m);
    } else {
      DigitsOfAllDigits(m);
    }
  }

  /** Every match holds exactly 20 digits. */
  lemma {:induction false} MatchesHaveTwentyDigits(t: string)
    ensures forall m :: m in CnjMatches(t) ==> NormalizeCnj(m).Some?
    decreases |t|
  {
    if t != [] {
      var k := CnjMatchAt(t);
      if k > 0 {
        MatchesHaveTwentyDigits(t[k..]);
        MatchHasTwentyDigits(t);
      } else {
        MatchesHaveTwentyDigits(t[1..]);
      }
    }
  }

  /** `matches.add(x)` for each `x` in turn, on a set that keeps insertion order. */
  function AddAll(acc: seq<string>, xs: seq<string>): (r: seq<string>)
    decreases |xs|
  {
    if xs == [] then acc
    else AddAll(if xs[0] in acc then acc else acc + [xs[0]], xs[1..])
  }

  /** Adding to a set in insertion order yields each value once, and exactly
      the values added. */
  lemma {:induction false} AddAllSpec(acc: seq<string>, xs: seq<string>)
    requires Distinct(acc)
    ensures Distinct(AddAll(acc, xs))
    ensures forall x :: x in AddAll(acc, xs) <==> x in acc || x in xs
    ensures |AddAll(acc, xs)| >= |acc| && AddAll(acc, xs)[..|acc|] == acc
    decreases |xs|
  {
    if xs != [] {
      var next := if xs[0] in acc then acc else acc + [xs[0]];
      assert Distinct(next);
      AddAllSpec(next, xs[1..]);
      assert forall x :: x in xs <==> x == xs[0] || x in xs[1..];
      assert next[..|acc|] == acc;
    }
  }

  /** The normalised numbers of the matches, in order. */
  function MatchedNumbers(text: string): seq<string> {
    FilterMap(NormalizeCnj, CnjMatches(text))
  }

  /** The numbers a result mentions, each once, in order of first mention. */
  function DistinctNumbers(text: string): seq<string> {
    AddAll([], MatchedNumbers(text))
  }

  /** The court of a result: metadata, then attributes, then what the URL
      tells (`inferTribunalFromUrl`, a parameter), then `DESCONHECIDO`. */
  function TribunalOf(item: ResultItem, fromUrl: Option<string> -> Option<string>): (r: string)
    ensures GetStringField(item.metadata, "tribunal").Some? ==> r == GetStringField(item.metadata, "tribunal").value
    ensures GetStringField(item.metadata, "tribunal").None? && GetStringField(item.attributes, "tribunal").Some? ==>
      r == GetStringField(item.attributes, "tribunal").value
    ensures GetStringField(item.metadata, "tribunal").None? && GetStringField(item.attributes, "tribunal").None? ==>
      r == (if Given(fromUrl(item.url)) then fromUrl(item.url).value else "DESCONHECIDO")
    ensures r != ""
  {
    var fromMetadata := match GetStringField(item.metadata, "tribunal")
      case Some(t) => Some(t)
      case None => GetStringField(item.attributes, "tribunal");
    OrElse(OrElse(fromMetadata, fromUrl(item.url)), Some("DESCONHECIDO")).value
  }

  /** `getStringField(item.metadata, key) ?? getStringField(item.attributes, key)` */
  function FieldOf(item: ResultItem, key: string): Option<string> {
    match GetStringField(item.metadata, key)
    case Some(v) => Some(v)
    case None => GetStringField(item.attributes, key)
  }

  /** `collectProcessesFromResult(item)` as a value. */
  function ProcessesOf(item: ResultItem, fromUrl: Option<string> -> Option<string>): seq<FoundProcess> {
    var numbers := DistinctNumbers(ItemText(item));
    if numbers == [] then []
    else
      var tribunal := TribunalOf(item, fromUrl);
      seq(|numbers|, i requires 0 <= i < |numbers| =>
        FoundProcess(numbers[i], tribunal, FieldOf(item, "orgao"), FieldOf(item, "classe"), FieldOf(item, "assunto")))
  }

  /** The processes of a result have distinct 20-digit numbers, each one
      mentioned in the result, and share the result's court. */
  lemma ProcessesOfSpec(item: ResultItem, fromUrl: Option<string> -> Option<string>)
    ensures var ps := ProcessesOf(item, fromUrl);
      && (forall i, j :: 0 <= i < j < |ps| ==> ps[i].numeroCnj != ps[j].numeroCnj)
      && (forall p :: p in ps ==> |p.numeroCnj| == 20 && AllDigits(p.numeroCnj) && p.tribunal == TribunalOf(item, fromUrl))
      && (forall n :: n in MatchedNumbers(ItemText(item)) <==> exists p :: p in ps && p.numeroCnj == n)
  {
    var text := ItemText(item);
    var numbers := DistinctNumbers(text);
    AddAllSpec([], MatchedNumbers(text));
    FilterMapMembers(NormalizeCnj, CnjMatches(text));
    var ps := ProcessesOf(item, fromUrl);
    forall p | p in ps ensures |p.numeroCnj| == 20 && AllDigits(p.numeroCnj) {
      var i :| 0 <= i < |ps| && ps[i] == p;
      assert numbers[i] in MatchedNumbers(text);
    }
    forall n | n in MatchedNumbers(text) ensures exists p :: p in ps && p.numeroCnj == n {
      var i :| 0 <= i < |numbers| && numbers[i] == n;
      assert ps[i] in ps;
    }
  }

  /** One `exec` of the loop: the match at `i`, if any, is added to the set,
      and the search resumes after it (or one character on). */
  lemma CollectStep(text: string, i: nat, matches: seq<string>)
    requires i < |text|
    ensures var k := CnjMatchAt(text[i..]);
      var n := NormalizeCnj(text[i..i + k]);
      var next := if k > 0 && n.Some? && n.value !in matches then matches + [n.value] else matches;
      var j := if k > 0 then i + k else i + 1;
      j <= |text| &&
      AddAll(matches, FilterMap(NormalizeCnj, CnjMatches(text[i..])))
        == AddAll(next, FilterMap(NormalizeCnj, CnjMatches(text[j..])))
  {
    var k := CnjMatchAt(text[i..]);
    if k > 0 {
      var raw := text[i..i + k];
      assert text[i..][..k] == raw;
      assert text[i..][k..] == text[i + k..];
      FilterMapAppend(NormalizeCnj, [raw], CnjMatches(text[i + k..]));
      FilterMapSingle(NormalizeCnj, raw);
    } else {
      assert text[i..][1..] == text[i + 1..];
    }
  }

  /** The `exec` loop of the global expression over a text, collecting
      each normalised number once. */
  method CollectNumbers(text: string) returns (matches: seq<string>)
    ensures matches == DistinctNumbers(text)
  {
    matches := [];
    var i := 0;
    while i < |text|
      invariant 0 <= i <= |text|
      invariant AddAll(matches, FilterMap(NormalizeCnj, CnjMatches(text[i..]))) == DistinctNumbers(text)
      decreases |text| - i
    {
      var k := CnjMatchAt(text[i..]);
      CollectStep(text, i, matches);
      if k > 0 {
        var normalized := NormalizeCnj(text[i..i + k]);
        if normalized.Some? && normalized.value !in matches {
          matches := matches + [normalized.value];
        }
        i := i + k;
      } else {
        i := i + 1;
      }
    }
    assert text[i..] == [];
  }

  /** `collectProcessesFromResult(item)`: the numbers of the result's text,
      each with the result's court and fields. */
  method CollectProcessesFromResult(item: ResultItem, fromUrl: Option<string> -> Option<string>)
    returns (found: seq<FoundProcess>)
    ensures found == ProcessesOf(item, fromUrl)
  {
    var matches := CollectNumbers(ItemText(item));
    if |matches| == 0 {
      return [];
    }
    var tribunal := TribunalOf(item, fromUrl);
    var orgao, classe, assunto := FieldOf(item, "orgao"), FieldOf(item, "classe"), FieldOf(item, "assunto");
    found := seq(|matches|, j requires 0 <= j < |matches| => FoundProcess(matches[j], tribunal, orgao, classe, assunto));
  }


  // ---------------------------------------------------------------------
  // Movements in a result

  /** The number of leading characters of the `\s` class. */
  function SpaceRun(t: string): (k: nat)
    ensures k <= |t|
  {
    if t != [] && IsSpace(t[0]) then 1 + SpaceRun(t[1..]) else 0
  }

  /** The head-matcher of `/\r?\n|\s{2,}|-\s+/`, alternatives in order,
      each repetition greedy. */
  function LineSep(t: string): (k: nat)
    ensures k <= |t|
  {
    if |t| >= 2 && t[0] == '\r' && t[1] == '\n' then 2
    else if |t| >= 1 && t[0] == '\n' then 1
    else if |t| >= 2 && IsSpace(t[0]) && IsSpace(t[1]) then SpaceRun(t)
    else if |t| >= 2 && t[0] == '-' && IsSpace(t[1]) then 1 + SpaceRun(t[1..])
    else 0
  }

  predicate IsNewline(c: char) {
    c == '\n'
  }

  /** The lines of a text: `split(/\r?\n|\s{2,}|-\s+/)`, trimmed, blanks dropped. */
  function MovementLines(text: string): seq<string> {
    SplitTrimmed(text, LineSep)
  }

  /** A line holds no line feed and is neither blank nor padded. */
  lemma MovementLinesShape(text: string)
    ensures forall l :: l in MovementLines(text) ==> l != "" && IsTrimmed(l) && '\n' !in l
  {
    assert MatchesClassChar(LineSep, IsNewline) by {
      forall t: string | |t| > 0 && IsNewline(t[0]) ensures 0 < LineSep(t) <= |t| {
      }
    }
    SplitTrimmedAvoidsClass(text, LineSep, IsNewline);
  }

  /** The text of `/(\d{2}\/\d{2}\/\d{4})|(\d{4}-\d{2}-\d{2})/`. */
  predicate IsDateText(w: string)
    requires |w| == 10
  {
    || (IsDigit(w[0]) && IsDigit(w[1]) && w[2] == '/' && IsDigit(w[3]) && IsDigit(w[4]) && w[5] == '/' && AllDigits(w[6..]))
    || (AllDigits(w[..4]) && w[4] == '-' && IsDigit(w[5]) && IsDigit(w[6]) && w[7] == '-' && IsDigit(w[8]) && IsDigit(w[9]))
  }

  predicate DateAt(s: string, j: int) {
    0 <= j && j + 10 <= |s| && IsDateText(s[j..j + 10])
  }

  /** `line.match(dateRe)`: where the leftmost date from `i` on starts. */
  function FirstDateFrom(s: string, i: nat): (r: Option<nat>)
    ensures r.Some? ==> i <= r.value && DateAt(s, r.value)
    ensures forall j :: i <= j && (r.None? || j < r.value) ==> !DateAt(s, j)
    decreases |s| - i
  {
    if i + 10 > |s| then None
    else if DateAt(s, i) then Some(i)
    else FirstDateFrom(s, i + 1)
  }

  function FirstDate(s: string): Option<nat> {
    FirstDateFrom(s, 0)
  }

  predicate OccursAt(s: string, w: string, j: int) {
    0 <= j && j + |w| <= |s| && s[j..j + |w|] == w
  }

  /** `s.indexOf(w, i)` as an option. */
  function IndexOfFrom(s: string, w: string, i: nat): (r: Option<nat>)
    ensures r.Some? ==> i <= r.value && OccursAt(s, w, r.value)
    ensures forall j :: i <= j && (r.None? || j < r.value) ==> !OccursAt(s, w, j)
    decreases |s| - i
  {
    if i + |w| > |s| then None
    else if OccursAt(s, w, i) then Some(i)
    else IndexOfFrom(s, w, i + 1)
  }

  /** `s.replace(w, "")` with a string pattern: the first occurrence goes. */
  function RemoveFirst(s: string, w: string): string {
    match IndexOfFrom(s, w, 0)
    case None => s
    case Some(j) => s[..j] + s[j + |w|..]
  }

  /** Removing the matched date text removes the match itself: an earlier
      copy of the same text would have been an earlier match. */
  lemma DateTextFirstAtMatch(s: string, p: nat)
    requires FirstDate(s) == Some(p)
    ensures IndexOfFrom(s, s[p..p + 10], 0) == Some(p)
    ensures RemoveFirst(s, s[p..p + 10]) == s[..p] + s[p + 10..]
  {
    var w := s[p..p + 10];
    assert OccursAt(s, w, p);
    var r := IndexOfFrom(s, w, 0);
    assert r.Some? && r.value <= p;
    if r.value < p {
      assert s[r.value..r.value + 10] == w;
      assert DateAt(s, r.value);
      assert false;
    }
  }

  /** `Number(s)` for a text of decimal digits. */
  function DecimalValue(s: string): nat
    requires AllDigits(s)
  {
    if s == [] then 0
    else 10 * DecimalValue(s[..|s| - 1]) + (s[|s| - 1] as int - '0' as int)
  }

  /** What `Date` provides: `new Date(year, monthIndex, day).toISOString()`,
      `new Date(text).toISOString()` (`None` for an invalid date), and the
      current instant. */
  datatype Dates = Dates(
    fromParts: (int, int, int) -> Option<string>,
    parse: string -> Option<string>,
    now: string)

  /** The ISO form of a matched date text: a day/month/year text through the
      constructor, with the month counted from zero, anything else parsed. */
  function DateIso(dates: Dates, dateText: string): Option<string>
    requires |dateText| == 10 && IsDateText(dateText)
  {
    if '/' in dateText then
      dates.fromParts(DecimalValue(dateText[6..]), DecimalValue(dateText[3..5]) - 1, DecimalValue(dateText[..2]))
    else dates.parse(dateText)
  }

  function OrDefault(o: Option<string>, d: string): string {
    if o.Some? then o.value else d
  }

  /** One line of `parseMovementLines`: the leftmost date dates it, the rest
      of the line describes it. */
  function MovementOf(dates: Dates, line: string): Option<FoundMovement> {
    match FirstDate(line)
    case None => if line == "" then None else Some(FoundMovement(dates.now, None, line))
    case Some(p) =>
      var dateText := line[p..p + 10];
      var descricao := Trim(RemoveFirst(line, dateText));
      if descricao == "" then None
      else Some(FoundMovement(OrDefault(DateIso(dates, dateText), dates.now), None, descricao))
  }

  function LineMovement(dates: Dates): string -> Option<FoundMovement> {
    line => MovementOf(dates, line)
  }

  /** A line without a date is the description and is dated now; a line with
      one loses exactly its leftmost date, which dates it when it is valid. */
  lemma MovementOfSpec(dates: Dates, line: string)
    ensures FirstDate(line).None? ==> MovementOf(dates, line) == (if line == "" then None else Some(FoundMovement(dates.now, None, line)))
    ensures FirstDate(line).Some? ==>
      var p := FirstDate(line).value;
      var rest := Trim(line[..p] + line[p + 10..]);
      && (MovementOf(dates, line).Some? <==> rest != "")
      && (rest != "" ==> MovementOf(dates, line).value == FoundMovement(OrDefault(DateIso(dates, line[p..p + 10]), dates.now), None, rest))
    ensures MovementOf(dates, line).Some? ==>
      var m := MovementOf(dates, line).value;
      && m.descricao != ""
      && (IsTrimmed(line) ==> IsTrimmed(m.descricao))
      && ('\n' !in line ==> '\n' !in m.descricao)
  {
    match FirstDate(line)
    case None =>
    case Some(p) =>
      DateTextFirstAtMatch(line, p);
      var rest := line[..p] + line[p + 10..];
      TrimSpec(rest);
      if '\n' !in line {
        assert forall c :: c in rest ==> !IsNewline(c) by {
          forall c | c in rest ensures !IsNewline(c) {
            if c in line[..p] {
              assert c in line;
            } else {
              assert c in line[p + 10..];
              assert c in line;
            }
          }
        }
        TrimAvoidsClass(rest, IsNewline);
      }
  }

  /** `parseMovementLines(text)` as a value. */
  function ParsedMovements(dates: Dates, text: string): seq<FoundMovement> {
    FilterMap(LineMovement(dates), MovementLines(text))
  }

  /** Every parsed movement has a one-line description, neither blank nor padded. */
  lemma ParsedMovementsShape(dates: Dates, text: string)
    ensures forall m :: m in ParsedMovements(dates, text) ==>
      m.descricao != "" && IsTrimmed(m.descricao) && '\n' !in m.descricao && m.orgao.None?
  {
    FilterMapMembers(LineMovement(dates), MovementLines(text));
    MovementLinesShape(text);
    forall m | m in ParsedMovements(dates, text)
      ensures m.descricao != "" && IsTrimmed(m.descricao) && '\n' !in m.descricao && m.orgao.None?
    {
      var l :| l in MovementLines(text) && LineMovement(dates)(l) == Some(m);
      MovementOfSpec(dates, l);
    }
  }

  /** `parseMovementLines(text)`: one movement per line that keeps a description. */
  method ParseMovementLines(dates: Dates, text: string) returns (movements: seq<FoundMovement>)
    ensures movements == ParsedMovements(dates, text)
  {
    var lines := MovementLines(text);
    movements := [];
    for i := 0 to |lines|
      invariant movements == FilterMap(LineMovement(dates), lines[..i])
    {
      FilterMapSnoc(LineMovement(dates), lines, i);
      var movement := MovementOf(dates, lines[i]);
      if movement.Some? {
        movements := movements + [movement.value];
      }
    }
    assert lines[..|lines|] == lines;
  }

  /** `collectMovementsFromResult(item)` as a value: the parsed lines, else
      one movement from the first text field, dated by the publication date. */
  function MovementsOf(dates: Dates, item: ResultItem): seq<FoundMovement> {
    var parsed := ParsedMovements(dates, ItemText(item));
    if parsed != [] then parsed
    else
      var published := if Given(item.publishedDate) then dates.parse(item.publishedDate.value) else None;
      var descricao := OrElse(OrElse(item.title, item.content), item.snippet);
      if !Given(descricao) then []
      else [FoundMovement(OrDefault(published, dates.now), None, descricao.value)]
  }

  /** A result yields no movement exactly when it has no text, and every
      movement it yields is described. */
  lemma MovementsOfSpec(dates: Dates, item: ResultItem)
    ensures MovementsOf(dates, item) == [] <==> !Given(item.title) && !Given(item.content) && !Given(item.snippet)
    ensures forall m :: m in MovementsOf(dates, item) ==> m.descricao != "" && m.orgao.None?
  {
    ParsedMovementsShape(dates, ItemText(item));
    if !Given(item.title) && !Given(item.content) && !Given(item.snippet) {
      assert FilterMap(GivenText, [item.title, item.content, item.snippet]) == [] by {
        FilterMapAppend(GivenText, [item.title], [item.content, item.snippet]);
        FilterMapAppend(GivenText, [item.content], [item.snippet]);
        FilterMapSingle(GivenText, item.title);
        FilterMapSingle(GivenText, item.content);
        FilterMapSingle(GivenText, item.snippet);
      }
      assert ItemText(item) == "";
      assert Split("", LineSep) == [""];
      assert Trim("") == "";
      assert MovementLines("") == [];
    }
  }

  /** `collectMovementsFromResult(item)` */
  method CollectMovementsFromResult(dates: Dates, item: ResultItem) returns (movements: seq<FoundMovement>)
    ensures movements == MovementsOf(dates, item)
  {
    var parsed := ParseMovementLines(dates, ItemText(item));
    if |parsed| > 0 {
      return parsed;
    }
    var published := if Given(item.publishedDate) then dates.parse(item.publishedDate.value) else None;
    var fallbackDate := OrDefault(published, dates.now);
    var descricao := OrElse(OrElse(item.title, item.content), item.snippet);
    if !Given(descricao) {
      return [];
    }
    movements := [FoundMovement(fallbackDate, None, descricao.value)];
  }

  // ---------------------------------------------------------------------
  // Searches

  /** `performSearch(query, maxResults)`: nothing without an API key,
      otherwise the error of a failed request, or the results the search
      service answers with. */
  function PerformSearch(configured: bool, search: (string, nat) -> Result<SearchResponse>, query: string, maxResults: nat): (r: Result<seq<ResultItem>>)
    ensures !configured ==> r == Ok([])
    ensures configured && search(query, maxResults).Err? ==> r == Err(search(query, maxResults).message)
    ensures configured && search(query, maxResults).Ok? ==> r == Ok(ExtractResults(search(query, maxResults).value))
    ensures configured && search(query, maxResults).Ok? ==>
      var data := search(query, maxResults).value;
      data.results.Some? && data.results.value != [] ==> r == Ok(data.results.value)
    ensures r.Ok? && r.value != [] ==>
      var data := search(query, maxResults).value;
      && configured && search(query, maxResults).Ok?
      && ((data.results.Some? && r.value == data.results.value) || (data.hits.Some? && r.value == data.hits.value))
    ensures configured && search(query, maxResults).Ok? ==>
      var data := search(query, maxResults).value;
      (r.value == [] <==> (data.results.None? || data.results.value == []) && (data.hits.None? || data.hits.value == []))
  {
    if !configured then Ok([])
    else
      match search(query, maxResults)
      case Err(e) => Err(e)
      case Ok(data) => Ok(ExtractResults(data))
  }

  function LawyerQuery(name: string, oab: string): string {
    "processos em nome de " + name + " " + oab + " em tribunais brasileiros (retorne número CNJ e tribunal)"
  }

  function CaseQuery(numeroCnj: string, tribunal: string): string {
    "ultimas movimentações do processo " + numeroCnj + " no tribunal " + tribunal
  }

  /** The keys of an ordered collection. */
  function KeysOf<T, K>(xs: seq<T>, key: T -> K): (r: seq<K>)
    ensures |r| == |xs|
    ensures forall i :: 0 <= i < |xs| ==> r[i] == key(xs[i])
  {
    seq(|xs|, i requires 0 <= i < |xs| => key(xs[i]))
  }

  /** `xs[i]` is the first element with its key. */
  predicate FirstOfKey<T, K(==)>(xs: seq<T>, key: T -> K, i: int) {
    0 <= i < |xs| && forall j :: 0 <= j < i ==> key(xs[j]) != key(xs[i])
  }

  /** The first element of each key, in order: what a `Map` filled with
      `if (!map.has(key)) map.set(key, x)` holds, and what
      `filter((x, i, self) => i === self.findIndex(same key))` keeps. */
  function KeepFirst<T, K(==)>(xs: seq<T>, key: T -> K): seq<T>
    decreases |xs|
  {
    if xs == [] then []
    else
      var prev := KeepFirst(xs[..|xs| - 1], key);
      var x := xs[|xs| - 1];
      if key(x) in KeysOf(prev, key) then prev else prev + [x]
  }

  lemma KeepFirstSnoc<T, K>(xs: seq<T>, x: T, key: T -> K)
    ensures KeepFirst(xs + [x], key) ==
      (if key(x) in KeysOf(KeepFirst(xs, key), key) then KeepFirst(xs, key) else KeepFirst(xs, key) + [x])
  {
    assert (xs + [x])[..|xs|] == xs;
  }

  /** The kept elements have distinct keys, are exactly the first of each
      key, and every key of the input survives. */
  lemma {:induction false} KeepFirstSpec<T, K>(xs: seq<T>, key: T -> K)
    ensures Distinct(KeysOf(KeepFirst(xs, key), key))
    ensures forall y :: y in KeepFirst(xs, key) ==> exists i :: FirstOfKey(xs, key, i) && xs[i] == y
    ensures forall i :: FirstOfKey(xs, key, i) ==> xs[i] in KeepFirst(xs, key)
    ensures forall x :: x in xs ==> key(x) in KeysOf(KeepFirst(xs, key), key)
    decreases |xs|
  {
    if xs != [] {
      var init := xs[..|xs| - 1];
      var x := xs[|xs| - 1];
      assert xs == init + [x];
      KeepFirstSpec(init, key);
      var prev := KeepFirst(init, key);
      var r := KeepFirst(xs, key);
      KeepFirstSnoc(init, x, key);
      forall y | y in r ensures exists i :: FirstOfKey(xs, key, i) && xs[i] == y {
        if y in prev {
          var i :| FirstOfKey(init, key, i) && init[i] == y;
          assert FirstOfKey(xs, key, i);
        } else {
          assert y == x && key(x) !in KeysOf(prev, key);
          forall j | 0 <= j < |init| ensures key(xs[j]) != key(x) {
            assert init[j] in init;
          }
          assert FirstOfKey(xs, key, |init|);
        }
      }
      forall i | FirstOfKey(xs, key, i) ensures xs[i] in r {
        if i < |init| {
          assert FirstOfKey(init, key, i);
        } else {
          forall k | 0 <= k < |prev| ensures KeysOf(prev, key)[k] != key(x) {
            assert prev[k] in prev;
            var j :| FirstOfKey(init, key, j) && init[j] == prev[k];
            assert xs[j] == init[j];
          }
        }
      }
      forall y | y in xs ensures key(y) in KeysOf(r, key) {
        if y in init {
          var k :| 0 <= k < |prev| && KeysOf(prev, key)[k] == key(y);
          assert r[k] == prev[k];
        } else {
          assert y == x;
          if key(x) !in KeysOf(prev, key) {
            assert KeysOf(r, key)[|prev|] == key(x);
          }
        }
      }
      var keys := KeysOf(r, key);
      forall i, j | 0 <= i < j < |keys| ensures keys[i] != keys[j] {
        if j == |prev| && r != prev {
          assert keys[i] == KeysOf(prev, key)[i];
        } else {
          assert keys[i] == KeysOf(prev, key)[i] && keys[j] == KeysOf(prev, key)[j];
        }
      }
    }
  }

  /** `${numero_cnj}|${tribunal}`; a case number has no `|`, so the pair
      identifies the text. */
  function ProcessKey(p: FoundProcess): (string, string) {
    (p.numeroCnj, p.tribunal)
  }

  /** Every process of every result, in order. */
  function AllProcesses(items: seq<ResultItem>, fromUrl: Option<string> -> Option<string>): seq<FoundProcess>
    decreases |items|
  {
    if items == [] then []
    else AllProcesses(items[..|items| - 1], fromUrl) + ProcessesOf(items[|items| - 1], fromUrl)
  }

  lemma AllProcessesSnoc(items: seq<ResultItem>, i: nat, fromUrl: Option<string> -> Option<string>)
    requires i < |items|
    ensures AllProcesses(items[..i + 1], fromUrl) == AllProcesses(items[..i], fromUrl) + ProcessesOf(items[i], fromUrl)
  {
    assert items[..i + 1][..i] == items[..i];
  }

  /** The inner loop of `searchProcessesByLawyer`: the processes of one
      result go into the map unless their key is already there. */
  method AddProcesses(found: seq<FoundProcess>, ghost before: seq<FoundProcess>, processes: seq<FoundProcess>)
    returns (result: seq<FoundProcess>)
    requires found == KeepFirst(before, ProcessKey)
    ensures result == KeepFirst(before + processes, ProcessKey)
  {
    result := found;
    assert before + processes[..0] == before;
    for j := 0 to |processes|
      invariant result == KeepFirst(before + processes[..j], ProcessKey)
    {
      assert before + processes[..j + 1] == (before + processes[..j]) + [processes[j]];
      KeepFirstSnoc(before + processes[..j], processes[j], ProcessKey);
      if ProcessKey(processes[j]) !in KeysOf(result, ProcessKey) {
        result := result + [processes[j]];
      }
    }
    assert processes[..|processes|] == processes;
  }

  /** `searchProcessesByLawyer(name, oab)` */
  method SearchProcessesByLawyer(
    configured: bool, search: (string, nat) -> Result<SearchResponse>, fromUrl: Option<string> -> Option<string>,
    name: string, oab: string)
    returns (r: Result<seq<FoundProcess>>)
    ensures var answer := PerformSearch(configured, search, LawyerQuery(name, oab), 20);
      && (answer.Err? ==> r == Err(answer.message))
      && (answer.Ok? ==> r == Ok(KeepFirst(AllProcesses(answer.value, fromUrl), ProcessKey)))
  {
    var answer := PerformSearch(configured, search, LawyerQuery(name, oab), 20);
    if answer.Err? {
      return Err(answer.message);
    }
    var items := answer.value;
    var found := [];
    for i := 0 to |items|
      invariant found == KeepFirst(AllProcesses(items[..i], fromUrl), ProcessKey)
    {
      AllProcessesSnoc(items, i, fromUrl);
      var processes := CollectProcessesFromResult(items[i], fromUrl);
      found := AddProcesses(found, AllProcesses(items[..i], fromUrl), processes);
    }
    assert items[..|items|] == items;
    r := Ok(found);
  }

  /** The lawyer search yields one process per number and court, each
      found in some result, and misses no number and court found. */
  lemma SearchProcessesSpec(items: seq<ResultItem>, fromUrl: Option<string> -> Option<string>)
    ensures var found := KeepFirst(AllProcesses(items, fromUrl), ProcessKey);
      && Distinct(KeysOf(found, ProcessKey))
      && (forall p :: p in found ==> p in AllProcesses(items, fromUrl))
      && (forall p :: p in AllProcesses(items, fromUrl) ==> ProcessKey(p) in KeysOf(found, ProcessKey))
  {
    KeepFirstSpec(AllProcesses(items, fromUrl), ProcessKey);
  }

  /** `${data}|${descricao}`; an ISO date has no `|`, so the pair identifies
      the text. */
  function Signature(m: FoundMovement): (string, string) {
    (m.data, m.descricao)
  }

  predicate SortedByTime(s: seq<FoundMovement>, time: string -> int) {
    forall i, j :: 0 <= i < j < |s| ==> time(s[i].data) <= time(s[j].data)
  }

  /** Insertion after every element that is not later. */
  function InsertByTime(x: FoundMovement, s: seq<FoundMovement>, time: string -> int): seq<FoundMovement>
    decreases |s|
  {
    if s == [] then [x]
    else if time(x.data) < time(s[0].data) then [x] + s
    else [s[0]] + InsertByTime(x, s[1..], time)
  }

  lemma {:induction false} InsertByTimePerm(x: FoundMovement, s: seq<FoundMovement>, time: string -> int)
    ensures multiset(InsertByTime(x, s, time)) == multiset(s) + multiset{x}
    decreases |s|
  {
    if s != [] && time(x.data) >= time(s[0].data) {
      InsertByTimePerm(x, s[1..], time);
      assert s == [s[0]] + s[1..];
    }
  }

  /** A sorted list stays sorted behind an element that is not later than any of it. */
  lemma SortedCons(h: FoundMovement, rest: seq<FoundMovement>, time: string -> int)
    requires SortedByTime(rest, time)
    requires forall y :: y in rest ==> time(h.data) <= time(y.data)
    ensures SortedByTime([h] + rest, time)
  {
    var t := [h] + rest;
    forall i, j | 0 <= i < j < |t| ensures time(t[i].data) <= time(t[j].data) {
      assert t[j] == rest[j - 1];
      if i == 0 {
        assert rest[j - 1] in rest;
      } else {
        assert t[i] == rest[i - 1];
      }
    }
  }

  lemma {:induction false} InsertByTimeSorted(x: FoundMovement, s: seq<FoundMovement>, time: string -> int)
    requires SortedByTime(s, time)
    ensures SortedByTime(InsertByTime(x, s, time), time)
    decreases |s|
  {
    if s == [] {
    } else if time(x.data) < time(s[0].data) {
      forall y | y in s ensures time(x.data) <= time(y.data) {
        var k :| 0 <= k < |s| && s[k] == y;
        if k > 0 {
          assert time(s[0].data) <= time(s[k].data);
        }
      }
      SortedCons(x, s, time);
    } else {
      var tail := s[1..];
      assert SortedByTime(tail, time) by {
        forall i, j | 0 <= i < j < |tail| ensures time(tail[i].data) <= time(tail[j].data) {
          assert tail[i] == s[i + 1] && tail[j] == s[j + 1];
        }
      }
      InsertByTimeSorted(x, tail, time);
      InsertByTimePerm(x, tail, time);
      var rest := InsertByTime(x, tail, time);
      forall y | y in rest ensures time(s[0].data) <= time(y.data) {
        assert y in multiset(rest);
        if y != x {
          assert y in tail;
          var k :| 0 <= k < |tail| && tail[k] == y;
          assert s[k + 1] == y;
        }
      }
      SortedCons(s[0], rest, time);
    }
  }

  /** Insertion keeps a sorted list sorted and adds exactly the one element. */
  lemma InsertByTimeSpec(x: FoundMovement, s: seq<FoundMovement>, time: string -> int)
    requires SortedByTime(s, time)
    ensures SortedByTime(InsertByTime(x, s, time), time)
    ensures multiset(InsertByTime(x, s, time)) == multiset(s) + multiset{x}
  {
    InsertByTimeSorted(x, s, time);
    InsertByTimePerm(x, s, time);
  }


  /** `movements.sort((a, b) => time(a.data) - time(b.data))`, stable. */
  function SortByTime(s: seq<FoundMovement>, time: string -> int): seq<FoundMovement>
    decreases |s|
  {
    if s == [] then []
    else InsertByTime(s[|s| - 1], SortByTime(s[..|s| - 1], time), time)
  }

  lemma {:induction false} SortByTimeSpec(s: seq<FoundMovement>, time: string -> int)
    ensures SortedByTime(SortByTime(s, time), time)
    ensures multiset(SortByTime(s, time)) == multiset(s)
    decreases |s|
  {
    if s != [] {
      SortByTimeSpec(s[..|s| - 1], time);
      InsertByTimeSpec(s[|s| - 1], SortByTime(s[..|s| - 1], time), time);
      assert s == s[..|s| - 1] + [s[|s| - 1]];
    }
  }

  /** Keeping the first of each key keeps a sorted sequence sorted. */
  lemma {:induction false} KeepFirstSorted(s: seq<FoundMovement>, time: string -> int)
    requires SortedByTime(s, time)
    ensures SortedByTime(KeepFirst(s, Signature), time)
    decreases |s|
  {
    if s != [] {
      var init := s[..|s| - 1];
      KeepFirstSorted(init, time);
      KeepFirstSpec(init, Signature);
      var prev := KeepFirst(init, Signature);
      forall y | y in prev ensures time(y.data) <= time(s[|s| - 1].data) {
        var i :| FirstOfKey(init, Signature, i) && init[i] == y;
      }
    }
  }

  /** Every movement of every result, in order. */
  function AllMovements(dates: Dates, items: seq<ResultItem>): seq<FoundMovement>
    decreases |items|
  {
    if items == [] then []
    else AllMovements(dates, items[..|items| - 1]) + MovementsOf(dates, items[|items| - 1])
  }

  /** `searchMovementsByCase(numero_cnj, tribunal)`, with `time` standing for
      `new Date(data).getTime()`. */
  method SearchMovementsByCase(
    configured: bool, search: (string, nat) -> Result<SearchResponse>, dates: Dates, time: string -> int,
    numeroCnj: string, tribunal: string)
    returns (r: Result<seq<FoundMovement>>)
    ensures var answer := PerformSearch(configured, search, CaseQuery(numeroCnj, tribunal), 30);
      && (answer.Err? ==> r == Err(answer.message))
      && (answer.Ok? ==> r == Ok(KeepFirst(SortByTime(AllMovements(dates, answer.value), time), Signature)))
  {
    var answer := PerformSearch(configured, search, CaseQuery(numeroCnj, tribunal), 30);
    if answer.Err? {
      return Err(answer.message);
    }
    var all := CollectAllMovements(dates, answer.value);
    r := Ok(KeepFirst(SortByTime(all, time), Signature));
  }

  /** The loop of `searchMovementsByCase` over the results, collecting the
      movements of each one in turn. */
  method CollectAllMovements(dates: Dates, items: seq<ResultItem>) returns (all: seq<FoundMovement>)
    ensures all == AllMovements(dates, items)
  {
    all := [];
    for i := 0 to |items|
      invariant all == AllMovements(dates, items[..i])
    {
      assert items[..i + 1][..i] == items[..i];
      var found := CollectMovementsFromResult(dates, items[i]);
      all := all + found;
    }
    assert items[..|items|] == items;
  }

  /** The case search answers in chronological order, once per date and
      description, with exactly the dates and descriptions found. */
  lemma SearchMovementsSpec(all: seq<FoundMovement>, time: string -> int)
    ensures var r := KeepFirst(SortByTime(all, time), Signature);
      && SortedByTime(r, time)
      && Distinct(KeysOf(r, Signature))
      && (forall m :: m in r ==> m in all)
      && (forall m :: m in all ==> Signature(m) in KeysOf(r, Signature))
  {
    var sorted := SortByTime(all, time);
    SortByTimeSpec(all, time);
    KeepFirstSorted(sorted, time);
    KeepFirstSpec(sorted, Signature);
    var r := KeepFirst(sorted, Signature);
    forall m | m in r ensures m in all {
      var i :| FirstOfKey(sorted, Signature, i) && sorted[i] == m;
      assert m in multiset(sorted);
    }
    forall m | m in all ensures Signature(m) in KeysOf(r, Signature) {
      assert m in multiset(all);
      assert m in sorted;
    }
  }
}
