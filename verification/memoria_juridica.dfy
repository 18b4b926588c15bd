/**
  The legal memory: texts cut into overlapping chunks, stored with their
  metadata in a vector collection, and read back as records. The
  collection, the embedding service and the clock are parameters.
 */
module MemoriaJuridica {
  import opened Js
  import opened LegalDocRequest

  const DefaultChunkSize: int := 512
  const DefaultChunkOverlap: int := 64

  // ---------------------------------------------------------------------
  // splitTextIntoChunks

  /** `text.replace(/\r\n/g, "\n")` */
  function CrlfToLf(s: string): (r: string)
    ensures |r| <= |s|
    ensures (forall i :: 0 <= i < |s| - 1 ==> !(s[i] == '\r' && s[i + 1] == '\n')) ==> r == s
    decreases |s|
  {
    if s == [] then []
    else if |s| >= 2 && s[0] == '\r' && s[1] == '\n' then "\n" + CrlfToLf(s[2..])
    else [s[0]] + CrlfToLf(s[1..])
  }

  /** The text the chunker works on: line ends normalised, then trimmed. */
  function Sanitized(text: string): (r: string)
    ensures IsTrimmed(r)
  {
    TrimSpec(CrlfToLf(text));
    Trim(CrlfToLf(text))
  }

  /** `s.lastIndexOf(c, from)`: the last position at or before `from`
      holding `c`, or -1. */
  function LastIndexOf(s: string, c: char, from: int): (r: int)
    requires -1 <= from < |s|
    ensures -1 <= r <= from
    ensures r >= 0 ==> s[r] == c
    ensures forall j :: r < j <= from && 0 <= j ==> s[j] != c
    decreases from + 1
  {
    if from < 0 then -1
    else if s[from] == c then from
    else LastIndexOf(s, c, from - 1)
  }

  predicate IsBreak(c: char) {
    c == '\n' || c == ' '
  }

  /** The end of the window that starts at `start`: `chunkSize` characters
      further, or the end of the text; an interior end moves back to the
      last line break or space at or before it, when that lies strictly
      between `start + overlap` and the end. */
  function CutEnd(s: string, start: int, chunkSize: int, overlap: int): (end: int)
    requires 0 <= start < |s| && 0 <= overlap < chunkSize
    ensures start < end <= |s| && end - start <= chunkSize
    ensures start + chunkSize >= |s| ==> end == |s|
    ensures end < |s| && end != start + chunkSize ==>
      && start + overlap < end < start + chunkSize
      && IsBreak(s[end])
      && forall j :: end < j <= start + chunkSize ==> !IsBreak(s[j])
    ensures start + chunkSize < |s| && end == start + chunkSize ==>
      IsBreak(s[end]) || forall j :: start + overlap < j < end ==> !IsBreak(s[j])
  {
    var e := if start + chunkSize < |s| then start + chunkSize else |s|;
    if e < |s| then
      var lastNewLine := LastIndexOf(s, '\n', e);
      var lastSpace := LastIndexOf(s, ' ', e);
      var candidate := if lastNewLine > lastSpace then lastNewLine else lastSpace;
      if candidate > start + overlap && candidate < e then candidate else e
    else e
  }

  /** Where the next window starts. */
  function NextStart(end: int, overlap: int): int {
    if end - overlap > 0 then end - overlap else 0
  }

  /** The chunks of `s` from the window at `start` on. */
  function ChunksFrom(s: string, start: int, chunkSize: int, overlap: int): seq<string>
    requires 0 <= start <= |s| && 0 <= overlap < chunkSize
    decreases |s| - start
  {
    if start >= |s| then []
    else
      var end := CutEnd(s, start, chunkSize, overlap);
      var chunk := Trim(s[start..end]);
      var here := if chunk != [] then [chunk] else [];
      if end >= |s| then here
      else
        var next := NextStart(end, overlap);
        if next >= |s| then here else here + ChunksFrom(s, next, chunkSize, overlap)
  }

  /** The chunk of the window at `start`, if it is not blank. */
  function Here(s: string, start: int, chunkSize: int, overlap: int): seq<string>
    requires 0 <= start < |s| && 0 <= overlap < chunkSize
  {
    var chunk := Trim(s[start..CutEnd(s, start, chunkSize, overlap)]);
    if chunk != [] then [chunk] else []
  }

  lemma ChunksStep(s: string, start: int, chunkSize: int, overlap: int)
    requires 0 <= start < |s| && 0 <= overlap < chunkSize
    ensures var end := CutEnd(s, start, chunkSize, overlap);
      ChunksFrom(s, start, chunkSize, overlap)
      == Here(s, start, chunkSize, overlap)
         + (if end < |s| && NextStart(end, overlap) < |s| then ChunksFrom(s, NextStart(end, overlap), chunkSize, overlap) else [])
  {
  }

  /** The window after `start` starts strictly later. */
  lemma NextStartAdvances(s: string, start: int, chunkSize: int, overlap: int)
    requires 0 <= start < |s| && 0 <= overlap < chunkSize
    requires CutEnd(s, start, chunkSize, overlap) < |s|
    ensures NextStart(CutEnd(s, start, chunkSize, overlap), overlap) > start
  {
  }

  /** `splitTextIntoChunks(text, chunkSize, overlap)`. The loop ends because
      every window starts strictly after the previous one, which needs
      `overlap < chunkSize`. */
  method SplitTextIntoChunks(text: string, chunkSize: int, overlap: int) returns (result: seq<string>)
    requires 0 <= overlap < chunkSize
    ensures result == ChunksFrom(Sanitized(text), 0, chunkSize, overlap)
  {
    var sanitized := Sanitized(text);
    if sanitized == [] {
      return [];
    }
    ghost var all := ChunksFrom(sanitized, 0, chunkSize, overlap);
    result := [];
    var start := 0;
    while start < |sanitized|
      invariant 0 <= start <= |sanitized|
      invariant result + ChunksFrom(sanitized, start, chunkSize, overlap) == all
      decreases |sanitized| - start
    {
      var end := CutEnd(sanitized, start, chunkSize, overlap);
      var chunk := Trim(sanitized[start..end]);
      ghost var previous := result;
      ghost var here := Here(sanitized, start, chunkSize, overlap);
      if chunk != [] {
        result := result + [chunk];
      }
      assert result == previous + here;
      ChunksStep(sanitized, start, chunkSize, overlap);
      if end >= |sanitized| {
        assert here + [] == here;
        break;
      }
      var next := NextStart(end, overlap);
      NextStartAdvances(sanitized, start, chunkSize, overlap);
      if next >= |sanitized| {
        assert here + [] == here;
        break;
      }
      AppendAssoc(previous, here, ChunksFrom(sanitized, next, chunkSize, overlap));
      start := next;
    }
  }

  lemma TakeSnoc<T>(s: seq<T>, j: int)
    requires 0 <= j < |s|
    ensures s[..j + 1] == s[..j] + [s[j]]
  {
  }

  lemma AppendAssoc<T>(a: seq<T>, b: seq<T>, c: seq<T>)
    ensures a + (b + c) == (a + b) + c
  {
  }

  /** Normalising line ends keeps a blank text blank and a non-blank text non-blank. */
  lemma BlankSanitized(text: string)
    ensures IsBlank(text) <==> Sanitized(text) == []
  {
    TrimSpec(text);
    TrimSpec(CrlfToLf(text));
    if IsBlank(text) {
      BlankCrlf(text);
    } else if Sanitized(text) == [] {
      BlankOfCrlf(text);
    }
  }

  lemma {:induction false} BlankCrlf(s: string)
    requires forall i :: 0 <= i < |s| ==> IsSpace(s[i])
    ensures forall i :: 0 <= i < |CrlfToLf(s)| ==> IsSpace(CrlfToLf(s)[i])
    decreases |s|
  {
    if s != [] {
      if |s| >= 2 && s[0] == '\r' && s[1] == '\n' {
        BlankCrlf(s[2..]);
      } else {
        BlankCrlf(s[1..]);
      }
    }
  }

  /** Every chunk is non-empty, trimmed and at most `chunkSize` long. */
  lemma {:induction false} ChunksShape(s: string, start: int, chunkSize: int, overlap: int)
    requires 0 <= start <= |s| && 0 <= overlap < chunkSize
    ensures forall c :: c in ChunksFrom(s, start, chunkSize, overlap) ==> c != [] && IsTrimmed(c) && |c| <= chunkSize
    decreases |s| - start
  {
    if start < |s| {
      var end := CutEnd(s, start, chunkSize, overlap);
      TrimSpec(s[start..end]);
      if end < |s| && NextStart(end, overlap) < |s| {
        ChunksShape(s, NextStart(end, overlap), chunkSize, overlap);
      }
    }
  }

  /** A blank text has no chunks and any other text has at least one; every
      chunk is non-empty, trimmed and at most `chunkSize` long. */
  lemma TextChunks(text: string, chunkSize: int, overlap: int)
    requires 0 <= overlap < chunkSize
    ensures IsBlank(text) <==> ChunksFrom(Sanitized(text), 0, chunkSize, overlap) == []
    ensures forall c :: c in ChunksFrom(Sanitized(text), 0, chunkSize, overlap) ==> c != [] && IsTrimmed(c) && |c| <= chunkSize
  {
    var s := Sanitized(text);
    BlankSanitized(text);
    ChunksShape(s, 0, chunkSize, overlap);
    if s != [] {
      ChunksCover(s, 0, chunkSize, overlap, 0);
    }
  }

  /** A text that fits in one window is one chunk. */
  lemma OneChunk(text: string, chunkSize: int, overlap: int)
    requires 0 <= overlap < chunkSize
    requires !IsBlank(text) && |Sanitized(text)| <= chunkSize
    ensures ChunksFrom(Sanitized(text), 0, chunkSize, overlap) == [Sanitized(text)]
  {
    var s := Sanitized(text);
    BlankSanitized(text);
    assert s[0..|s|] == s;
    TrimOfTrimmed(s);
  }

  lemma {:induction false} BlankOfCrlf(s: string)
    requires forall i :: 0 <= i < |CrlfToLf(s)| ==> IsSpace(CrlfToLf(s)[i])
    ensures forall i :: 0 <= i < |s| ==> IsSpace(s[i])
    decreases |s|
  {
    if s != [] {
      if |s| >= 2 && s[0] == '\r' && s[1] == '\n' {
        assert CrlfToLf(s) == "\n" + CrlfToLf(s[2..]);
        assert forall i :: 0 <= i < |CrlfToLf(s[2..])| ==> CrlfToLf(s[2..])[i] == CrlfToLf(s)[i + 1];
        BlankOfCrlf(s[2..]);
      } else {
        assert CrlfToLf(s) == [s[0]] + CrlfToLf(s[1..]);
        assert forall i :: 0 <= i < |CrlfToLf(s[1..])| ==> CrlfToLf(s[1..])[i] == CrlfToLf(s)[i + 1];
        BlankOfCrlf(s[1..]);
        assert s[0] == CrlfToLf(s)[0];
      }
    }
  }

  /** A trimmed text without CRLF line ends that fits in one window is its own only chunk. */
  lemma ShortTextOneChunk(text: string, chunkSize: int, overlap: int)
    requires 0 <= overlap < chunkSize
    requires text != [] && IsTrimmed(text) && |text| <= chunkSize
    requires forall i :: 0 <= i < |text| - 1 ==> !(text[i] == '\r' && text[i + 1] == '\n')
    ensures ChunksFrom(Sanitized(text), 0, chunkSize, overlap) == [text]
  {
    TrimOfTrimmed(text);
    assert Sanitized(text) == text;
    TrimSpec(text);
    OneChunk(text, chunkSize, overlap);
  }

  /** A character kept by `trim` lies inside the trimmed text. */
  lemma NonSpaceInTrim(x: string, k: int)
    requires 0 <= k < |x| && !IsSpace(x[k])
    ensures x[k] in Trim(x)
  {
    TrimKeeps(x, k);
  }

  /** No text is lost: with a non-negative overlap every position holding
      a character other than white space lies in a window of at most
      `chunkSize` characters whose trimmed text is a chunk, and that
      character appears in the chunk. */
  lemma {:induction false} ChunksCover(s: string, start: int, chunkSize: int, overlap: int, i: int)
    requires 0 <= start <= i < |s| && 0 <= overlap < chunkSize
    requires !IsSpace(s[i])
    ensures exists a, b :: (start <= a <= i < b <= |s| && b - a <= chunkSize
      && Trim(s[a..b]) in ChunksFrom(s, start, chunkSize, overlap) && s[i] in Trim(s[a..b]))
    ensures exists c :: c in ChunksFrom(s, start, chunkSize, overlap) && s[i] in c
    decreases |s| - start
  {
    var end := CutEnd(s, start, chunkSize, overlap);
    var chunk := Trim(s[start..end]);
    if i < end {
      assert s[start..end][i - start] == s[i];
      NonSpaceInTrim(s[start..end], i - start);
      assert chunk in ChunksFrom(s, start, chunkSize, overlap);
    } else {
      var next := NextStart(end, overlap);
      NextStartAdvances(s, start, chunkSize, overlap);
      ChunksCover(s, next, chunkSize, overlap, i);
      var a, b :| next <= a <= i < b <= |s| && b - a <= chunkSize
        && Trim(s[a..b]) in ChunksFrom(s, next, chunkSize, overlap) && s[i] in Trim(s[a..b]);
      assert Trim(s[a..b]) in ChunksFrom(s, start, chunkSize, overlap);
    }
  }

  // ---------------------------------------------------------------------
  // memorizarConteudos

  /** One text to remember; an option left out of the item is `None`. */
  datatype MemoriaItem = MemoriaItem(
    texto: string,
    tipo: string,
    metadados: Option<map<string, Json>>,
    chunkSize: Option<int>,
    chunkOverlap: Option<int>)

  /** `item.chunkSize ?? DEFAULT_CHUNK_SIZE` */
  function ChunkSizeOf(item: MemoriaItem): int {
    if item.chunkSize.Some? then item.chunkSize.value else DefaultChunkSize
  }

  /** `item.chunkOverlap ?? DEFAULT_CHUNK_OVERLAP` */
  function ChunkOverlapOf(item: MemoriaItem): int {
    if item.chunkOverlap.Some? then item.chunkOverlap.value else DefaultChunkOverlap
  }

  /** An item that reaches the chunker resolves to parameters under which
      the chunker terminates; an item with blank text never reaches it. */
  predicate ValidChunking(item: MemoriaItem) {
    IsBlank(item.texto) || 0 <= ChunkOverlapOf(item) < ChunkSizeOf(item)
  }

  /** The chunks an item contributes: none when its text is blank. */
  function ItemChunks(item: MemoriaItem): seq<string>
    requires ValidChunking(item)
  {
    if IsBlank(item.texto) then []
    else ChunksFrom(Sanitized(item.texto), 0, ChunkSizeOf(item), ChunkOverlapOf(item))
  }

  /** The metadata stored with each chunk of an item: `tipo`, overridden by
      the item's own metadata, and `criadoEm` set to `now` unless the item's
      metadata already has one. */
  function MetadataFor(item: MemoriaItem, now: string): map<string, Json> {
    var given := if item.metadados.Some? then item.metadados.value else map[];
    var metadata := map["tipo" := Str(item.tipo)] + given;
    if "criadoEm" in metadata then metadata else metadata["criadoEm" := Str(now)]
  }

  /** The keys of the stored metadata are the item's own plus `tipo` and
      `criadoEm`; the item's own values win, `tipo` falls back to the kind
      of memory and `criadoEm` to `now`. */
  lemma MetadataForSpec(item: MemoriaItem, now: string)
    ensures var r := MetadataFor(item, now);
      var given := if item.metadados.Some? then item.metadados.value else map[];
      && r.Keys == given.Keys + {"tipo", "criadoEm"}
      && r["tipo"] == (if "tipo" in given then given["tipo"] else Str(item.tipo))
      && r["criadoEm"] == (if "criadoEm" in given then given["criadoEm"] else Str(now))
      && forall k :: k in given ==> r[k] == given[k]
  {
  }

  /** `n` copies of `x`. */
  function Repeat<T>(x: T, n: nat): (r: seq<T>)
    ensures |r| == n && forall i :: 0 <= i < n ==> r[i] == x
  {
    if n == 0 then [] else Repeat(x, n - 1) + [x]
  }

  /** All chunks of the items, in order. */
  function Parts(itens: seq<MemoriaItem>): seq<string>
    requires forall item | item in itens :: ValidChunking(item)
  {
    if itens == [] then []
    else
      ValidPrefix(itens, |itens| - 1);
      assert itens[|itens| - 1] in itens;
      Parts(itens[..|itens| - 1]) + ItemChunks(itens[|itens| - 1])
  }

  /** One metadata record per chunk, in the order of `Parts`. */
  function Metas(itens: seq<MemoriaItem>, now: string): seq<map<string, Json>>
    requires forall item | item in itens :: ValidChunking(item)
  {
    if itens == [] then []
    else
      var last := itens[|itens| - 1];
      ValidPrefix(itens, |itens| - 1);
      assert last in itens;
      Metas(itens[..|itens| - 1], now) + Repeat(MetadataFor(last, now), |ItemChunks(last)|)
  }

  /** Every part is non-empty and trimmed. */
  lemma {:induction false} PartsShape(itens: seq<MemoriaItem>)
    requires forall item | item in itens :: ValidChunking(item)
    ensures forall p :: p in Parts(itens) ==> p != [] && IsTrimmed(p)
  {
    if itens != [] {
      var init := itens[..|itens| - 1];
      var last := itens[|itens| - 1];
      assert last in itens;
      assert forall item | item in init :: item in itens;
      PartsShape(init);
      ItemChunksShape(last);
    }
  }

  /** One metadata record per part. */
  lemma {:induction false} PartsMetasLength(itens: seq<MemoriaItem>, now: string)
    requires forall item | item in itens :: ValidChunking(item)
    ensures |Parts(itens)| == |Metas(itens, now)|
  {
    if itens != [] {
      var init := itens[..|itens| - 1];
      assert forall item | item in init :: item in itens;
      PartsMetasLength(init, now);
    }
  }

  /** For each part, the position of the item it was cut from. */
  function Owners(itens: seq<MemoriaItem>): (r: seq<nat>)
    requires forall item | item in itens :: ValidChunking(item)
    ensures |r| == |Parts(itens)|
    ensures forall k :: 0 <= k < |r| ==> r[k] < |itens|
  {
    if itens == [] then []
    else
      var init, last := itens[..|itens| - 1], itens[|itens| - 1];
      ValidPrefix(itens, |itens| - 1);
      assert last in itens;
      assert Parts(itens) == Parts(init) + ItemChunks(last);
      Owners(init) + Repeat(|itens| - 1, |ItemChunks(last)|)
  }

  lemma ValidPrefix(itens: seq<MemoriaItem>, n: int)
    requires forall item | item in itens :: ValidChunking(item)
    requires 0 <= n <= |itens|
    ensures forall item | item in itens[..n] :: ValidChunking(item)
  {
    assert forall item | item in itens[..n] :: item in itens;
  }

  /** The k-th part is a chunk of an item with non-blank text, and the
      k-th metadata record is that item's. */
  lemma {:induction false} AlignedAt(itens: seq<MemoriaItem>, now: string, k: int)
    requires forall item | item in itens :: ValidChunking(item)
    requires 0 <= k < |Parts(itens)|
    ensures |Parts(itens)| == |Metas(itens, now)|
    ensures !IsBlank(itens[Owners(itens)[k]].texto)
    ensures Parts(itens)[k] in ItemChunks(itens[Owners(itens)[k]])
    ensures Metas(itens, now)[k] == MetadataFor(itens[Owners(itens)[k]], now)
  {
    PartsMetasLength(itens, now);
    var init := itens[..|itens| - 1];
    var last := itens[|itens| - 1];
    assert last in itens;
    ValidPrefix(itens, |itens| - 1);
    var n := |Parts(init)|;
    PartsMetasLength(init, now);
    assert Parts(itens) == Parts(init) + ItemChunks(last);
    assert Owners(itens) == Owners(init) + Repeat(|itens| - 1, |ItemChunks(last)|);
    if k < n {
      AlignedAt(init, now, k);
      assert Owners(itens)[k] == Owners(init)[k];
      assert itens[Owners(init)[k]] == init[Owners(init)[k]];
      assert Parts(itens)[k] == Parts(init)[k];
      assert Metas(itens, now)[k] == Metas(init, now)[k];
    } else {
      AlignedLast(itens, now, k);
    }
  }

  /** The parts of the last item belong to it. */
  lemma AlignedLast(itens: seq<MemoriaItem>, now: string, k: int)
    requires forall item | item in itens :: ValidChunking(item)
    requires itens != [] && |Parts(itens[..|itens| - 1])| <= k < |Parts(itens)|
    ensures |Parts(itens)| == |Metas(itens, now)|
    ensures Owners(itens)[k] == |itens| - 1
    ensures !IsBlank(itens[|itens| - 1].texto)
    ensures Parts(itens)[k] in ItemChunks(itens[|itens| - 1])
    ensures Metas(itens, now)[k] == MetadataFor(itens[|itens| - 1], now)
  {
    var init := itens[..|itens| - 1];
    var last := itens[|itens| - 1];
    assert last in itens;
    ValidPrefix(itens, |itens| - 1);
    PartsMetasLength(init, now);
    var parts, chunks := Parts(init), ItemChunks(last);
    var metas, repeated := Metas(init, now), Repeat(MetadataFor(last, now), |chunks|);
    var owners := Owners(init);
    assert Parts(itens) == parts + chunks;
    assert Metas(itens, now) == metas + repeated;
    assert Owners(itens) == owners + Repeat(|itens| - 1, |chunks|);
    ConcatRight(parts, chunks, k);
    ConcatRight(metas, repeated, k);
    PartsMetasLength(itens, now);
    ConcatRight(owners, Repeat(|itens| - 1, |chunks|), k);
  }

  lemma ConcatRight<T>(a: seq<T>, b: seq<T>, k: int)
    requires |a| <= k < |a| + |b|
    ensures (a + b)[k] == b[k - |a|]
  {
  }

  /** The two lists stay aligned, part by part. */
  lemma PartsAligned(itens: seq<MemoriaItem>, now: string)
    requires forall item | item in itens :: ValidChunking(item)
    ensures |Parts(itens)| == |Metas(itens, now)|
    ensures forall k :: 0 <= k < |Parts(itens)| ==>
      && !IsBlank(itens[Owners(itens)[k]].texto)
      && Parts(itens)[k] in ItemChunks(itens[Owners(itens)[k]])
      && Metas(itens, now)[k] == MetadataFor(itens[Owners(itens)[k]], now)
  {
    PartsMetasLength(itens, now);
    forall k | 0 <= k < |Parts(itens)|
      ensures && !IsBlank(itens[Owners(itens)[k]].texto)
              && Parts(itens)[k] in ItemChunks(itens[Owners(itens)[k]])
              && Metas(itens, now)[k] == MetadataFor(itens[Owners(itens)[k]], now)
    {
      AlignedAt(itens, now, k);
    }
  }

  /** What is handed to the vector store: the chunks, their metadata and
      one embedding per chunk. */
  datatype Batch<E> = Batch(partes: seq<string>, metadados: seq<map<string, Json>>, embeddings: seq<E>)

  /** `memorizarConteudos(itens)`. `now` is the clock reading used for
      `criadoEm`; `embed` is the embedding service, an `Err` standing for
      the error its request raised, which is passed on. Nothing is stored
      when no item has text or when the service does not return one
      embedding per chunk. */
  method MemorizarConteudos<E>(itens: seq<MemoriaItem>, now: string, embed: seq<string> -> Result<seq<E>>)
    returns (stored: Result<Option<Batch<E>>>)
    requires forall item | item in itens :: ValidChunking(item)
    ensures stored.Err? <==> Parts(itens) != [] && embed(Parts(itens)).Err?
    ensures stored.Err? ==> stored.message == embed(Parts(itens)).message
    ensures stored.Ok? && stored.value.Some? <==>
      Parts(itens) != [] && embed(Parts(itens)).Ok? && |embed(Parts(itens)).value| == |Parts(itens)|
    ensures stored.Ok? && stored.value.Some? ==>
      stored.value.value == Batch(Parts(itens), Metas(itens, now), embed(Parts(itens)).value)
  {
    if |itens| == 0 {
      return Ok(None);
    }
    var partes: seq<string> := [];
    var metadados: seq<map<string, Json>> := [];
    for i := 0 to |itens|
      invariant partes == Parts(itens[..i])
      invariant metadados == Metas(itens[..i], now)
    {
      var item := itens[i];
      PartsSnoc(itens, i, now);
      if !IsBlank(item.texto) {
        var chunks := SplitTextIntoChunks(item.texto, ChunkSizeOf(item), ChunkOverlapOf(item));
        assert chunks == ItemChunks(item);
        ItemChunksShape(item);
        var metadata := MetadataFor(item, now);
        partes, metadados := AppendChunks(partes, metadados, chunks, metadata);
      }
    }
    assert itens[..|itens|] == itens;
    if partes == [] {
      return Ok(None);
    }
    var answer := embed(partes);
    if answer.Err? {
      return Err(answer.message);
    }
    var embeddings := answer.value;
    if |embeddings| == 0 || |embeddings| != |partes| {
      return Ok(None);
    }
    return Ok(Some(Batch(partes, metadados, embeddings)));
  }

  /** The inner loop of `memorizarConteudos`: every non-empty chunk goes to
      the parts, with one copy of the item's metadata. */
  method AppendChunks(partes: seq<string>, metadados: seq<map<string, Json>>, chunks: seq<string>, metadata: map<string, Json>)
    returns (partes': seq<string>, metadados': seq<map<string, Json>>)
    requires forall c :: c in chunks ==> c != []
    ensures partes' == partes + chunks
    ensures metadados' == metadados + Repeat(metadata, |chunks|)
  {
    partes', metadados' := partes, metadados;
    for j := 0 to |chunks|
      invariant partes' == partes + chunks[..j]
      invariant metadados' == metadados + Repeat(metadata, j)
    {
      assert chunks[j] in chunks;
      if chunks[j] != [] {
        TakeSnoc(chunks, j);
        AppendAssoc(partes, chunks[..j], [chunks[j]]);
        AppendAssoc(metadados, Repeat(metadata, j), [metadata]);
        partes' := partes' + [chunks[j]];
        metadados' := metadados' + [metadata];
      }
    }
    assert chunks[..|chunks|] == chunks;
  }

  /** Extending the items by one extends both lists by that item's chunks. */
  lemma PartsSnoc(itens: seq<MemoriaItem>, i: int, now: string)
    requires 0 <= i < |itens| && forall item | item in itens :: ValidChunking(item)
    ensures ValidChunking(itens[i])
    ensures forall item | item in itens[..i] :: ValidChunking(item)
    ensures Parts(itens[..i + 1]) == Parts(itens[..i]) + ItemChunks(itens[i])
    ensures Metas(itens[..i + 1], now) == Metas(itens[..i], now) + Repeat(MetadataFor(itens[i], now), |ItemChunks(itens[i])|)
  {
    assert itens[i] in itens;
    assert itens[..i + 1][..i] == itens[..i];
  }

  /** The chunks of an item are non-empty and trimmed. */
  lemma ItemChunksShape(item: MemoriaItem)
    requires ValidChunking(item)
    ensures forall c :: c in ItemChunks(item) ==> c != [] && IsTrimmed(c)
  {
    if !IsBlank(item.texto) {
      TextChunks(item.texto, ChunkSizeOf(item), ChunkOverlapOf(item));
    }
  }

  // ---------------------------------------------------------------------
  // The `where` filter shared by the query and the listing

  /** `if (value) where[key] = value`: only a non-empty text filters. */
  function WithFilter(where: map<string, string>, key: string, value: Option<string>): map<string, string> {
    if value.Some? && value.value != "" then where[key := value.value] else where
  }

  /** The filter on `tipo`, `clienteId` and `processoId`: a key is present
      exactly when its value is a non-empty text, and holds that text. */
  function Where(tipo: Option<string>, clienteId: Option<string>, processoId: Option<string>): (w: map<string, string>)
    ensures w.Keys <= {"tipo", "clienteId", "processoId"}
    ensures "tipo" in w <==> tipo.Some? && tipo.value != ""
    ensures "clienteId" in w <==> clienteId.Some? && clienteId.value != ""
    ensures "processoId" in w <==> processoId.Some? && processoId.value != ""
    ensures "tipo" in w ==> w["tipo"] == tipo.value
    ensures "clienteId" in w ==> w["clienteId"] == clienteId.value
    ensures "processoId" in w ==> w["processoId"] == processoId.value
  {
    WithFilter(WithFilter(WithFilter(map[], "tipo", tipo), "clienteId", clienteId), "processoId", processoId)
  }

  /** `if (Object.keys(where).length) payload.where = where` */
  function WhereIfAny(where: map<string, string>): (r: Option<map<string, string>>)
    ensures r.Some? <==> where != map[]
    ensures r.Some? ==> r.value == where
  {
    if where == map[] then None else Some(where)
  }

  // ---------------------------------------------------------------------
  // buscarConteudoRelacionado

  datatype BuscaMemoriaOptions = BuscaMemoriaOptions(
    topK: Option<int>,
    tipo: Option<string>,
    clienteId: Option<string>,
    processoId: Option<string>)

  /** The body of the query request. */
  datatype QueryPayload<E> = QueryPayload(queryEmbeddings: seq<E>, nResults: int, where: Option<map<string, string>>)

  /** The query for a question's embeddings: `topK` results, five when none
      is given, filtered by the non-empty options. */
  function QueryPayloadOf<E>(embeddings: seq<E>, options: BuscaMemoriaOptions): (p: QueryPayload<E>)
    ensures p.queryEmbeddings == embeddings
    ensures p.nResults == (if options.topK.Some? then options.topK.value else 5)
    ensures p.where.Some? <==>
      || (options.tipo.Some? && options.tipo.value != "")
      || (options.clienteId.Some? && options.clienteId.value != "")
      || (options.processoId.Some? && options.processoId.value != "")
    ensures p.where.Some? ==> p.where.value == Where(options.tipo, options.clienteId, options.processoId)
  {
    var where := Where(options.tipo, options.clienteId, options.processoId);
    assert where == map[] <==> "tipo" !in where && "clienteId" !in where && "processoId" !in where;
    QueryPayload(embeddings, if options.topK.Some? then options.topK.value else 5, WhereIfAny(where))
  }

  /** The texts of one batch of the answer: its non-blank strings, trimmed;
      nothing when the batch is not an array. */
  function BatchDocuments(batch: Json): seq<string> {
    if batch.Arr? then FilterMap(SanitizeText, batch.items) else []
  }

  /** The texts of all batches, in order. */
  function Documents(batches: seq<Json>): seq<string> {
    if batches == [] then []
    else Documents(batches[..|batches| - 1]) + BatchDocuments(batches[|batches| - 1])
  }

  /** Every text read from an answer is non-empty and trimmed. */
  lemma {:induction false} DocumentsShape(batches: seq<Json>)
    ensures forall d :: d in Documents(batches) ==> d != [] && IsTrimmed(d)
  {
    if batches != [] {
      var last := batches[|batches| - 1];
      DocumentsShape(batches[..|batches| - 1]);
      if last.Arr? {
        FilterMapMembers(SanitizeText, last.items);
      }
    }
  }

  lemma DocumentsSnoc(batches: seq<Json>, i: int)
    requires 0 <= i < |batches|
    ensures Documents(batches[..i + 1]) == Documents(batches[..i]) + BatchDocuments(batches[i])
  {
    assert batches[..i + 1][..i] == batches[..i];
  }

  /** The inner loop: the non-blank trimmed strings of one batch, appended. */
  method CollectBatch(prefix: seq<string>, docs: seq<Json>) returns (resultados: seq<string>)
    ensures resultados == prefix + FilterMap(SanitizeText, docs)
  {
    resultados := prefix;
    for j := 0 to |docs|
      invariant resultados == prefix + FilterMap(SanitizeText, docs[..j])
    {
      var doc := SanitizeText(docs[j]);
      FilterMapSnoc(SanitizeText, docs, j);
      if doc.Some? {
        AppendAssoc(prefix, FilterMap(SanitizeText, docs[..j]), [doc.value]);
        resultados := resultados + [doc.value];
      }
    }
    assert docs[..|docs|] == docs;
  }

  /** The nested loop over `data.documents`. */
  method CollectDocuments(documents: Json) returns (resultados: seq<string>)
    ensures resultados == (if documents.Arr? then Documents(documents.items) else [])
  {
    if !documents.Arr? {
      return [];
    }
    var batches := documents.items;
    resultados := [];
    for i := 0 to |batches|
      invariant resultados == Documents(batches[..i])
    {
      var batch := batches[i];
      DocumentsSnoc(batches, i);
      if batch.Arr? {
        resultados := CollectBatch(resultados, batch.items);
      }
    }
    assert batches[..|batches|] == batches;
  }

  /** `buscarConteudoRelacionado(pergunta, options)`. `available` says
      whether the store is configured and its collection reachable, `embed`
      is the embedding service and `query` the store's query endpoint, an
      `Err` standing for a failed request. A failed embedding request is
      passed on; every other failure gives no texts. */
  method BuscarConteudoRelacionado<E>(
    pergunta: string,
    options: BuscaMemoriaOptions,
    available: bool,
    embed: seq<string> -> Result<seq<E>>,
    query: QueryPayload<E> -> Result<Json>)
    returns (r: Result<seq<string>>)
    ensures !available ==> r == Ok([])
    ensures available && embed([pergunta]).Err? ==> r == Err(embed([pergunta]).message)
    ensures available && embed([pergunta]) == Ok([]) ==> r == Ok([])
    ensures available && embed([pergunta]).Ok? && embed([pergunta]).value != [] ==>
      var answer := query(QueryPayloadOf(embed([pergunta]).value, options));
      && (answer.Err? ==> r == Ok([]))
      && (answer.Ok? && Get(answer.value, "documents").Arr? ==> r == Ok(Documents(Get(answer.value, "documents").items)))
      && (answer.Ok? && !Get(answer.value, "documents").Arr? ==> r == Ok([]))
    ensures r.Ok? ==> forall d :: d in r.value ==> d != [] && IsTrimmed(d)
  {
    if !available {
      return Ok([]);
    }
    var embedded := embed([pergunta]);
    if embedded.Err? {
      return Err(embedded.message);
    }
    var embeddings := embedded.value;
    if |embeddings| == 0 {
      return Ok([]);
    }
    var payload := QueryPayloadOf(embeddings, options);
    var answer := query(payload);
    if answer.Err? {
      return Ok([]);
    }
    var documents := Get(answer.value, "documents");
    var found := CollectDocuments(documents);
    r := Ok(found);
    if documents.Arr? {
      DocumentsShape(documents.items);
    }
  }

  // ---------------------------------------------------------------------
  // flattenResponse and sanitizeMetadata

  /** One item of a response list: an inner array gives its items, any
      other value itself. */
  function Spread(item: Json): seq<Json> {
    if item.Arr? then item.items else [item]
  }

  /** The items of a response list flattened by one level. */
  function Flat(items: seq<Json>): seq<Json> {
    if items == [] then [] else Flat(items[..|items| - 1]) + Spread(items[|items| - 1])
  }

  /** Flattening distributes over concatenation. */
  lemma {:induction false} FlatAppend(a: seq<Json>, b: seq<Json>)
    ensures Flat(a + b) == Flat(a) + Flat(b)
    decreases |b|
  {
    if b == [] {
      assert a + b == a;
    } else {
      var init := b[..|b| - 1];
      assert (a + b)[..|a + b| - 1] == a + init;
      FlatAppend(a, init);
      AppendAssoc(Flat(a), Flat(init), Spread(b[|b| - 1]));
    }
  }

  /** A list without inner arrays is left as it is; the items of inner
      arrays are not flattened further. */
  lemma {:induction false} FlatOfFlat(items: seq<Json>)
    requires forall i :: 0 <= i < |items| ==> !items[i].Arr?
    ensures Flat(items) == items
  {
    if items != [] {
      FlatOfFlat(items[..|items| - 1]);
      assert items[..|items| - 1] + [items[|items| - 1]] == items;
    }
  }

  /** Flattening a list of lists is concatenating them. */
  lemma FlatOfNested(a: seq<Json>, b: seq<Json>)
    ensures Flat([Arr(a), Arr(b)]) == a + b
  {
    assert [Arr(a), Arr(b)][..1] == [Arr(a)];
    assert [Arr(a)][..0] == [];
    assert Flat([Arr(a)]) == [] + a == a;
  }

  /** `flattenResponse(value)` */
  method FlattenResponse(value: Json) returns (result: seq<Json>)
    ensures result == (if value.Arr? then Flat(value.items) else [])
  {
    result := [];
    if !value.Arr? {
      return;
    }
    var items := value.items;
    for i := 0 to |items|
      invariant result == Flat(items[..i])
    {
      var item := items[i];
      assert items[..i + 1][..i] == items[..i];
      if item.Arr? {
        var nested := item.items;
        for j := 0 to |nested|
          invariant result == Flat(items[..i]) + nested[..j]
        {
          TakeSnoc(nested, j);
          AppendAssoc(Flat(items[..i]), nested[..j], [nested[j]]);
          result := result + [nested[j]];
        }
        assert nested[..|nested|] == nested;
      } else {
        result := result + [item];
      }
    }
    assert items[..|items|] == items;
  }

  /** `sanitizeMetadata(value)`: a copy of a plain object; `null` for
      anything else, arrays included. */
  function SanitizeMetadata(value: Json): (r: Option<map<string, Json>>)
    ensures r.Some? <==> value.Obj?
    ensures r.Some? ==> r.value == value.fields
  {
    if !Truthy(value) || !(value.Obj? || value.Arr?) || value.Arr? then None
    else Some(value.fields)
  }

  // ---------------------------------------------------------------------
  // listarMemoriasInterno

  datatype ListarMemoriaOptions = ListarMemoriaOptions(
    clienteId: Option<string>,
    processoId: Option<string>,
    tipo: Option<string>,
    limit: Option<Number>)

  /** The body of the listing request. */
  datatype ListPayload = ListPayload(where: Option<map<string, string>>, limit: Option<int>)

  /** The largest page the listing asks for. */
  const MaxListLimit: int := 200

  /** The listing request: the non-empty filters, and a limit only when one
      is given that is finite and positive, capped at 200. */
  function ListPayloadOf(options: ListarMemoriaOptions): (p: ListPayload)
    ensures p.where.Some? <==>
      || (options.tipo.Some? && options.tipo.value != "")
      || (options.clienteId.Some? && options.clienteId.value != "")
      || (options.processoId.Some? && options.processoId.value != "")
    ensures p.where.Some? ==> p.where.value == Where(options.tipo, options.clienteId, options.processoId)
    ensures p.limit.Some? <==> options.limit.Some? && options.limit.value.Finite? && options.limit.value.n > 0
    ensures p.limit.Some? ==>
      && 0 < p.limit.value <= MaxListLimit
      && p.limit.value <= options.limit.value.n
      && (p.limit.value == options.limit.value.n || p.limit.value == MaxListLimit)
  {
    var where := Where(options.tipo, options.clienteId, options.processoId);
    assert where == map[] <==> "tipo" !in where && "clienteId" !in where && "processoId" !in where;
    var limit :=
      if options.limit.Some? && options.limit.value.Finite? && options.limit.value.n > 0 then
        var k := options.limit.value.n;
        Some(if k < MaxListLimit then k else MaxListLimit)
      else None;
    ListPayload(WhereIfAny(where), limit)
  }

  /** A record read back from the store. */
  datatype MemoriaRegistro = MemoriaRegistro(
    id: string,
    texto: string,
    tipo: Option<string>,
    clienteId: Option<string>,
    processoId: Option<string>,
    criadoEm: Option<string>,
    metadados: Option<map<string, Json>>)

  /** `list[index]`, `undefined` past the end. */
  function At(list: seq<Json>, index: nat): Json {
    if index < |list| then list[index] else Undefined
  }

  /** `typeof meta?.[key] === "string" ? meta[key] : null` */
  function MetaText(meta: Option<map<string, Json>>, key: string): Option<string> {
    if meta.Some? && key in meta.value && meta.value[key].Str? then Some(meta.value[key].s) else None
  }

  /** The id a record is given: the store's id when it is a text, otherwise
      `memoria_<index>`. */
  function RecordId(ids: seq<Json>, index: nat): (id: string)
    ensures At(ids, index).Str? ==> id == At(ids, index).s
    ensures !At(ids, index).Str? ==> id == "memoria_" + NatToString(index)
  {
    if At(ids, index).Str? then At(ids, index).s else "memoria_" + NatToString(index)
  }

  /** Records whose store id is not a text get distinct ids. */
  lemma FallbackIdsDistinct(ids: seq<Json>, i: nat, j: nat)
    requires !At(ids, i).Str? && !At(ids, j).Str? && i != j
    ensures RecordId(ids, i) != RecordId(ids, j)
  {
    var p := "memoria_";
    if RecordId(ids, i) == RecordId(ids, j) {
      assert (p + NatToString(i))[|p|..] == NatToString(i);
      assert (p + NatToString(j))[|p|..] == NatToString(j);
      NatToStringInjective(i, j);
    }
  }

  /** The record at `index`, or none when its text is missing or blank. */
  function RecordAt(documentos: seq<Json>, metadados: seq<Json>, ids: seq<Json>, index: nat): (r: Option<MemoriaRegistro>)
    ensures r.Some? <==> At(documentos, index).Str? && !IsBlank(At(documentos, index).s)
    ensures r.Some? ==>
      && r.value.texto == Trim(At(documentos, index).s) && r.value.texto != [] && IsTrimmed(r.value.texto)
      && r.value.id == RecordId(ids, index)
      && r.value.metadados == SanitizeMetadata(At(metadados, index))
      && r.value.tipo == MetaText(r.value.metadados, "tipo")
      && r.value.clienteId == MetaText(r.value.metadados, "clienteId")
      && r.value.processoId == MetaText(r.value.metadados, "processoId")
      && r.value.criadoEm == MetaText(r.value.metadados, "criadoEm")
  {
    match SanitizeText(At(documentos, index))
    case None => None
    case Some(texto) =>
      var meta := SanitizeMetadata(At(metadados, index));
      Some(MemoriaRegistro(RecordId(ids, index), texto, MetaText(meta, "tipo"), MetaText(meta, "clienteId"),
                           MetaText(meta, "processoId"), MetaText(meta, "criadoEm"), meta))
  }

  /** The records of the first `n` documents, in order. */
  function Records(documentos: seq<Json>, metadados: seq<Json>, ids: seq<Json>, n: nat): (r: seq<MemoriaRegistro>)
    ensures |r| <= n
  {
    if n == 0 then []
    else
      var here := RecordAt(documentos, metadados, ids, n - 1);
      Records(documentos, metadados, ids, n - 1) + (if here.Some? then [here.value] else [])
  }

  /** Every record read back has a non-empty trimmed text. */
  lemma {:induction false} RecordsShape(documentos: seq<Json>, metadados: seq<Json>, ids: seq<Json>, n: nat)
    ensures forall r :: r in Records(documentos, metadados, ids, n) ==> r.texto != [] && IsTrimmed(r.texto)
  {
    if n > 0 {
      RecordsShape(documentos, metadados, ids, n - 1);
    }
  }

  /** Every document with a non-blank text gives its record. */
  lemma {:induction false} RecordsComplete(documentos: seq<Json>, metadados: seq<Json>, ids: seq<Json>, n: nat)
    ensures forall i :: 0 <= i < n && RecordAt(documentos, metadados, ids, i).Some? ==>
      RecordAt(documentos, metadados, ids, i).value in Records(documentos, metadados, ids, n)
  {
    if n > 0 {
      RecordsComplete(documentos, metadados, ids, n - 1);
      var prev := Records(documentos, metadados, ids, n - 1);
      var here := RecordAt(documentos, metadados, ids, n - 1);
      var rest := if here.Some? then [here.value] else [];
      assert Records(documentos, metadados, ids, n) == prev + rest;
      forall i | 0 <= i < n && RecordAt(documentos, metadados, ids, i).Some?
        ensures RecordAt(documentos, metadados, ids, i).value in prev + rest
      {
        if i == n - 1 {
          assert rest == [here.value];
        }
      }
    }
  }

  /** The record loop of `listarMemoriasInterno`. */
  method AssembleRecords(documentos: seq<Json>, metadados: seq<Json>, ids: seq<Json>)
    returns (registros: seq<MemoriaRegistro>)
    ensures registros == Records(documentos, metadados, ids, |documentos|)
  {
    registros := [];
    for index := 0 to |documentos|
      invariant registros == Records(documentos, metadados, ids, index)
    {
      var record := RecordAt(documentos, metadados, ids, index);
      assert Records(documentos, metadados, ids, index + 1)
          == Records(documentos, metadados, ids, index) + (if record.Some? then [record.value] else []);
      if record.Some? {
        registros := registros + [record.value];
      }
    }
  }

  /** What the listing gives for the store's answer. */
  function Listed(options: ListarMemoriaOptions, available: bool, get: ListPayload -> Result<Json>): seq<MemoriaRegistro> {
    if !available then []
    else
      match get(ListPayloadOf(options))
      case Err(_) => []
      case Ok(data) =>
        var documentos := Flatten(Get(data, "documents"));
        Records(documentos, Flatten(Get(data, "metadatas")), Flatten(Get(data, "ids")), |documentos|)
  }

  /** `flattenResponse` as a value. */
  function Flatten(value: Json): seq<Json> {
    if value.Arr? then Flat(value.items) else []
  }

  /** `listarMemoriasInterno(options)`. `available` says whether the store
      is configured and its collection reachable; `get` is the store's
      listing endpoint, an `Err` standing for a failed request. */
  method ListarMemoriasInterno(options: ListarMemoriaOptions, available: bool, get: ListPayload -> Result<Json>)
    returns (registros: seq<MemoriaRegistro>)
    ensures registros == Listed(options, available, get)
  {
    if !available {
      return [];
    }
    var payload := ListPayloadOf(options);
    var answer := get(payload);
    if answer.Err? {
      return [];
    }
    var data := answer.value;
    var documentos := FlattenResponse(Get(data, "documents"));
    var metadados := FlattenResponse(Get(data, "metadatas"));
    var ids := FlattenResponse(Get(data, "ids"));
    registros := AssembleRecords(documentos, metadados, ids);
  }

  /** `listarMemoriaPorCliente(clienteId, limit)`: nothing for a blank id,
      otherwise the listing filtered by the trimmed id. */
  method ListarMemoriaPorCliente(clienteId: string, limit: Option<Number>, available: bool, get: ListPayload -> Result<Json>)
    returns (registros: seq<MemoriaRegistro>)
    ensures IsBlank(clienteId) ==> registros == []
    ensures !IsBlank(clienteId) ==>
      registros == Listed(ListarMemoriaOptions(Some(Trim(clienteId)), None, None, limit), available, get)
  {
    if IsBlank(clienteId) {
      return [];
    }
    registros := ListarMemoriasInterno(ListarMemoriaOptions(Some(Trim(clienteId)), None, None, limit), available, get);
  }

  /** `listarMemoriaPorProcesso(processoId, limit)`: nothing for a blank id,
      otherwise the listing filtered by the trimmed id. */
  method ListarMemoriaPorProcesso(processoId: string, limit: Option<Number>, available: bool, get: ListPayload -> Result<Json>)
    returns (registros: seq<MemoriaRegistro>)
    ensures IsBlank(processoId) ==> registros == []
    ensures !IsBlank(processoId) ==>
      registros == Listed(ListarMemoriaOptions(None, Some(Trim(processoId)), None, limit), available, get)
  {
    if IsBlank(processoId) {
      return [];
    }
    registros := ListarMemoriasInterno(ListarMemoriaOptions(None, Some(Trim(processoId)), None, limit), available, get);
  }

  /** The per-client listing filters on the client alone, by its trimmed id. */
  lemma ClientListingFilter(clienteId: string, limit: Option<Number>)
    requires !IsBlank(clienteId)
    ensures ListPayloadOf(ListarMemoriaOptions(Some(Trim(clienteId)), None, None, limit)).where
            == Some(map["clienteId" := Trim(clienteId)])
  {
    var w := Where(None, Some(Trim(clienteId)), None);
    assert w.Keys == {"clienteId"};
  }

  /** The per-case listing filters on the case alone, by its trimmed id. */
  lemma ProcessListingFilter(processoId: string, limit: Option<Number>)
    requires !IsBlank(processoId)
    ensures ListPayloadOf(ListarMemoriaOptions(None, Some(Trim(processoId)), None, limit)).where
            == Some(map["processoId" := Trim(processoId)])
  {
    var w := Where(None, None, Some(Trim(processoId)));
    assert w.Keys == {"processoId"};
  }
}
