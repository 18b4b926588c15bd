/**
  The record the manual, CSV and gateway intakes hand to
  `upsertProcessoFromDTO`, and the part of the `processos` table they can
  observe: which numbers already have a row. The upsert itself lives in
  the database layer and is a parameter of every operation that calls it.
 */
module ProcessoDto {
  import opened Js

  /** The DTO object literal built by the intakes. */
  datatype Dto = Dto(
    numero: Json,
    classe: Json,
    assunto: Json,
    foro: Json,
    vara: Json,
    instancia: Json,
    situacao: Json,
    poloAtivo: seq<Json>,
    poloPassivo: seq<Json>,
    origem: Json)

  /** What a call of `upsertProcessoFromDTO(dto)` gives back: the row id
      (falsy when it is 0) or a thrown database error. */
  datatype UpsertAnswer = Id(n: nat) | Threw

  /** `if (!id)` */
  predicate Failed(a: UpsertAnswer) {
    a.Threw? || a.n == 0
  }

  /** The set of numbers with a row, after the upsert answered `a`: a
      successful upsert leaves a row for the DTO's number, a failed one
      leaves the table as it was. */
  function Apply(known: set<Json>, dto: Dto, a: UpsertAnswer): (r: set<Json>)
    ensures known <= r
    ensures !Failed(a) ==> dto.numero in r
    ensures Failed(a) ==> r == known
  {
    if Failed(a) then known else known + {dto.numero}
  }

  /** A successful upsert of a number that had no row adds exactly one
      number; every other answer adds none. */
  lemma ApplyCount(known: set<Json>, dto: Dto, a: UpsertAnswer)
    ensures |Apply(known, dto, a)| == |known| + (if !Failed(a) && dto.numero !in known then 1 else 0)
  {
    if !Failed(a) && dto.numero !in known {
      assert Apply(known, dto, a) - {dto.numero} == known;
    } else if !Failed(a) {
      assert Apply(known, dto, a) == known;
    }
  }
}
