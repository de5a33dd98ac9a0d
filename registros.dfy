/** The records kept in the browser store (`window.dados`): glucose readings
    and food entries. Goals are objects updated in place and live in module
    Script as a class. */
module Registros {
  import opened Seqs
  import opened Strings
  import opened Faixas

  /** One element of `window.dados.glicemias`. `timestamp` is the instant
      derived from `data` and `hora` by the browser's `Date`, kept opaque. */
  datatype Glicemia = Glicemia(
    id: int,
    glicemia: int,
    data: string,
    hora: string,
    observacao: string,
    status: string,
    statusClass: string,
    timestamp: int)

  /** The five glycemic-index estimates a food entry can carry. */
  datatype IndiceGlicemico = Baixo | BaixoMedio | Medio | MedioAlto | Alto

  /** One element of `window.dados.alimentos`. */
  datatype Alimento = Alimento(
    id: int,
    nome: string,
    quantidade: Option<real>,
    carboidratos: Option<real>,
    categoria: string,
    data: string,
    hora: string,
    observacao: string,
    timestamp: int,
    indiceGlicemico: IndiceGlicemico)

  /** `dados.map(g => g.glicemia)`. */
  function Valores(gs: seq<Glicemia>): (vs: seq<int>)
    ensures |vs| == |gs|
    ensures forall i :: 0 <= i < |gs| ==> vs[i] == gs[i].glicemia
  {
    seq(|gs|, i requires 0 <= i < |gs| => gs[i].glicemia)
  }

  /** The reading is in the 70 to 180 mg/dL target. */
  function EhNormal(g: Glicemia): bool { NoAlvo(g.glicemia) }

  /** The reading is a hypoglycaemia (below 70 mg/dL). */
  function EhHipo(g: Glicemia): bool { Hipo(g.glicemia) }

  /** The reading is a hyperglycaemia (above 180 mg/dL). */
  function EhHiper(g: Glicemia): bool { Hiper(g.glicemia) }

  /** Chronological order: ascending by `timestamp`, the comparator
      `(a, b) => a.timestamp - b.timestamp`. */
  function PorTimestamp(g: Glicemia): int { g.timestamp }

  /** Most recent first: the comparator `(a, b) => b.timestamp - a.timestamp`. */
  function PorTimestampDesc(g: Glicemia): int { -g.timestamp }

  /** `g.data >= inicio && g.data <= fim`: the reading's date string lies in
      the closed period, by string comparison. */
  predicate NoPeriodo(g: Glicemia, inicio: string, fim: string)
  {
    LessEq(inicio, g.data) && LessEq(g.data, fim)
  }

  function NoPeriodoDe(inicio: string, fim: string): Glicemia -> bool
  {
    g => NoPeriodo(g, inicio, fim)
  }

  /** `glicemias.filter(g => g.data >= inicio && g.data <= fim)`. */
  function FiltrarPeriodo(gs: seq<Glicemia>, inicio: string, fim: string): (r: seq<Glicemia>)
    ensures forall g :: g in r <==> g in gs && NoPeriodo(g, inicio, fim)
  {
    Filter(gs, NoPeriodoDe(inicio, fim))
  }

  /** A period whose start lies after its end holds no reading. */
  lemma PeriodoInvertidoVazio(gs: seq<Glicemia>, inicio: string, fim: string)
    requires Less(fim, inicio)
    ensures FiltrarPeriodo(gs, inicio, fim) == []
  {
    var r := FiltrarPeriodo(gs, inicio, fim);
    if r != [] {
      LessEqTransitive(inicio, r[0].data, fim);
      assert false;
    }
  }

  /** The readings of a period in chronological order: the filter followed by
      `.sort((a, b) => a.timestamp - b.timestamp)`. */
  function PeriodoCronologico(gs: seq<Glicemia>, inicio: string, fim: string): (r: seq<Glicemia>)
    ensures SortedBy(r, PorTimestamp)
    ensures multiset(r) == multiset(FiltrarPeriodo(gs, inicio, fim))
    ensures forall g :: g in r <==> g in gs && NoPeriodo(g, inicio, fim)
  {
    var noPeriodo := FiltrarPeriodo(gs, inicio, fim);
    SortByCorrect(noPeriodo, PorTimestamp);
    assert forall g :: g in SortBy(noPeriodo, PorTimestamp) <==> g in multiset(noPeriodo);
    SortBy(noPeriodo, PorTimestamp)
  }

  /** No two different readings of `gs` carry the same timestamp. */
  ghost predicate TimestampsDistintos(gs: seq<Glicemia>)
  {
    forall x, y :: x in gs && y in gs && x.timestamp == y.timestamp ==> x == y
  }

  /** With distinct timestamps the chronological readings of a period do not
      depend on the order in which the store keeps them. */
  lemma PeriodoCronologicoIndependeDaOrdem(gs: seq<Glicemia>, hs: seq<Glicemia>, inicio: string, fim: string)
    requires multiset(gs) == multiset(hs)
    requires TimestampsDistintos(gs)
    ensures PeriodoCronologico(gs, inicio, fim) == PeriodoCronologico(hs, inicio, fim)
  {
    FilterPermutation(gs, hs, NoPeriodoDe(inicio, fim));
    var a := PeriodoCronologico(gs, inicio, fim);
    var b := PeriodoCronologico(hs, inicio, fim);
    SortedUnique(a, b, PorTimestamp);
  }
}
