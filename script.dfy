/** The application's main script (`js/script.js`): the glucose form's
    validation and status banding, the record store (`window.dados`) with
    its add, delete and goal-completion operations, the history and goal
    views, the period filter and the quick statistics. */
module Script {
  import opened Seqs
  import opened Strings
  import opened Registros
  import opened Rounding
  import opened Faixas

  // ---------------------------------------------------------------------
  // the glucose form

  /** The form's check `!glicemia || glicemia < 20 || glicemia > 600`
      fails, on the value `parseInt` read from the field (`None` for NaN). */
  function ValorValido(valor: Option<int>): (ok: bool)
    ensures ok <==> valor.Some? && 20 <= valor.value <= 600
  {
    match valor
    case None => false
    case Some(v) => !(v == 0 || v < 20 || v > 600)
  }

  /** The `status` and `statusClass` the form assigns to a value: the label
      and the class of its band. */
  function StatusFormulario(v: int): (r: (string, string))
    ensures r == (Rotulos[Faixa(v)], Classes[Faixa(v)])
  {
    if v < 70 then ("Baixa", "baixa")
    else if v <= 180 then ("Normal", "normal")
    else if v <= 250 then ("Alta", "alta")
    else ("Muito Alta", "muito-alta")
  }

  /** The form's bands cover every value, and a value falls in exactly one
      of them: below 70, 70 to 180, 181 to 250, above 250. */
  lemma StatusFormularioBandas(v: int)
    ensures StatusFormulario(v).0 in Rotulos
    ensures StatusFormulario(v).0 == "Baixa" <==> v < 70
    ensures StatusFormulario(v).0 == "Normal" <==> 70 <= v <= 180
    ensures StatusFormulario(v).0 == "Alta" <==> 180 < v <= 250
    ensures StatusFormulario(v).0 == "Muito Alta" <==> v > 250
  {
    assert Rotulos[0] != Rotulos[1] && Rotulos[0] != Rotulos[2] && Rotulos[0] != Rotulos[3];
    assert Rotulos[1] != Rotulos[2] && Rotulos[1] != Rotulos[3] && Rotulos[2] != Rotulos[3];
  }

  /** The record the form stores; `id` is `Date.now()` and `timestamp` the
      instant of `${data}T${hora}`, both given. */
  function NovoRegistro(id: int, v: int, data: string, hora: string, observacao: string, timestamp: int): (g: Glicemia)
    ensures g.glicemia == v && g.data == data && g.hora == hora && g.observacao == observacao
    ensures g.status == Rotulos[Faixa(v)] && g.statusClass == Classes[Faixa(v)]
    ensures g.id == id && g.timestamp == timestamp
  {
    var (status, classe) := StatusFormulario(v);
    Glicemia(id, v, data, hora, observacao, status, classe, timestamp)
  }

  /** The outcome of submitting the glucose form. */
  datatype Envio = ValorInvalido | DataAusente | HoraAusente | Registrado(registro: Glicemia)

  // ---------------------------------------------------------------------
  // goals

  /** One element of `window.dados.metas`. `concluida` and `dataConclusao`
      are set in place when the goal is completed. */
  class Meta {
    const id: int
    const descricao: string
    const dataLimite: string
    const categoria: string
    const dataCriacao: string
    var concluida: bool
    var dataConclusao: Option<string>

    constructor (id: int, descricao: string, dataLimite: string, categoria: string, dataCriacao: string)
      ensures this.id == id && this.descricao == descricao && this.dataLimite == dataLimite
      ensures this.categoria == categoria && this.dataCriacao == dataCriacao
      ensures !concluida && dataConclusao == None
    {
      this.id := id;
      this.descricao := descricao;
      this.dataLimite := dataLimite;
      this.categoria := categoria;
      this.dataCriacao := dataCriacao;
      concluida := false;
      dataConclusao := None;
    }
  }

  /** `metas.find(m => m.id === id)`, as the position of the first goal with
      that id. */
  function PrimeiraMeta(ms: seq<Meta>, id: int): (k: Option<nat>)
    ensures k.Some? ==> k.value < |ms| && ms[k.value].id == id
    ensures k.Some? ==> forall j :: 0 <= j < k.value ==> ms[j].id != id
    ensures k.None? <==> forall j :: 0 <= j < |ms| ==> ms[j].id != id
  {
    if ms == [] then None
    else if ms[0].id == id then Some(0)
    else match PrimeiraMeta(ms[1..], id)
      case None => None
      case Some(k) => Some(k + 1)
  }

  /** `metas.filter(m => !m.concluida)`. */
  function Pendentes(ms: seq<Meta>): (r: seq<Meta>)
    reads set m | m in ms
    ensures forall i :: 0 <= i < |r| ==> r[i] in ms && !r[i].concluida
    ensures forall i :: 0 <= i < |ms| && !ms[i].concluida ==> ms[i] in r
    ensures IsSubsequence(r, ms)
  {
    if ms == [] then []
    else
      var resto := Pendentes(ms[1..]);
      assert forall i :: 1 <= i < |ms| ==> ms[i] == ms[1..][i - 1];
      if !ms[0].concluida then
        assert ([ms[0]] + resto)[1..] == resto;
        [ms[0]] + resto
      else resto
  }

  /** `metas.filter(m => m.concluida)`. */
  function Concluidas(ms: seq<Meta>): (r: seq<Meta>)
    reads set m | m in ms
    ensures forall i :: 0 <= i < |r| ==> r[i] in ms && r[i].concluida
    ensures forall i :: 0 <= i < |ms| && ms[i].concluida ==> ms[i] in r
    ensures IsSubsequence(r, ms)
  {
    if ms == [] then []
    else
      var resto := Concluidas(ms[1..]);
      assert forall i :: 1 <= i < |ms| ==> ms[i] == ms[1..][i - 1];
      if ms[0].concluida then
        assert ([ms[0]] + resto)[1..] == resto;
        [ms[0]] + resto
      else resto
  }

  /** Every goal lands in exactly one of the two lists, and the lists
      together are as long as the goals. */
  lemma {:induction false} PendentesConcluidasParticionam(ms: seq<Meta>)
    ensures |Pendentes(ms)| + |Concluidas(ms)| == |ms|
    ensures forall i :: 0 <= i < |ms| ==> (ms[i] in Pendentes(ms) <==> ms[i] !in Concluidas(ms))
  {
    if ms != [] {
      PendentesConcluidasParticionam(ms[1..]);
    }
  }

  /** A goal with another id. */
  function OutraMeta(id: int): Meta -> bool
  {
    (m: Meta) => m.id != id
  }

  // ---------------------------------------------------------------------
  // the store

  /** `window.dados` as far as this script updates it: the readings and the
      goals. */
  class Dados {
    var glicemias: seq<Glicemia>
    var metas: seq<Meta>

    /** Goals are separate objects: no goal is listed twice. */
    ghost predicate Valid()
      reads this
    {
      Distinct(metas)
    }

    constructor ()
      ensures Valid() && glicemias == [] && metas == []
    {
      glicemias := [];
      metas := [];
    }

    /** The glucose form's submit handler: the value is checked first,
        then the date, then the hour; a valid reading is appended with the
        status of its band. */
    method RegistrarGlicemia(valor: Option<int>, data: string, hora: string, observacao: string, id: int, timestamp: int)
      returns (r: Envio)
      modifies this
      ensures r == ValorInvalido <==> !ValorValido(valor)
      ensures r == DataAusente <==> ValorValido(valor) && data == ""
      ensures r == HoraAusente <==> ValorValido(valor) && data != "" && hora == ""
      ensures r.Registrado? <==> ValorValido(valor) && data != "" && hora != ""
      ensures r.Registrado? ==> r.registro == NovoRegistro(id, valor.value, data, hora, observacao, timestamp)
      ensures r.Registrado? ==> glicemias == old(glicemias) + [r.registro]
      ensures !r.Registrado? ==> glicemias == old(glicemias)
      ensures metas == old(metas)
    {
      if !ValorValido(valor) {
        return ValorInvalido;
      }
      if data == "" {
        return DataAusente;
      }
      if hora == "" {
        return HoraAusente;
      }
      var registro := NovoRegistro(id, valor.value, data, hora, observacao, timestamp);
      glicemias := glicemias + [registro];
      r := Registrado(registro);
    }

    /** `excluirRegistroGlicemia(id)`: after confirmation, every reading
        with that id is dropped. */
    method ExcluirRegistroGlicemia(id: int, confirmado: bool)
      modifies this
      ensures glicemias == (if confirmado then SemRegistro(old(glicemias), id) else old(glicemias))
      ensures metas == old(metas)
    {
      if confirmado {
        glicemias := SemRegistro(glicemias, id);
      }
    }

    /** The goal form's submit handler: an empty description is refused;
        otherwise a new, pending goal is appended. */
    method AdicionarMeta(descricao: string, dataLimite: string, categoria: string, id: int, hoje: string)
      returns (ok: bool)
      requires Valid()
      modifies this
      ensures Valid()
      ensures ok <==> descricao != ""
      ensures !ok ==> metas == old(metas)
      ensures ok ==> |metas| == |old(metas)| + 1 && metas[..|old(metas)|] == old(metas)
      ensures ok ==> fresh(metas[|metas| - 1])
      ensures ok ==> var m := metas[|metas| - 1];
        m.id == id && m.descricao == descricao && m.dataLimite == dataLimite
        && m.categoria == categoria && m.dataCriacao == hoje && !m.concluida
      ensures glicemias == old(glicemias)
    {
      if descricao == "" {
        return false;
      }
      var meta := new Meta(id, descricao, dataLimite, categoria, hoje);
      metas := metas + [meta];
      ok := true;
    }

    /** `concluirMeta(id)`: the first goal with that id is marked completed
        on `hoje`; every other goal keeps its state, and nothing happens
        when no goal has that id. */
    method ConcluirMeta(id: int, hoje: string) returns (encontrada: bool)
      requires Valid()
      modifies set m | m in metas
      ensures Valid() && metas == old(metas) && glicemias == old(glicemias)
      ensures encontrada <==> exists j :: 0 <= j < |metas| && metas[j].id == id
      ensures forall j :: 0 <= j < |metas| ==>
        if PrimeiraMeta(metas, id) == Some(j) then
          metas[j].concluida && metas[j].dataConclusao == Some(hoje)
        else
          metas[j].concluida == old(metas[j].concluida)
          && metas[j].dataConclusao == old(metas[j].dataConclusao)
    {
      var k := PrimeiraMeta(metas, id);
      if k.None? {
        return false;
      }
      var meta := metas[k.value];
      meta.concluida := true;
      meta.dataConclusao := Some(hoje);
      encontrada := true;
    }

    /** `excluirMeta(id)`: after confirmation, every goal with that id is
        dropped. */
    method ExcluirMeta(id: int, confirmado: bool)
      requires Valid()
      modifies this
      ensures Valid()
      ensures metas == (if confirmado then Filter(old(metas), OutraMeta(id)) else old(metas))
      ensures forall m :: m in metas <==> m in old(metas) && (confirmado ==> m.id != id)
      ensures glicemias == old(glicemias)
    {
      if confirmado {
        FilterDistinct(metas, OutraMeta(id));
        metas := Filter(metas, OutraMeta(id));
      }
    }
  }

  // ---------------------------------------------------------------------
  // pure views of the store

  /** A reading with another id. */
  function OutroRegistro(id: int): Glicemia -> bool
  {
    (g: Glicemia) => g.id != id
  }

  /** `glicemias.filter(g => g.id !== id)`: every reading with that id is
      dropped, the others stay in their order. */
  function SemRegistro(gs: seq<Glicemia>, id: int): (r: seq<Glicemia>)
    ensures forall g :: g in r <==> g in gs && g.id != id
    ensures IsSubsequence(r, gs)
    ensures |r| == |gs| <==> forall i :: 0 <= i < |gs| ==> gs[i].id != id
  {
    FilterKeepsOrder(gs, OutroRegistro(id));
    CountAllIff(gs, OutroRegistro(id));
    Filter(gs, OutroRegistro(id))
  }

  /** `obterGlicemiasPeriodo(inicio, fim)`: the readings of the closed
      period, in the order of the store. */
  function ObterGlicemiasPeriodo(gs: seq<Glicemia>, inicio: string, fim: string): (r: seq<Glicemia>)
    ensures forall g :: g in r <==> g in gs && NoPeriodo(g, inicio, fim)
    ensures IsSubsequence(r, gs)
  {
    FilterKeepsOrder(gs, NoPeriodoDe(inicio, fim));
    FiltrarPeriodo(gs, inicio, fim)
  }

  /** A reading passes the history view's filters: the date filter when
      one is set, the status filter unless it is "todos". */
  predicate PassaFiltros(g: Glicemia, filtroData: string, filtroStatus: string)
  {
    (filtroData == "" || g.data == filtroData)
    && (filtroStatus == "todos" || g.statusClass == filtroStatus)
  }

  function FiltrosDe(filtroData: string, filtroStatus: string): Glicemia -> bool
  {
    g => PassaFiltros(g, filtroData, filtroStatus)
  }

  /** The list `atualizarHistorico` shows: the filtered readings, most
      recent first. */
  function FiltrarHistorico(gs: seq<Glicemia>, filtroData: string, filtroStatus: string): (r: seq<Glicemia>)
    ensures SortedBy(r, PorTimestampDesc)
    ensures forall i, j :: 0 <= i < j < |r| ==> r[i].timestamp >= r[j].timestamp
    ensures multiset(r) == multiset(Filter(gs, FiltrosDe(filtroData, filtroStatus)))
    ensures forall g :: g in r <==> g in gs && PassaFiltros(g, filtroData, filtroStatus)
  {
    var filtradas := Filter(gs, FiltrosDe(filtroData, filtroStatus));
    SortByCorrect(filtradas, PorTimestampDesc);
    var r := SortBy(filtradas, PorTimestampDesc);
    assert forall g :: g in r <==> g in multiset(filtradas);
    assert forall i, j :: 0 <= i < j < |r| ==> PorTimestampDesc(r[i]) <= PorTimestampDesc(r[j]);
    r
  }

  /** With no filter set the history shows every reading. */
  lemma HistoricoSemFiltros(gs: seq<Glicemia>)
    ensures multiset(FiltrarHistorico(gs, "", "todos")) == multiset(gs)
  {
    FilterAll(gs, FiltrosDe("", "todos"));
  }

  /** The result of the script's `calcularEstatisticas(glicemias)`; the mean
      is not rounded here, the share in range is. */
  datatype EstatisticasRapidas = EstatisticasRapidas(media: real, minima: int, maxima: int, percentualNormais: real)

  /** `calcularEstatisticas(glicemias)`: zeros for no reading; otherwise
      the mean, the extremes and the rounded share of readings in
      70 to 180 mg/dL. */
  function CalcularEstatisticas(gs: seq<Glicemia>): (e: EstatisticasRapidas)
    ensures gs == [] ==> e == EstatisticasRapidas(0.0, 0, 0, 0.0)
    ensures gs != [] ==>
      e.minima as real <= e.media <= e.maxima as real
      && e.minima in Valores(gs) && e.maxima in Valores(gs)
      && (forall i :: 0 <= i < |gs| ==> e.minima <= gs[i].glicemia <= e.maxima)
      && 0.0 <= e.percentualNormais <= 100.0
      && ((forall i :: 0 <= i < |gs| ==> NoAlvo(gs[i].glicemia)) ==> e.percentualNormais == 100.0)
      && ((forall i :: 0 <= i < |gs| ==> !NoAlvo(gs[i].glicemia)) ==> e.percentualNormais == 0.0)
    ensures gs != [] ==>
      e.media == Mean(Valores(gs)) && e.minima == Min(Valores(gs)) && e.maxima == Max(Valores(gs))
      && e.percentualNormais == Percentual(Count(gs, EhNormal), |gs|)
  {
    if gs == [] then EstatisticasRapidas(0.0, 0, 0, 0.0)
    else
      var vs := Valores(gs);
      var normais := Count(gs, EhNormal);
      MeanBetweenExtremes(vs);
      PercentualLimites(normais, |gs|);
      CountAllIff(gs, EhNormal);
      CountPositiveIff(gs, EhNormal);
      EstatisticasRapidas(Mean(vs), Min(vs), Max(vs), Percentual(normais, |gs|))
  }

  // ---------------------------------------------------------------------
  // display helpers

  /** The goal categories the script names. */
  const CategoriasMeta: map<string, string> :=
    map["exercicio" := "Exercício", "alimentacao" := "Alimentação",
        "medicacao" := "Medicação", "controle" := "Controle"]

  /** `formatarCategoria(categoria)`: the display name of a known
      category, the key itself otherwise. */
  function FormatarCategoria(categoria: string): (r: string)
    ensures categoria in CategoriasMeta ==> r == CategoriasMeta[categoria] && r != categoria
    ensures categoria !in CategoriasMeta ==> r == categoria
  {
    if categoria in CategoriasMeta then CategoriasMeta[categoria] else categoria
  }
}
