/** The glucose chart (`GraficosSistema`): which readings it plots, the
    labels and values of its points, the colour of each point and the
    placeholder shown when the period holds no reading. Chart.js itself is
    not modelled: the chart's data is the state of the class below. */
module Graficos {
  import opened Seqs
  import opened Strings
  import opened Registros
  import opened Faixas

  // ---------------------------------------------------------------------
  // colours and labels of a value

  /** Point colours of the four reading bands: blue, green, orange, red. */
  const Cores: seq<string> := ["#4cc9f0", "#2ecc71", "#ff9e00", "#e74c3c"]

  /** `getClassificacao`: the band label of a value. */
  function GetClassificacao(valor: int): (r: string)
    ensures r == Rotulos[Faixa(valor)]
  {
    if valor < 70 then "Baixa"
    else if valor <= 180 then "Normal"
    else if valor <= 250 then "Alta"
    else "Muito Alta"
  }

  /** `getCorGlicemia`: the point colour of a value. */
  function GetCorGlicemia(valor: int): (r: string)
    ensures r == Cores[Faixa(valor)]
  {
    if valor < 70 then "#4cc9f0"
    else if valor <= 180 then "#2ecc71"
    else if valor <= 250 then "#ff9e00"
    else "#e74c3c"
  }

  /** Colour and tooltip label cut the value axis at the same boundaries:
      two values share a colour exactly when they share a label. */
  lemma CorAcompanhaClassificacao(v: int, w: int)
    ensures GetCorGlicemia(v) == GetCorGlicemia(w) <==> GetClassificacao(v) == GetClassificacao(w)
    ensures GetCorGlicemia(v) == GetCorGlicemia(w) <==> Faixa(v) == Faixa(w)
  {
  }

  // ---------------------------------------------------------------------
  // the readings of the chart

  /** `obterDadosFiltrados`: the readings of `[inicio, fim]`, the whole end
      day included, in chronological order, every copy kept. No store gives
      none, and so does a bound that is not a date: `new Date("")` of a
      cleared field is invalid, and every comparison with it fails. */
  function ObterDadosFiltrados(glicemias: Option<seq<Glicemia>>, inicio: string, fim: string): (r: seq<Glicemia>)
    ensures glicemias.None? || !DataIso(inicio) || !DataIso(fim) ==> r == []
    ensures glicemias.Some? && DataIso(inicio) && DataIso(fim) ==>
      SortedBy(r, PorTimestamp)
      && multiset(r) == multiset(FiltrarPeriodo(glicemias.value, inicio, fim))
      && forall g :: g in r <==> g in glicemias.value && LessEq(inicio, g.data) && LessEq(g.data, fim)
  {
    match glicemias
    case None => []
    case Some(gs) => if DataIso(inicio) && DataIso(fim) then PeriodoCronologico(gs, inicio, fim) else []
  }

  /** Day and month of a date as `new Date(data)` reads them,
      `${getDate()}/${getMonth() + 1}`, without leading zeros; a date that is
      not `YYYY-MM-DD` gives `NaN/NaN`. */
  function RotuloDia(data: string): string
  {
    if DataIso(data) then
      NatToString(DigitsValue(data[8..10])) + "/" + NatToString(DigitsValue(data[5..7]))
    else
      "NaN/NaN"
  }

  /** The label of an ISO date reads back as its day, a slash, its month. */
  lemma RotuloDiaCampos(data: string)
    requires DataIso(data)
    ensures Split(RotuloDia(data), '/') == [NatToString(DigitsValue(data[8..10])), NatToString(DigitsValue(data[5..7]))]
    ensures DigitsValue(Split(RotuloDia(data), '/')[0]) == DigitsValue(data[8..10])
    ensures DigitsValue(Split(RotuloDia(data), '/')[1]) == DigitsValue(data[5..7])
  {
    var dia, mes := NatToString(DigitsValue(data[8..10])), NatToString(DigitsValue(data[5..7]));
    assert '/' !in dia by {
      forall i | 0 <= i < |dia| ensures dia[i] != '/' {
        assert IsDigit(dia[i]);
      }
    }
    assert '/' !in mes by {
      forall i | 0 <= i < |mes| ensures mes[i] != '/' {
        assert IsDigit(mes[i]);
      }
    }
    SplitAtFirst(dia, '/', mes);
    SplitNoSeparator(mes, '/');
    NatToStringRoundTrip(DigitsValue(data[8..10]));
    NatToStringRoundTrip(DigitsValue(data[5..7]));
  }

  function MesmaData(data: string): Glicemia -> bool
  {
    (g: Glicemia) => g.data == data
  }

  /** Label of the `i`-th point: its day, followed by the first five
      characters of its hour when more than one plotted reading falls on
      that date. */
  function Rotulo(dados: seq<Glicemia>, i: nat): string
    requires i < |dados|
  {
    RotuloDia(dados[i].data) +
      (if Count(dados, MesmaData(dados[i].data)) > 1 then " " + Prefix(dados[i].hora, 5) else "")
  }

  /** The hour is appended exactly when another plotted reading shares the
      date. */
  lemma RotuloComHora(dados: seq<Glicemia>, i: nat)
    requires i < |dados|
    ensures (exists j :: 0 <= j < |dados| && j != i && dados[j].data == dados[i].data) ==>
      Rotulo(dados, i) == RotuloDia(dados[i].data) + " " + Prefix(dados[i].hora, 5)
    ensures (forall j :: 0 <= j < |dados| && j != i ==> dados[j].data != dados[i].data) ==>
      Rotulo(dados, i) == RotuloDia(dados[i].data)
  {
    CountOthers(dados, MesmaData(dados[i].data), i);
  }

  /** `processarDados`: one label and one value per reading, in order. */
  method ProcessarDados(dados: seq<Glicemia>) returns (labels: seq<string>, valores: seq<int>)
    ensures |labels| == |dados| && |valores| == |dados|
    ensures forall i :: 0 <= i < |dados| ==> valores[i] == dados[i].glicemia
    ensures forall i :: 0 <= i < |dados| ==> labels[i] == Rotulo(dados, i)
  {
    labels, valores := [], [];
    var index := 0;
    while index < |dados|
      invariant index <= |dados|
      invariant |labels| == index && |valores| == index
      invariant forall i :: 0 <= i < index ==> valores[i] == dados[i].glicemia
      invariant forall i :: 0 <= i < index ==> labels[i] == Rotulo(dados, i)
    {
      var glicemia := dados[index];
      var rotulo := RotuloDia(glicemia.data);
      if Count(dados, MesmaData(glicemia.data)) > 1 {
        rotulo := rotulo + " " + Prefix(glicemia.hora, 5);
      }
      assert rotulo == Rotulo(dados, index);
      RotulosAnexados(dados, labels, rotulo);
      labels := labels + [rotulo];
      valores := valores + [glicemia.glicemia];
      index := index + 1;
    }
  }

  /** Appending the next label keeps the labels those of the first readings. */
  lemma RotulosAnexados(dados: seq<Glicemia>, labels: seq<string>, rotulo: string)
    requires |labels| < |dados|
    requires forall i :: 0 <= i < |labels| ==> labels[i] == Rotulo(dados, i)
    requires rotulo == Rotulo(dados, |labels|)
    ensures forall i :: 0 <= i <= |labels| ==> (labels + [rotulo])[i] == Rotulo(dados, i)
  {
  }

  /** `pointBackgroundColor`: one colour for every point, as the chart is
      created, or one per point once data is plotted. */
  datatype CorPontos = Unica(cor: string) | PorPonto(cores: seq<string>)

  /** `valores.map(v => getCorGlicemia(v))`. */
  function CoresDe(valores: seq<int>): (r: seq<string>)
    ensures |r| == |valores|
    ensures forall i :: 0 <= i < |valores| ==> r[i] == GetCorGlicemia(valores[i])
  {
    seq(|valores|, i requires 0 <= i < |valores| => GetCorGlicemia(valores[i]))
  }

  /** Title of the plotted series. */
  function Titulo(n: nat): string
  {
    "Glicemia (" + NatToString(n) + " registros)"
  }

  // ---------------------------------------------------------------------
  // the chart object

  /** The chart system after `inicializar`: the chart exists and its data is
      the state below. Today and the start of the period are ISO dates the
      caller reads from the clock. */
  class GraficosSistema {
    var periodo: int
    var dataInicio: string
    var dataFim: string
    var labels: seq<string>
    var valores: seq<int>
    var cores: CorPontos
    var titulo: string

    /** Labels and values always come in pairs. */
    predicate Valid()
      reads this
    {
      |labels| == |valores|
    }

    /** The chart shows `dados`: one point per reading, labelled by
        `Rotulo`, coloured by its band, under the title with the count; or,
        when there is none, the single placeholder point with the colours
        and title it had before. */
    predicate Mostra(dados: seq<Glicemia>, coresAntes: CorPontos, tituloAntes: string)
      reads this
    {
      (dados == [] ==>
        labels == ["Sem dados"] && valores == [0] && cores == coresAntes && titulo == tituloAntes) &&
      (dados != [] ==>
        |labels| == |dados| && |valores| == |dados| &&
        (forall i :: 0 <= i < |dados| ==> valores[i] == dados[i].glicemia && labels[i] == Rotulo(dados, i)) &&
        cores == PorPonto(CoresDe(valores)) &&
        titulo == Titulo(|dados|))
    }

    /** `constructor` followed by `inicializar`: the default 30-day period,
        the empty chart of `criarGrafico`, then a first `atualizarGrafico`. */
    constructor (inicio: string, hoje: string, glicemias: Option<seq<Glicemia>>)
      ensures Valid()
      ensures periodo == 30 && dataInicio == inicio && dataFim == hoje
      ensures Mostra(ObterDadosFiltrados(glicemias, inicio, hoje), Unica("#4361ee"), "Glicemia (mg/dL)")
    {
      periodo := 30;
      dataInicio, dataFim := inicio, hoje;
      labels, valores := [], [];
      cores := Unica("#4361ee");
      titulo := "Glicemia (mg/dL)";
      new;
      AtualizarGrafico(glicemias);
    }

    /** `configurarDataPadrao`: the period ends today and starts `periodo`
        days earlier. */
    method ConfigurarDataPadrao(inicio: string, hoje: string)
      modifies this
      ensures dataInicio == inicio && dataFim == hoje
      ensures periodo == old(periodo) && labels == old(labels) && valores == old(valores)
      ensures cores == old(cores) && titulo == old(titulo)
    {
      dataInicio := inicio;
      dataFim := hoje;
    }

    /** `atualizarGrafico`: plot the readings of the period, or the single
        placeholder point when there is none. */
    method AtualizarGrafico(glicemias: Option<seq<Glicemia>>)
      requires Valid()
      modifies this
      ensures Valid()
      ensures periodo == old(periodo) && dataInicio == old(dataInicio) && dataFim == old(dataFim)
      ensures Mostra(ObterDadosFiltrados(glicemias, dataInicio, dataFim), old(cores), old(titulo))
    {
      var dados := ObterDadosFiltrados(glicemias, dataInicio, dataFim);
      if |dados| == 0 {
        labels := ["Sem dados"];
        valores := [0];
        return;
      }
      var ls, vs := ProcessarDados(dados);
      labels := ls;
      valores := vs;
      cores := PorPonto(CoresDe(vs));
      titulo := Titulo(|dados|);
    }

    /** Choosing a number of days in the period selector: store it, move the
        period to end today and redraw. */
    method EscolherPeriodo(dias: int, inicio: string, hoje: string, glicemias: Option<seq<Glicemia>>)
      requires Valid()
      modifies this
      ensures Valid()
      ensures periodo == dias && dataInicio == inicio && dataFim == hoje
      ensures Mostra(ObterDadosFiltrados(glicemias, inicio, hoje), old(cores), old(titulo))
    {
      periodo := dias;
      ConfigurarDataPadrao(inicio, hoje);
      AtualizarGrafico(glicemias);
    }

    /** Choosing "personalizado": the period becomes the last seven days,
        without a redraw. */
    method EscolherPersonalizado(umaSemanaAtras: string, hoje: string)
      modifies this
      ensures dataInicio == umaSemanaAtras && dataFim == hoje
      ensures periodo == old(periodo) && labels == old(labels) && valores == old(valores)
      ensures cores == old(cores) && titulo == old(titulo)
    {
      dataInicio := umaSemanaAtras;
      dataFim := hoje;
    }

    /** Editing the start date input redraws the chart. */
    method DefinirInicio(valor: string, glicemias: Option<seq<Glicemia>>)
      requires Valid()
      modifies this
      ensures Valid()
      ensures dataInicio == valor && dataFim == old(dataFim) && periodo == old(periodo)
      ensures Mostra(ObterDadosFiltrados(glicemias, valor, dataFim), old(cores), old(titulo))
    {
      dataInicio := valor;
      AtualizarGrafico(glicemias);
    }

    /** Editing the end date input redraws the chart. */
    method DefinirFim(valor: string, glicemias: Option<seq<Glicemia>>)
      requires Valid()
      modifies this
      ensures Valid()
      ensures dataFim == valor && dataInicio == old(dataInicio) && periodo == old(periodo)
      ensures Mostra(ObterDadosFiltrados(glicemias, dataInicio, valor), old(cores), old(titulo))
    {
      dataFim := valor;
      AtualizarGrafico(glicemias);
    }
  }
}
