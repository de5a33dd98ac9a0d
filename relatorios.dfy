/** The medical report (`RelatoriosSistema`): choosing the readings of a
    period, the report statistics, the banded classifications shown beside
    them, the sample table, the recommendations, and the report state kept
    by the object between generating a report and downloading its PDF. */
module Relatorios {
  import opened Seqs
  import opened Registros
  import opened Strings
  import opened Rounding
  import opened Faixas

  // ---------------------------------------------------------------------
  // readings of the period

  /** `obterDadosRelatorio(inicio, fim)`: the stored readings whose date
      lies in `[inicio, fim]`, in chronological order. An empty store gives
      an empty list, as the filter of an empty list does. */
  function ObterDadosRelatorio(glicemias: seq<Glicemia>, inicio: string, fim: string): (dados: seq<Glicemia>)
    ensures SortedBy(dados, PorTimestamp)
    ensures multiset(dados) == multiset(FiltrarPeriodo(glicemias, inicio, fim))
    ensures forall g :: g in dados <==> g in glicemias && NoPeriodo(g, inicio, fim)
  {
    PeriodoCronologico(glicemias, inicio, fim)
  }

  // ---------------------------------------------------------------------
  // statistics

  /** The object returned by `calcularEstatisticas`. `variancia` is the
      square of the unrounded standard deviation (the report prints its
      square root rounded to one decimal as `desvioPadrao`);
      `percentualNormais` is the `toFixed(1)` text read as a number. */
  datatype EstatisticasRelatorio = EstatisticasRelatorio(
    media: real,
    minima: int,
    maxima: int,
    percentualNormais: real,
    variancia: real,
    variabilidade: real,
    totalRegistros: nat,
    hipoglicemias: nat,
    hiperglicemias: nat,
    mediaPosPrandial: real,
    mediaJejum: real)

  /** After a meal: the hour of `hora` lies in 12..14 or 19..21. A reading
      whose hour does not parse (`NaN`) is in neither window. */
  function EhPosPrandial(g: Glicemia): bool
  {
    var h := Hora(g.hora);
    h.Some? && ((12 <= h.value <= 14) || (19 <= h.value <= 21))
  }

  /** Fasting: the hour of `hora` lies in 6..9. */
  function EhJejum(g: Glicemia): bool
  {
    var h := Hora(g.hora);
    h.Some? && 6 <= h.value <= 9
  }

  /** The mean of the readings, 0 for none. */
  function MediaDe(gs: seq<Glicemia>): real
  {
    if gs == [] then 0.0 else Mean(Valores(gs))
  }

  /** `calcularVariabilidade(dados)`: the mean absolute deviation of the
      readings from their mean, 0 for fewer than two readings. */
  function CalcularVariabilidade(dados: seq<Glicemia>): (v: real)
    ensures v >= 0.0
  {
    if |dados| < 2 then 0.0 else MeanAbsDeviation(Valores(dados))
  }

  /** `calcularEstatisticas(dados)`: all zeros for no readings; otherwise
      mean, extremes, time in range, deviation, variability, the three
      counts and the two time-of-day means, rounded as the source rounds
      them. */
  function CalcularEstatisticas(dados: seq<Glicemia>): (e: EstatisticasRelatorio)
    ensures e.totalRegistros == |dados|
    ensures dados == [] ==> e == EstatisticasRelatorio(0.0, 0, 0, 0.0, 0.0, 0.0, 0, 0, 0, 0.0, 0.0)
  {
    if dados == [] then EstatisticasRelatorio(0.0, 0, 0, 0.0, 0.0, 0.0, 0, 0, 0, 0.0, 0.0)
    else
      var valores := Valores(dados);
      EstatisticasRelatorio(
        RoundTenth(Mean(valores)),
        Min(valores),
        Max(valores),
        Percentual(Count(dados, EhNormal), |dados|),
        Variance(valores),
        RoundTenth(CalcularVariabilidade(dados)),
        |dados|,
        Count(dados, EhHipo),
        Count(dados, EhHiper),
        RoundTenth(MediaDe(Filter(dados, EhPosPrandial))),
        RoundTenth(MediaDe(Filter(dados, EhJejum))))
  }

  /** For a non-empty period each field is the measure that the lemmas
      below and in `Seqs` describe: the rounded mean, the extremes, the
      rounded share in range, the variance, the rounded mean absolute
      deviation, the band counts and the rounded window means. */
  lemma CamposEstatisticas(dados: seq<Glicemia>)
    requires dados != []
    ensures CalcularEstatisticas(dados).media == RoundTenth(Mean(Valores(dados)))
    ensures CalcularEstatisticas(dados).minima == Min(Valores(dados))
    ensures CalcularEstatisticas(dados).maxima == Max(Valores(dados))
    ensures CalcularEstatisticas(dados).percentualNormais == Percentual(Count(dados, EhNormal), |dados|)
    ensures CalcularEstatisticas(dados).variancia == Variance(Valores(dados))
    ensures CalcularEstatisticas(dados).variabilidade == RoundTenth(CalcularVariabilidade(dados))
    ensures CalcularEstatisticas(dados).hipoglicemias == Count(dados, EhHipo)
    ensures CalcularEstatisticas(dados).hiperglicemias == Count(dados, EhHiper)
    ensures CalcularEstatisticas(dados).mediaPosPrandial == RoundTenth(MediaDe(Filter(dados, EhPosPrandial)))
    ensures CalcularEstatisticas(dados).mediaJejum == RoundTenth(MediaDe(Filter(dados, EhJejum)))
  {
  }

  /** Every reading is exactly one of: hypoglycaemia, in range,
      hyperglycaemia. */
  lemma ContagensParticionam(dados: seq<Glicemia>)
    ensures CalcularEstatisticas(dados).hipoglicemias + Count(dados, EhNormal)
            + CalcularEstatisticas(dados).hiperglicemias == CalcularEstatisticas(dados).totalRegistros
  {
    CountPartition(dados, EhHipo, EhNormal, EhHiper);
  }

  /** The minimum, the mean (rounded as reported) and the maximum are in
      order, and the extremes are readings of the period. */
  lemma MediaEntreExtremos(dados: seq<Glicemia>)
    requires dados != []
    ensures CalcularEstatisticas(dados).minima as real <= CalcularEstatisticas(dados).media
            <= CalcularEstatisticas(dados).maxima as real
    ensures CalcularEstatisticas(dados).minima in Valores(dados)
    ensures CalcularEstatisticas(dados).maxima in Valores(dados)
  {
    var valores := Valores(dados);
    MeanBetweenExtremes(valores);
    RoundTenthWithin(Mean(valores), Min(valores), Max(valores));
  }

  /** The time in range is a percentage; it is 100 when every reading is in
      range, 0 when none is, and below 2000 readings it is 100 only when
      every reading is in range. */
  lemma PercentualNormaisLimites(dados: seq<Glicemia>)
    ensures 0.0 <= CalcularEstatisticas(dados).percentualNormais <= 100.0
    ensures dados != [] && (forall i :: 0 <= i < |dados| ==> NoAlvo(dados[i].glicemia))
            ==> CalcularEstatisticas(dados).percentualNormais == 100.0
    ensures (forall i :: 0 <= i < |dados| ==> !NoAlvo(dados[i].glicemia))
            ==> CalcularEstatisticas(dados).percentualNormais == 0.0
    ensures 0 < |dados| < 2000 && CalcularEstatisticas(dados).percentualNormais == 100.0
            ==> forall i :: 0 <= i < |dados| ==> NoAlvo(dados[i].glicemia)
  {
    CountAllIff(dados, EhNormal);
    CountPositiveIff(dados, EhNormal);
    if dados != [] {
      PercentualLimites(Count(dados, EhNormal), |dados|);
      if |dados| < 2000 && Count(dados, EhNormal) < |dados| {
        PercentualAbaixoDeCem(Count(dados, EhNormal), |dados|);
      }
    }
  }

  /** From 2000 readings on, a period with one reading out of range still
      reports 100.0 % in range. */
  lemma PercentualCemComLeituraFora(dados: seq<Glicemia>)
    requires |dados| >= 2000 && Count(dados, EhNormal) == |dados| - 1
    ensures CalcularEstatisticas(dados).percentualNormais == 100.0
    ensures exists i :: 0 <= i < |dados| && !NoAlvo(dados[i].glicemia)
  {
    var e := CalcularEstatisticas(dados);
    PercentualArredondaParaCem(|dados|);
    assert e.percentualNormais == Percentual(|dados| - 1, |dados|);
    CountAllIff(dados, EhNormal);
    var i :| 0 <= i < |dados| && !EhNormal(dados[i]);
  }

  /** The variability is zero exactly when there are fewer than two readings
      or all readings are equal; the reported deviation is zero under the
      same condition for a non-empty period. */
  lemma VariabilidadeNula(dados: seq<Glicemia>)
    ensures CalcularVariabilidade(dados) == 0.0 <==> (|dados| < 2 || AllEqual(Valores(dados)))
    ensures dados != [] ==> (CalcularEstatisticas(dados).variancia == 0.0 <==> AllEqual(Valores(dados)))
  {
    if |dados| >= 2 {
      MeanAbsDeviationZeroIff(Valores(dados));
    } else if |dados| == 1 {
      assert AllEqual(Valores(dados));
    }
    if dados != [] {
      VarianceZeroIff(Valores(dados));
    }
  }

  /** Each time-of-day mean is 0 when no reading falls in its window and
      otherwise is the sum of the window's readings over their number,
      rounded, and so lies between the lowest and the highest of them. */
  lemma MediasPorHorario(dados: seq<Glicemia>)
    ensures Filter(dados, EhJejum) != [] ==>
      CalcularEstatisticas(dados).mediaJejum
        == RoundTenth(Sum(Valores(Filter(dados, EhJejum))) as real / |Filter(dados, EhJejum)| as real)
    ensures Filter(dados, EhPosPrandial) != [] ==>
      CalcularEstatisticas(dados).mediaPosPrandial
        == RoundTenth(Sum(Valores(Filter(dados, EhPosPrandial))) as real / |Filter(dados, EhPosPrandial)| as real)
    ensures Filter(dados, EhJejum) == [] ==> CalcularEstatisticas(dados).mediaJejum == 0.0
    ensures Filter(dados, EhJejum) != [] ==>
      Min(Valores(Filter(dados, EhJejum))) as real <= CalcularEstatisticas(dados).mediaJejum
      <= Max(Valores(Filter(dados, EhJejum))) as real
    ensures Filter(dados, EhPosPrandial) == [] ==> CalcularEstatisticas(dados).mediaPosPrandial == 0.0
    ensures Filter(dados, EhPosPrandial) != [] ==>
      Min(Valores(Filter(dados, EhPosPrandial))) as real <= CalcularEstatisticas(dados).mediaPosPrandial
      <= Max(Valores(Filter(dados, EhPosPrandial))) as real
  {
    MediaDeLimites(Filter(dados, EhJejum));
    MediaDeLimites(Filter(dados, EhPosPrandial));
  }

  lemma MediaDeLimites(gs: seq<Glicemia>)
    ensures gs == [] ==> RoundTenth(MediaDe(gs)) == 0.0
    ensures gs != [] ==> Min(Valores(gs)) as real <= RoundTenth(MediaDe(gs)) <= Max(Valores(gs)) as real
  {
    if gs == [] {
      RoundTenthInteger(0);
    } else {
      MeanBetweenExtremes(Valores(gs));
      RoundTenthWithin(Mean(Valores(gs)), Min(Valores(gs)), Max(Valores(gs)));
    }
  }

  // ---------------------------------------------------------------------
  // labels

  /** `obterStatusGlicemia(glicemia)`. */
  function ObterStatusGlicemia(glicemia: int): (r: string)
    ensures r == Rotulos[Faixa(glicemia)]
  {
    if glicemia < 70 then "Baixa"
    else if glicemia <= 180 then "Normal"
    else if glicemia <= 250 then "Alta"
    else "Muito Alta"
  }

  /** `obterClasseGlicemia(glicemia)`. */
  function ObterClasseGlicemia(glicemia: int): (r: string)
    ensures r == Classes[Faixa(glicemia)]
  {
    if glicemia < 70 then "baixa"
    else if glicemia <= 180 then "normal"
    else if glicemia <= 250 then "alta"
    else "muito-alta"
  }

  /** The titles of the known report types. */
  const TiposRelatorio: map<string, string> :=
    map["completo" := "Relatório Completo", "glicemia" := "Apenas Dados de Glicemia",
        "simples" := "Relatório Simples"]

  /** `obterNomeTipoRelatorio(tipo)`: the title of a known report type,
      `Relatório Personalizado` for any other. */
  function ObterNomeTipoRelatorio(tipo: string): (nome: string)
    ensures tipo == "completo" ==> nome == "Relatório Completo"
    ensures tipo == "glicemia" ==> nome == "Apenas Dados de Glicemia"
    ensures tipo == "simples" ==> nome == "Relatório Simples"
    ensures nome == "Relatório Personalizado" <==> tipo !in TiposRelatorio
  {
    if tipo in TiposRelatorio then TiposRelatorio[tipo] else "Relatório Personalizado"
  }

  const ClassesMedia: seq<string> := ["excelente", "bom", "regular", "precisa-ajuste"]
  const TextosMedia: seq<string> := ["Excelente", "Bom", "Regular", "Precisa Ajuste"]
  const InterpretacoesMedia: seq<string> := [
    "Controle glicêmico excelente, dentro dos parâmetros ideais para controle rigoroso.",
    "Controle adequado para a maioria dos pacientes diabéticos. Mantenha o acompanhamento.",
    "Controle regular. Considere ajustes na terapia e intensifique as medidas não farmacológicas.",
    "Controle abaixo do ideal. Necessita revisão do tratamento com profissional de saúde."]

  /** `getClassificacaoMedia(media)`. */
  function GetClassificacaoMedia(media: real): (r: string)
    ensures r == ClassesMedia[NivelMedia(media)]
  {
    if media < 100.0 then "excelente"
    else if media < 130.0 then "bom"
    else if media < 150.0 then "regular"
    else "precisa-ajuste"
  }

  /** `getClassificacaoTexto(media)`. */
  function GetClassificacaoTexto(media: real): (r: string)
    ensures r == TextosMedia[NivelMedia(media)]
  {
    if media < 100.0 then "Excelente"
    else if media < 130.0 then "Bom"
    else if media < 150.0 then "Regular"
    else "Precisa Ajuste"
  }

  /** `getInterpretacaoMedia(media)`. */
  function GetInterpretacaoMedia(media: real): (r: string)
    ensures r == InterpretacoesMedia[NivelMedia(media)]
  {
    if media < 100.0 then InterpretacoesMedia[0]
    else if media < 130.0 then InterpretacoesMedia[1]
    else if media < 150.0 then InterpretacoesMedia[2]
    else InterpretacoesMedia[3]
  }

  const ClassesControle: seq<string> := ["excelente", "bom", "precisa-melhorar"]
  const TextosControle: seq<string> := ["Excelente", "Bom", "Precisa Melhorar"]
  const InterpretacoesControle: seq<string> := [
    "Excelente tempo no alvo glicêmico. Continue com o tratamento atual.",
    "Tempo no alvo satisfatório. Mantenha o monitoramento regular.",
    "Tempo no alvo abaixo do ideal. Otimização do tratamento pode ser necessária."]

  /** `getClassificacaoControle(percentual)`. */
  function GetClassificacaoControle(percentual: real): (r: string)
    ensures r == ClassesControle[NivelControle(percentual)]
  {
    if percentual >= 70.0 then "excelente"
    else if percentual >= 50.0 then "bom"
    else "precisa-melhorar"
  }

  /** `getClassificacaoControleTexto(percentual)`. */
  function GetClassificacaoControleTexto(percentual: real): (r: string)
    ensures r == TextosControle[NivelControle(percentual)]
  {
    if percentual >= 70.0 then "Excelente"
    else if percentual >= 50.0 then "Bom"
    else "Precisa Melhorar"
  }

  /** `getInterpretacaoControle(percentual)`. */
  function GetInterpretacaoControle(percentual: real): (r: string)
    ensures r == InterpretacoesControle[NivelControle(percentual)]
  {
    if percentual >= 70.0 then InterpretacoesControle[0]
    else if percentual >= 50.0 then InterpretacoesControle[1]
    else InterpretacoesControle[2]
  }

  const ClassesVariabilidade: seq<string> := ["baixa", "moderada", "alta"]
  const TextosVariabilidade: seq<string> := ["Baixa", "Moderada", "Alta"]
  const InterpretacoesVariabilidade: seq<string> := [
    "Excelente estabilidade glicêmica. Padrão muito consistente.",
    "Estabilidade glicêmica aceitável. Continue monitorando.",
    "Alta variabilidade glicêmica. Pode indicar necessidade de ajuste no tratamento."]

  /** `getClassificacaoVariabilidade(variabilidade)`. */
  function GetClassificacaoVariabilidade(variabilidade: real): (r: string)
    ensures r == ClassesVariabilidade[NivelVariabilidade(variabilidade)]
  {
    if variabilidade < 20.0 then "baixa"
    else if variabilidade < 40.0 then "moderada"
    else "alta"
  }

  /** `getClassificacaoVariabilidadeTexto(variabilidade)`. */
  function GetClassificacaoVariabilidadeTexto(variabilidade: real): (r: string)
    ensures r == TextosVariabilidade[NivelVariabilidade(variabilidade)]
  {
    if variabilidade < 20.0 then "Baixa"
    else if variabilidade < 40.0 then "Moderada"
    else "Alta"
  }

  /** `getInterpretacaoVariabilidade(variabilidade)`. */
  function GetInterpretacaoVariabilidade(variabilidade: real): (r: string)
    ensures r == InterpretacoesVariabilidade[NivelVariabilidade(variabilidade)]
  {
    if variabilidade < 20.0 then InterpretacoesVariabilidade[0]
    else if variabilidade < 40.0 then InterpretacoesVariabilidade[1]
    else InterpretacoesVariabilidade[2]
  }

  // ---------------------------------------------------------------------
  // sample table

  /** One row of the sample table: formatted date, time, value, status
      label and class, and the note or `-`. */
  datatype LinhaAmostra = LinhaAmostra(
    data: string, hora: string, glicemia: int, status: string, classe: string, observacao: string)

  function Linha(g: Glicemia): LinhaAmostra
  {
    LinhaAmostra(FormatarData(g.data), g.hora, g.glicemia,
                 ObterStatusGlicemia(g.glicemia), ObterClasseGlicemia(g.glicemia),
                 if g.observacao == "" then "-" else g.observacao)
  }

  /** `dados.slice(0, 15)` rendered as rows: the first fifteen readings,
      each with the label and class of its band, and `-` for an empty note. */
  function Amostra(dados: seq<Glicemia>): (linhas: seq<LinhaAmostra>)
    ensures |linhas| == if |dados| <= 15 then |dados| else 15
    ensures forall i :: 0 <= i < |linhas| ==>
      linhas[i].glicemia == dados[i].glicemia && linhas[i].hora == dados[i].hora &&
      linhas[i].data == FormatarData(dados[i].data) &&
      linhas[i].status == Rotulos[Faixa(dados[i].glicemia)] &&
      linhas[i].classe == Classes[Faixa(dados[i].glicemia)] &&
      linhas[i].observacao == (if dados[i].observacao == "" then "-" else dados[i].observacao)
  {
    var n := if |dados| <= 15 then |dados| else 15;
    seq(n, i requires 0 <= i < n => Linha(dados[i]))
  }

  /** The "Mostrando 15 de N registros" line: present, with the total,
      exactly when the sample leaves readings out. */
  function Resumo(dados: seq<Glicemia>): (r: Option<nat>)
    ensures r.Some? <==> |Amostra(dados)| < |dados|
    ensures r.Some? ==> r.value == |dados|
  {
    if |dados| > 15 then Some(|dados|) else None
  }

  // ---------------------------------------------------------------------
  // recommendations

  /** The recommendations the report can give, in the order it gives them. */
  datatype Recomendacao =
    | AjusteTerapia
    | RiscoHipoglicemia
    | MonitorarMais
    | Hipoglicemias(episodios: nat)
    | HiperglicemiasFrequentes
    | VariabilidadeAlta
    | AcompanhamentoRegular
    | RegistroDiario
    | Reavaliacao

  /** Position of a recommendation in the report. */
  function Ordem(r: Recomendacao): nat
  {
    match r
    case AjusteTerapia => 0
    case RiscoHipoglicemia => 1
    case MonitorarMais => 2
    case Hipoglicemias(_) => 3
    case HiperglicemiasFrequentes => 4
    case VariabilidadeAlta => 5
    case AcompanhamentoRegular => 6
    case RegistroDiario => 7
    case Reavaliacao => 8
  }

  /** `[r]` when the rule fires, nothing otherwise. */
  function Se(c: bool, r: Recomendacao): (rs: seq<Recomendacao>)
    ensures r in rs <==> c
    ensures forall x :: x in rs ==> x == r
  {
    if c then [r] else []
  }

  /** The items of `rs` come in strictly increasing rule order, so none
      appears twice. */
  ghost predicate EmOrdem(rs: seq<Recomendacao>)
  {
    forall i, j :: 0 <= i < j < |rs| ==> Ordem(rs[i]) < Ordem(rs[j])
  }

  /** Two ordered lists, the first entirely below the second, concatenate to
      an ordered list. */
  lemma ConcatEmOrdem(a: seq<Recomendacao>, b: seq<Recomendacao>, limite: nat)
    requires EmOrdem(a) && EmOrdem(b)
    requires forall x :: x in a ==> Ordem(x) < limite
    requires forall x :: x in b ==> limite <= Ordem(x)
    ensures EmOrdem(a + b)
  {
    var ab := a + b;
    forall i, j | 0 <= i < j < |ab|
      ensures Ordem(ab[i]) < Ordem(ab[j])
    {
      if j < |a| {
        assert ab[i] == a[i] && ab[j] == a[j];
      } else if i >= |a| {
        assert ab[i] == b[i - |a|] && ab[j] == b[j - |a|];
      } else {
        assert ab[i] == a[i] && ab[j] == b[j - |a|];
      }
    }
  }

  /** The three closing items, always given. */
  const Gerais: seq<Recomendacao> := [AcompanhamentoRegular, RegistroDiario, Reavaliacao]

  /** The rule-driven items of `gerarRecomendacoes`, in its order. */
  function RegrasTela(e: EstatisticasRelatorio): (rs: seq<Recomendacao>)
    ensures AjusteTerapia in rs <==> e.media > 150.0
    ensures RiscoHipoglicemia in rs <==> e.media < 80.0
    ensures MonitorarMais in rs <==> e.percentualNormais < 50.0
    ensures Hipoglicemias(e.hipoglicemias) in rs <==> e.hipoglicemias > 0
    ensures HiperglicemiasFrequentes in rs <==> 10 * e.hiperglicemias > 3 * e.totalRegistros
    ensures VariabilidadeAlta in rs <==> e.variabilidade > 40.0
    ensures forall x :: x in rs ==> Ordem(x) < 6 && (x.Hipoglicemias? ==> x.episodios == e.hipoglicemias)
  {
    ParteMedia(e) + AlertasTela(e)
  }

  /** The rules after the mean rule: time in range, hypoglycaemias,
      frequent hyperglycaemias, variability. */
  function AlertasTela(e: EstatisticasRelatorio): (rs: seq<Recomendacao>)
    ensures MonitorarMais in rs <==> e.percentualNormais < 50.0
    ensures Hipoglicemias(e.hipoglicemias) in rs <==> e.hipoglicemias > 0
    ensures HiperglicemiasFrequentes in rs <==> 10 * e.hiperglicemias > 3 * e.totalRegistros
    ensures VariabilidadeAlta in rs <==> e.variabilidade > 40.0
    ensures forall x :: x in rs ==> 2 <= Ordem(x) < 6 && (x.Hipoglicemias? ==> x.episodios == e.hipoglicemias)
  {
    Se(e.percentualNormais < 50.0, MonitorarMais)
    + Se(e.hipoglicemias > 0, Hipoglicemias(e.hipoglicemias))
    + Se(10 * e.hiperglicemias > 3 * e.totalRegistros, HiperglicemiasFrequentes)
    + Se(e.variabilidade > 40.0, VariabilidadeAlta)
  }

  /** The mean rule: too high, or else too low. */
  function ParteMedia(e: EstatisticasRelatorio): (rs: seq<Recomendacao>)
    ensures AjusteTerapia in rs <==> e.media > 150.0
    ensures RiscoHipoglicemia in rs <==> e.media < 80.0
    ensures forall x :: x in rs ==> x == AjusteTerapia || x == RiscoHipoglicemia
  {
    if e.media > 150.0 then [AjusteTerapia] else Se(e.media < 80.0, RiscoHipoglicemia)
  }

  /** On the PDF only the high-mean half of the mean rule remains. */
  lemma FilterParteMedia(e: EstatisticasRelatorio)
    ensures Filter(ParteMedia(e), NoPdf) == Se(e.media > 150.0, AjusteTerapia)
  {
    if e.media > 150.0 {
      FilterSe(true, AjusteTerapia);
    } else {
      FilterSe(e.media < 80.0, RiscoHipoglicemia);
    }
  }

  /** `gerarRecomendacoes(estatisticas, dados)`, as the list of items: each
      rule's item appears exactly when its condition holds (the two mean
      items never together), and the three general items close the list. */
  function GerarRecomendacoes(e: EstatisticasRelatorio): (rs: seq<Recomendacao>)
    ensures AjusteTerapia in rs <==> e.media > 150.0
    ensures RiscoHipoglicemia in rs <==> e.media < 80.0
    ensures MonitorarMais in rs <==> e.percentualNormais < 50.0
    ensures Hipoglicemias(e.hipoglicemias) in rs <==> e.hipoglicemias > 0
    ensures forall n :: Hipoglicemias(n) in rs ==> n == e.hipoglicemias
    ensures HiperglicemiasFrequentes in rs <==> 10 * e.hiperglicemias > 3 * e.totalRegistros
    ensures VariabilidadeAlta in rs <==> e.variabilidade > 40.0
    ensures |rs| >= 3 && rs[|rs| - 3..] == Gerais
    ensures rs == RegrasTela(e) + Gerais
  {
    var regras := RegrasTela(e);
    var rs := regras + Gerais;
    SemGerais(regras, AjusteTerapia);
    SemGerais(regras, RiscoHipoglicemia);
    SemGerais(regras, MonitorarMais);
    SemGerais(regras, HiperglicemiasFrequentes);
    SemGerais(regras, VariabilidadeAlta);
    forall n ensures Hipoglicemias(n) in rs <==> Hipoglicemias(n) in regras {
      SemGerais(regras, Hipoglicemias(n));
    }
    assert rs[|regras|..] == Gerais;
    rs
  }

  /** A rule-driven item is in the list exactly when a rule gave it. */
  /** The on-screen list follows the rule order of the source, each item
      at most once: the mean rules, the alerts, then the general advice. */
  lemma RecomendacoesEmOrdem(e: EstatisticasRelatorio)
    ensures EmOrdem(GerarRecomendacoes(e))
  {
    RegrasEmOrdem(e);
    GeraisEmOrdem();
    ConcatEmOrdem(RegrasTela(e), Gerais, 6);
  }

  lemma RegrasEmOrdem(e: EstatisticasRelatorio)
    ensures EmOrdem(RegrasTela(e))
  {
    AlertasEmOrdem(e);
    CurtaEmOrdem(ParteMedia(e));
    ConcatEmOrdem(ParteMedia(e), AlertasTela(e), 2);
  }

  lemma GeraisEmOrdem()
    ensures EmOrdem(Gerais)
  {
  }

  lemma AlertasEmOrdem(e: EstatisticasRelatorio)
    ensures EmOrdem(AlertasTela(e))
  {
    var a := Se(e.percentualNormais < 50.0, MonitorarMais);
    var b := Se(e.hipoglicemias > 0, Hipoglicemias(e.hipoglicemias));
    var c := Se(10 * e.hiperglicemias > 3 * e.totalRegistros, HiperglicemiasFrequentes);
    var d := Se(e.variabilidade > 40.0, VariabilidadeAlta);
    CurtaEmOrdem(a);
    CurtaEmOrdem(b);
    CurtaEmOrdem(c);
    CurtaEmOrdem(d);
    ConcatEmOrdem(a, b, 3);
    ConcatEmOrdem(a + b, c, 4);
    ConcatEmOrdem(a + b + c, d, 5);
  }

  /** A list of at most one item is in order. */
  lemma CurtaEmOrdem(rs: seq<Recomendacao>)
    requires |rs| <= 1
    ensures EmOrdem(rs)
  {
  }

  lemma SemGerais(regras: seq<Recomendacao>, x: Recomendacao)
    requires Ordem(x) < 6
    ensures x in regras + Gerais <==> x in regras
  {
  }

  /** Text of an item in the on-screen report. */
  function Texto(r: Recomendacao): string
  {
    match r
    case AjusteTerapia =>
      "Considerar ajuste de medicação ou intensificar medidas não farmacológicas (dieta e exercícios)."
    case RiscoHipoglicemia => "Atenção: média glicêmica baixa. Avaliar risco de hipoglicemia."
    case MonitorarMais =>
      "Aumentar frequência de monitoramento para melhor identificação de padrões glicêmicos."
    case Hipoglicemias(n) =>
      "Foram registrados " + NatToString(n)
      + " episódio(s) de hipoglicemia. Revisar doses de medicação e horários das refeições."
    case HiperglicemiasFrequentes =>
      "Frequência elevada de hiperglicemias. Avaliar necessidade de ajuste terapêutico."
    case VariabilidadeAlta =>
      "Alta variabilidade glicêmica detectada. Tentar manter horários regulares de refeições, medicação e atividade física."
    case AcompanhamentoRegular => "Continuar com acompanhamento regular com profissional de saúde."
    case RegistroDiario => "Manter registro diário no sistema para melhor acompanhamento."
    case Reavaliacao => "Retornar para reavaliação em 3 meses ou conforme orientação médica."
  }

  /** The items the PDF text carries: those of the on-screen list except the
      low-mean and frequent-hyperglycaemia items. */
  predicate NoPdf(r: Recomendacao)
  {
    !r.RiscoHipoglicemia? && !r.HiperglicemiasFrequentes?
  }

  /** The rule-driven items of `extrairRecomendacoesTexto`, in its order. */
  function RegrasPdf(e: EstatisticasRelatorio): seq<Recomendacao>
  {
    Se(e.media > 150.0, AjusteTerapia) + AlertasPdf(e)
  }

  /** The PDF's rules after the mean rule. */
  function AlertasPdf(e: EstatisticasRelatorio): seq<Recomendacao>
  {
    Se(e.percentualNormais < 50.0, MonitorarMais)
    + Se(e.hipoglicemias > 0, Hipoglicemias(e.hipoglicemias))
    + Se(e.variabilidade > 40.0, VariabilidadeAlta)
  }

  /** The rule chain of `extrairRecomendacoesTexto`, as the list of items. */
  function RecomendacoesPdf(e: EstatisticasRelatorio): (rs: seq<Recomendacao>)
    ensures |rs| >= 3 && rs[|rs| - 3..] == Gerais
  {
    var regras := RegrasPdf(e);
    assert (regras + Gerais)[|regras|..] == Gerais;
    regras + Gerais
  }

  lemma FilterSe(c: bool, r: Recomendacao)
    ensures Filter(Se(c, r), NoPdf) == if NoPdf(r) then Se(c, r) else []
  {
    if c {
      assert Se(c, r)[1..] == [];
    }
  }

  /** The PDF rules keep the on-screen rules other than the low-mean and the
      frequent-hyperglycaemia rule. */
  lemma RegrasPdfSaoFiltro(e: EstatisticasRelatorio)
    ensures RegrasPdf(e) == Filter(RegrasTela(e), NoPdf)
  {
    FilterAppend(ParteMedia(e), AlertasTela(e), NoPdf);
    FilterParteMedia(e);
    AlertasPdfSaoFiltro(e);
  }

  lemma AlertasPdfSaoFiltro(e: EstatisticasRelatorio)
    ensures AlertasPdf(e) == Filter(AlertasTela(e), NoPdf)
  {
    var alvo := Se(e.percentualNormais < 50.0, MonitorarMais);
    var hipo := Se(e.hipoglicemias > 0, Hipoglicemias(e.hipoglicemias));
    var hiper := Se(10 * e.hiperglicemias > 3 * e.totalRegistros, HiperglicemiasFrequentes);
    var variab := Se(e.variabilidade > 40.0, VariabilidadeAlta);
    FilterAppend(alvo + hipo + hiper, variab, NoPdf);
    FilterAppend(alvo + hipo, hiper, NoPdf);
    FilterAppend(alvo, hipo, NoPdf);
    FilterSe(e.percentualNormais < 50.0, MonitorarMais);
    FilterSe(e.hipoglicemias > 0, Hipoglicemias(e.hipoglicemias));
    FilterSe(10 * e.hiperglicemias > 3 * e.totalRegistros, HiperglicemiasFrequentes);
    FilterSe(e.variabilidade > 40.0, VariabilidadeAlta);
    assert alvo + hipo + [] == alvo + hipo;
  }

  /** The PDF carries exactly the on-screen items that are not the low-mean
      or the frequent-hyperglycaemia item, in the same order. */
  lemma RecomendacoesPdfSaoFiltro(e: EstatisticasRelatorio)
    ensures RecomendacoesPdf(e) == Filter(GerarRecomendacoes(e), NoPdf)
  {
    FilterAppend(RegrasTela(e), Gerais, NoPdf);
    FilterAll(Gerais, NoPdf);
    RegrasPdfSaoFiltro(e);
  }

  /** Text of an item in the PDF. */
  function TextoPdf(r: Recomendacao): string
  {
    match r
    case AjusteTerapia => "Considerar ajuste de medicação ou intensificar medidas não farmacológicas."
    case MonitorarMais => "Aumentar frequência de monitoramento para identificar padrões."
    case Hipoglicemias(n) =>
      "Foram registrados " + NatToString(n) + " episódio(s) de hipoglicemia. Revisar doses de medicação."
    case VariabilidadeAlta => "Tentar manter horários regulares de refeições e medicação."
    case AcompanhamentoRegular => "Continuar com acompanhamento regular."
    case RegistroDiario => "Manter registro diário no sistema."
    case Reavaliacao => "Retornar para reavaliação em 3 meses ou conforme orientação médica."
    case _ => Texto(r)
  }

  function TextosPdf(rs: seq<Recomendacao>): (ts: seq<string>)
    ensures |ts| == |rs|
    ensures forall i :: 0 <= i < |rs| ==> ts[i] == TextoPdf(rs[i])
  {
    seq(|rs|, i requires 0 <= i < |rs| => TextoPdf(rs[i]))
  }

  // ---------------------------------------------------------------------
  // the report object

  /** `relatorioAtual`: period, type, readings and statistics of the last
      report generated (its HTML content is not modelled). */
  datatype Relatorio = Relatorio(
    inicio: string, fim: string, tipo: string,
    dados: seq<Glicemia>, estatisticas: EstatisticasRelatorio)

  /** How `gerarRelatorio` ends: one of its three error notifications, or a
      report. */
  datatype Resultado = DatasAusentes | InicioAposFim | SemRegistros | Gerado

  class RelatoriosSistema {
    var relatorioAtual: Option<Relatorio>
    var pdfGerado: bool

    constructor()
      ensures relatorioAtual == None && !pdfGerado
    {
      relatorioAtual := None;
      pdfGerado := false;
    }

    /** `gerarRelatorio()` with the form's period and type as parameters and
        `temBotaoPdf` saying whether the download button exists. A report is
        stored only when both dates are given, the start is not after the
        end and the period holds readings; the PDF flag is raised only when
        the button exists. */
    method GerarRelatorio(glicemias: seq<Glicemia>, inicio: string, fim: string, tipo: string, temBotaoPdf: bool)
      returns (resultado: Resultado)
      modifies this
      ensures inicio == "" || fim == "" ==> resultado == DatasAusentes
      ensures inicio != "" && fim != "" && Less(fim, inicio) ==> resultado == InicioAposFim
      ensures resultado == SemRegistros <==>
        inicio != "" && fim != "" && !Less(fim, inicio) && ObterDadosRelatorio(glicemias, inicio, fim) == []
      ensures resultado != Gerado ==> relatorioAtual == old(relatorioAtual) && pdfGerado == old(pdfGerado)
      ensures resultado == Gerado ==>
        var dados := ObterDadosRelatorio(glicemias, inicio, fim);
        dados != [] &&
        relatorioAtual == Some(Relatorio(inicio, fim, tipo, dados, CalcularEstatisticas(dados))) &&
        pdfGerado == (old(pdfGerado) || temBotaoPdf)
    {
      if inicio == "" || fim == "" {
        return DatasAusentes;
      }
      if Less(fim, inicio) {
        return InicioAposFim;
      }
      var dados := ObterDadosRelatorio(glicemias, inicio, fim);
      if dados == [] {
        return SemRegistros;
      }
      var estatisticas := CalcularEstatisticas(dados);
      relatorioAtual := Some(Relatorio(inicio, fim, tipo, dados, estatisticas));
      if temBotaoPdf {
        pdfGerado := true;
      }
      resultado := Gerado;
    }

    /** `extrairRecomendacoesTexto()`: `''` before any report, otherwise the
        PDF items of the current statistics joined by single spaces. */
    function ExtrairRecomendacoesTexto(): (texto: string)
      reads this
      ensures relatorioAtual == None ==> texto == ""
      ensures relatorioAtual != None ==>
        texto == Join(TextosPdf(Filter(GerarRecomendacoes(relatorioAtual.value.estatisticas), NoPdf)), " ")
    {
      if relatorioAtual == None then ""
      else
        RecomendacoesPdfSaoFiltro(relatorioAtual.value.estatisticas);
        Join(TextosPdf(RecomendacoesPdf(relatorioAtual.value.estatisticas)), " ")
    }
  }

  /** The PDF text always ends with the re-evaluation advice. */
  lemma TextoPdfTerminaComReavaliacao(e: EstatisticasRelatorio)
    ensures var texto := Join(TextosPdf(RecomendacoesPdf(e)), " ");
            var fim := TextoPdf(Reavaliacao);
            |texto| >= |fim| && texto[|texto| - |fim|..] == fim
  {
    var rs := RecomendacoesPdf(e);
    assert rs[|rs| - 1] == Reavaliacao;
    JoinEndsWithLast(TextosPdf(rs), " ");
  }

  /** The status column of the report agrees with the in-range count: the
      readings labelled `Normal` are exactly the in-range readings. */
  lemma StatusNormalSeNoAlvo(g: Glicemia)
    ensures ObterStatusGlicemia(g.glicemia) == "Normal" <==> EhNormal(g)
  {
    FaixaContagens(g.glicemia);
  }
}
