/** The glycaemic index page (`js/indice.js`): a second statistics pass over
    the readings of a period, with the root-mean-square variability, a trend
    taken from the first and last thirds, a four-tier control
    classification evaluated top-down, and its own recommendation list. */
module Indice {
  import opened Seqs
  import opened Strings
  import opened Registros
  import opened Rounding
  import opened Faixas

  // ---------------------------------------------------------------------
  // trend

  /** `determinarTendencia`'s four answers. `PoucosDados` is the plain
      "estável" given to fewer than three readings; `Estavel` is the
      "estável →" of a computed, flat trend. */
  datatype Tendencia = PoucosDados | Crescendo | Decrescendo | Estavel

  function TextoTendencia(t: Tendencia): string
  {
    match t
    case PoucosDados => "estável"
    case Crescendo => "crescendo \U{1F4C8}"
    case Decrescendo => "decrescendo \U{1F4C9}"
    case Estavel => "estável →"
  }

  /** `glicemias.slice(0, Math.floor(n / 3))`. */
  function Primeiros(vs: seq<int>): (r: seq<int>)
    ensures |r| == |vs| / 3
  {
    vs[..|vs| / 3]
  }

  /** `glicemias.slice(-Math.floor(n / 3))`, for `n >= 3`, where the count is
      never 0 (a slice from `-0` would be the whole list). */
  function Ultimos(vs: seq<int>): (r: seq<int>)
    ensures |r| == |vs| / 3
  {
    vs[|vs| - |vs| / 3..]
  }

  /** The mean of the last third minus the mean of the first third. */
  function Diferenca(vs: seq<int>): real
    requires |vs| >= 3
  {
    Mean(Ultimos(vs)) - Mean(Primeiros(vs))
  }

  /** The trend of a series of values, read in the order given. */
  function TendenciaValores(vs: seq<int>): (t: Tendencia)
    ensures t == PoucosDados <==> |vs| < 3
  {
    if |vs| < 3 then PoucosDados
    else if Diferenca(vs) > 15.0 then Crescendo
    else if Diferenca(vs) < -15.0 then Decrescendo
    else Estavel
  }

  /** `determinarTendencia(glicemias)`: the trend of the readings in the
      order of the list it receives. */
  function DeterminarTendencia(gs: seq<Glicemia>): (t: Tendencia)
    ensures t == PoucosDados <==> |gs| < 3
  {
    TendenciaValores(Valores(gs))
  }

  /** Swapping rising and falling. */
  function Oposta(t: Tendencia): Tendencia
  {
    match t
    case Crescendo => Decrescendo
    case Decrescendo => Crescendo
    case _ => t
  }

  /** The difference of the thirds' sums, which share their length. */
  function SaldoSomas(vs: seq<int>): int
  {
    Sum(Ultimos(vs)) - Sum(Primeiros(vs))
  }

  /** Both thirds have `k` values, so the difference of their means passes
      15 exactly when the difference of their sums passes `15 * k`. */
  lemma DiferencaPorSomas(vs: seq<int>)
    requires |vs| >= 3
    ensures Diferenca(vs) > 15.0 <==> SaldoSomas(vs) > 15 * (|vs| / 3)
    ensures Diferenca(vs) < -15.0 <==> SaldoSomas(vs) < -15 * (|vs| / 3)
  {
    var k := |vs| / 3;
    var a, b := Sum(Ultimos(vs)), Sum(Primeiros(vs));
    QuotientDifference(a, b, k);
    QuotientCompare(a - b, k, 15);
    QuotientCompare(a - b, k, -15);
  }

  /** Reading a series backwards turns the difference of the sums around. */
  lemma SaldoReverso(vs: seq<int>)
    ensures SaldoSomas(Reverse(vs)) == -SaldoSomas(vs)
  {
    var r, k := Reverse(vs), |vs| / 3;
    SomasReversas(vs, k);
    assert Primeiros(r) == r[..k] && Ultimos(r) == r[|vs| - k..];
  }

  /** The first `k` values of the reversal add up like the last `k` of the
      original, and the other way round. */
  lemma SomasReversas(vs: seq<int>, k: nat)
    requires k <= |vs|
    ensures Sum(Reverse(vs)[..k]) == Sum(vs[|vs| - k..])
    ensures Sum(Reverse(vs)[|vs| - k..]) == Sum(vs[..k])
  {
    ReverseSlices(vs, k);
    SumReverse(vs[|vs| - k..]);
    SumReverse(vs[..k]);
  }

  /** The trend depends on the order of its input: the same values read
      backwards give the opposite trend. */
  lemma TendenciaReversa(vs: seq<int>)
    ensures TendenciaValores(Reverse(vs)) == Oposta(TendenciaValores(vs))
  {
    if |vs| >= 3 {
      SaldoReverso(vs);
      DiferencaPorSomas(vs);
      DiferencaPorSomas(Reverse(vs));
    }
  }

  /** A series that never falls is never "decrescendo", and one that never
      rises is never "crescendo". */
  lemma TendenciaMonotona(vs: seq<int>)
    ensures (forall i, j :: 0 <= i < j < |vs| ==> vs[i] <= vs[j]) ==> TendenciaValores(vs) != Decrescendo
    ensures (forall i, j :: 0 <= i < j < |vs| ==> vs[i] >= vs[j]) ==> TendenciaValores(vs) != Crescendo
  {
    if |vs| >= 3 {
      var n, k := |vs|, |vs| / 3;
      var head, tail := Primeiros(vs), Ultimos(vs);
      assert forall i :: 0 <= i < k ==> head[i] == vs[i] && tail[i] == vs[n - k + i];
      DiferencaPorSomas(vs);
      if forall i, j :: 0 <= i < j < |vs| ==> vs[i] <= vs[j] {
        SumBounds(head, vs[0], vs[n - k]);
        SumBounds(tail, vs[n - k], vs[n - 1]);
      }
      if forall i, j :: 0 <= i < j < |vs| ==> vs[i] >= vs[j] {
        SumBounds(head, vs[n - k], vs[0]);
        SumBounds(tail, vs[n - 1], vs[n - k]);
      }
    }
  }

  /** Three or more equal values are "estável →". */
  lemma TendenciaConstante(vs: seq<int>)
    requires |vs| >= 3 && AllEqual(vs)
    ensures TendenciaValores(vs) == Estavel
  {
    var n, k := |vs|, |vs| / 3;
    var head, tail := Primeiros(vs), Ultimos(vs);
    assert forall i :: 0 <= i < k ==> head[i] == vs[i] && tail[i] == vs[n - k + i];
    SumConstant(head, vs[0]);
    SumConstant(tail, vs[0]);
    DiferencaPorSomas(vs);
  }

  // ---------------------------------------------------------------------
  // variability

  /** The square of `calcularVariabilidadeGlicemica(glicemias)`: 0 for
      fewer than two readings, otherwise the population variance, whose
      square root the source returns. */
  function VariabilidadeQuadrada(gs: seq<Glicemia>): (v: real)
    ensures v >= 0.0
    ensures |gs| < 2 ==> v == 0.0
  {
    if |gs| < 2 then 0.0 else Variance(Valores(gs))
  }

  /** The variability is the standard deviation of the statistics: both
      squares agree on every non-empty input, a single reading included. */
  lemma VariabilidadeEhDesvio(gs: seq<Glicemia>)
    requires gs != []
    ensures VariabilidadeQuadrada(gs) == Variance(Valores(gs))
  {
    if |gs| == 1 {
      var vs := Valores(gs);
      assert vs[1..] == [];
      assert SqDevSum(vs, 1, Sum(vs)) == 0;
    }
  }

  /** The variability is 0 exactly when all readings are equal. */
  lemma VariabilidadeNulaIff(gs: seq<Glicemia>)
    ensures VariabilidadeQuadrada(gs) == 0.0 <==> AllEqual(Valores(gs))
  {
    if |gs| >= 2 {
      VarianceZeroIff(Valores(gs));
    }
  }

  // ---------------------------------------------------------------------
  // control classification

  /** `classificarControle`'s answers, plus the "sem dados" of an empty
      period. */
  datatype Classificacao = SemDados | Excelente | Bom | Regular | PrecisaAjuste

  function TextoClassificacao(c: Classificacao): string
  {
    match c
    case SemDados => "sem dados"
    case Excelente => "Excelente \U{1F451}"
    case Bom => "Bom \U{1F44D}"
    case Regular => "Regular ⚠️"
    case PrecisaAjuste => "Precisa de Ajuste \U{1F6A8}"
  }

  /** Position of a tier, best first. */
  function Posto(c: Classificacao): nat
  {
    match c
    case Excelente => 0
    case Bom => 1
    case Regular => 2
    case PrecisaAjuste => 3
    case SemDados => 4
  }

  /** The conditions of a tier: time in range at least `pct`, mean at most
      `media`, standard deviation at most the square root of `variancia`.
      The deviation is compared through its square, so 36, 50 and 70 become
      1296, 2500 and 4900. */
  predicate Cumpre(c: Classificacao, media: real, pct: real, variancia: real)
  {
    match c
    case Excelente => pct >= 70.0 && media <= 154.0 && variancia <= 1296.0
    case Bom => pct >= 50.0 && media <= 180.0 && variancia <= 2500.0
    case Regular => pct >= 30.0 && media <= 200.0 && variancia <= 4900.0
    case PrecisaAjuste => true
    case SemDados => false
  }

  /** `classificarControle(media, percentualAlvo, variabilidade)`: the best
      tier whose conditions hold. */
  function ClassificarControle(media: real, pct: real, variancia: real): (c: Classificacao)
    ensures c != SemDados
    ensures Cumpre(c, media, pct, variancia)
    ensures forall d :: Posto(d) < Posto(c) ==> !Cumpre(d, media, pct, variancia)
  {
    if pct >= 70.0 && media <= 154.0 && variancia <= 1296.0 then Excelente
    else if pct >= 50.0 && media <= 180.0 && variancia <= 2500.0 then Bom
    else if pct >= 30.0 && media <= 200.0 && variancia <= 4900.0 then Regular
    else PrecisaAjuste
  }

  /** The tiers are nested: meeting Excelente meets Bom, meeting Bom meets
      Regular. */
  lemma TiersAninhados(media: real, pct: real, variancia: real)
    ensures Cumpre(Excelente, media, pct, variancia) ==> Cumpre(Bom, media, pct, variancia)
    ensures Cumpre(Bom, media, pct, variancia) ==> Cumpre(Regular, media, pct, variancia)
  {
  }

  /** With nested tiers the top-down test picks a tier all of whose worse
      tiers are met too: the classification is a threshold on a single
      scale. */
  lemma ClassificacaoLimiar(media: real, pct: real, variancia: real)
    ensures forall d :: d != SemDados && Posto(ClassificarControle(media, pct, variancia)) <= Posto(d) ==> Cumpre(d, media, pct, variancia)
  {
    TiersAninhados(media, pct, variancia);
  }

  /** A better period (more time in range, lower mean, less variability)
      never gets a worse tier. */
  lemma ClassificacaoMonotona(media: real, pct: real, variancia: real, media': real, pct': real, variancia': real)
    requires media' <= media && pct' >= pct && variancia' <= variancia
    ensures Posto(ClassificarControle(media', pct', variancia')) <= Posto(ClassificarControle(media, pct, variancia))
  {
    var c := ClassificarControle(media, pct, variancia);
    assert Cumpre(c, media', pct', variancia');
  }

  // ---------------------------------------------------------------------
  // recommendations

  /** The lines `gerarRecomendacoes` of this page can produce. */
  datatype RecomendacaoIndice =
    | AjustarMedicacaoDieta
    | RiscoHipoglicemia
    | AumentarMonitoramento
    | AltaVariabilidade
    | EpisodiosHipoglicemia(episodios: nat)
    | ContinueMonitorando
    | CompartilheComMedico
    | NenhumRegistro

  function TextoRecomendacao(r: RecomendacaoIndice): string
  {
    match r
    case AjustarMedicacaoDieta => "Considere ajustar a medicação ou dieta para reduzir a glicemia média"
    case RiscoHipoglicemia => "Atenção: risco de hipoglicemia. Avalie necessidade de reduzir medicação"
    case AumentarMonitoramento => "Aumente o monitoramento para identificar padrões de variação"
    case AltaVariabilidade => "Alta variabilidade: tente manter horários regulares de refeições e medicação"
    case EpisodiosHipoglicemia(n) => NatToString(n) + " episódio(s) de hipoglicemia registrado(s). Fique atento aos sintomas"
    case ContinueMonitorando => "Continue monitorando regularmente"
    case CompartilheComMedico => "Compartilhe esses dados com seu médico na próxima consulta"
    case NenhumRegistro => "Nenhum registro encontrado no período selecionado."
  }

  /** Position of a line in the list. */
  function OrdemIndice(r: RecomendacaoIndice): nat
  {
    match r
    case AjustarMedicacaoDieta => 0
    case RiscoHipoglicemia => 1
    case AumentarMonitoramento => 2
    case AltaVariabilidade => 3
    case EpisodiosHipoglicemia(_) => 4
    case ContinueMonitorando => 5
    case CompartilheComMedico => 6
    case NenhumRegistro => 7
  }

  /** `[r]` when `c` holds, nothing otherwise. */
  function Quando(c: bool, r: RecomendacaoIndice): (rs: seq<RecomendacaoIndice>)
    ensures r in rs <==> c
    ensures forall x :: x in rs ==> x == r
    ensures |rs| <= 1
  {
    if c then [r] else []
  }

  /** The lines of `rs` come in increasing order. */
  ghost predicate EmOrdem(rs: seq<RecomendacaoIndice>)
  {
    forall i, j :: 0 <= i < j < |rs| ==> OrdemIndice(rs[i]) < OrdemIndice(rs[j])
  }

  /** Two ordered lists, the first entirely below the second, concatenate to
      an ordered list. */
  lemma ConcatEmOrdem(a: seq<RecomendacaoIndice>, b: seq<RecomendacaoIndice>, limite: nat)
    requires EmOrdem(a) && EmOrdem(b)
    requires forall x :: x in a ==> OrdemIndice(x) < limite
    requires forall x :: x in b ==> limite <= OrdemIndice(x)
    ensures EmOrdem(a + b)
  {
    var ab := a + b;
    forall i, j | 0 <= i < j < |ab|
      ensures OrdemIndice(ab[i]) < OrdemIndice(ab[j])
    {
      if j < |a| {
        assert ab[i] == a[i] && ab[j] == a[j];
      } else if i >= |a| {
        assert ab[i] == b[i - |a|] && ab[j] == b[j - |a|];
      } else {
        assert ab[i] == a[i] && ab[j] == b[j - |a|];
      }
    }
  }

  /** Membership in a concatenation of three lists, and its last two lines. */
  lemma EmConcatenacao(a: seq<RecomendacaoIndice>, b: seq<RecomendacaoIndice>, c: seq<RecomendacaoIndice>)
    requires |c| == 2
    ensures forall x :: x in a + b + c <==> x in a || x in b || x in c
    ensures (a + b + c)[|a + b + c| - 2..] == c
  {
  }

  /** Where each line of the list comes from, by its position. */
  lemma Origem(m: seq<RecomendacaoIndice>, alertas: seq<RecomendacaoIndice>, x: RecomendacaoIndice)
    requires forall y :: y in m ==> OrdemIndice(y) < 2
    requires forall y :: y in alertas ==> 2 <= OrdemIndice(y) <= 4
    ensures x in m + alertas + Fechamento <==>
      if OrdemIndice(x) < 2 then x in m
      else if OrdemIndice(x) <= 4 then x in alertas
      else x in Fechamento
  {
    EmConcatenacao(m, alertas, Fechamento);
  }

  /** The two lines every non-empty period ends with. */
  const Fechamento: seq<RecomendacaoIndice> := [ContinueMonitorando, CompartilheComMedico]

  /** The line about the mean: the high-mean line, else the low-mean one. */
  function ParteMediaIndice(media: real): (rs: seq<RecomendacaoIndice>)
    ensures AjustarMedicacaoDieta in rs <==> media > 180.0
    ensures RiscoHipoglicemia in rs <==> media < 70.0
    ensures forall x :: x in rs ==> OrdemIndice(x) < 2
    ensures |rs| <= 1
  {
    if media > 180.0 then [AjustarMedicacaoDieta] else Quando(media < 70.0, RiscoHipoglicemia)
  }

  /** The lines about time in range, variability and hypoglycaemias. */
  function ParteAlertas(pct: real, variancia: real, hipoglicemias: nat): (rs: seq<RecomendacaoIndice>)
    ensures AumentarMonitoramento in rs <==> pct < 50.0
    ensures AltaVariabilidade in rs <==> variancia > 2500.0
    ensures forall n :: EpisodiosHipoglicemia(n) in rs <==> n > 0 && n == hipoglicemias
    ensures forall x :: x in rs ==> 2 <= OrdemIndice(x) <= 4
    ensures EmOrdem(rs)
  {
    var a := Quando(pct < 50.0, AumentarMonitoramento);
    var b := Quando(variancia > 2500.0, AltaVariabilidade);
    var c := Quando(hipoglicemias > 0, EpisodiosHipoglicemia(hipoglicemias));
    ConcatEmOrdem(a, b, 3);
    ConcatEmOrdem(a + b, c, 4);
    assert forall x :: x in a + b + c <==> x in a || x in b || x in c;
    a + b + c
  }

  /** `gerarRecomendacoes(media, percentualAlvo, variabilidade, glicemias)`,
      with the variability given by its square. */
  function GerarRecomendacoesIndice(media: real, pct: real, variancia: real, gs: seq<Glicemia>): (rs: seq<RecomendacaoIndice>)
    ensures AjustarMedicacaoDieta in rs <==> media > 180.0
    ensures RiscoHipoglicemia in rs <==> media < 70.0
    ensures AumentarMonitoramento in rs <==> pct < 50.0
    ensures AltaVariabilidade in rs <==> variancia > 2500.0
    ensures forall n :: EpisodiosHipoglicemia(n) in rs <==> n > 0 && n == Count(gs, EhHipo)
    ensures NenhumRegistro !in rs
  {
    var m := ParteMediaIndice(media);
    var alertas := ParteAlertas(pct, variancia, Count(gs, EhHipo));
    Origem(m, alertas, AjustarMedicacaoDieta);
    Origem(m, alertas, RiscoHipoglicemia);
    Origem(m, alertas, AumentarMonitoramento);
    Origem(m, alertas, AltaVariabilidade);
    Origem(m, alertas, NenhumRegistro);
    assert forall n :: EpisodiosHipoglicemia(n) in m + alertas + Fechamento <==> EpisodiosHipoglicemia(n) in alertas by {
      forall n {
        Origem(m, alertas, EpisodiosHipoglicemia(n));
      }
    }
    m + alertas + Fechamento
  }

  /** The lines come in the fixed order of the source and the list always
      ends with the two closing lines. */
  lemma RecomendacoesIndiceEmOrdem(media: real, pct: real, variancia: real, gs: seq<Glicemia>)
    ensures EmOrdem(GerarRecomendacoesIndice(media, pct, variancia, gs))
    ensures var rs := GerarRecomendacoesIndice(media, pct, variancia, gs);
      |rs| >= 2 && rs[|rs| - 2..] == Fechamento
  {
    var m := ParteMediaIndice(media);
    var alertas := ParteAlertas(pct, variancia, Count(gs, EhHipo));
    ListaEmOrdem(m, alertas);
  }

  /** The mean line, the alert lines and the closing lines, each part in
      order, make an ordered list ending with the closing lines. */
  lemma ListaEmOrdem(m: seq<RecomendacaoIndice>, alertas: seq<RecomendacaoIndice>)
    requires |m| <= 1 && forall x :: x in m ==> OrdemIndice(x) < 2
    requires EmOrdem(alertas) && forall x :: x in alertas ==> 2 <= OrdemIndice(x) <= 4
    ensures EmOrdem(m + alertas + Fechamento)
    ensures (m + alertas + Fechamento)[|m + alertas + Fechamento| - 2..] == Fechamento
  {
    ConcatEmOrdem(m, alertas, 2);
    ConcatEmOrdem(m + alertas, Fechamento, 5);
    EmConcatenacao(m, alertas, Fechamento);
  }

  /** The high-mean and low-mean lines never appear together. */
  lemma MediaAltaOuBaixa(media: real, pct: real, variancia: real, gs: seq<Glicemia>)
    ensures !(AjustarMedicacaoDieta in GerarRecomendacoesIndice(media, pct, variancia, gs)
              && RiscoHipoglicemia in GerarRecomendacoesIndice(media, pct, variancia, gs))
  {
  }

  /** The hypoglycaemia line appears exactly when some reading is below 70. */
  lemma EpisodiosSeHaHipo(media: real, pct: real, variancia: real, gs: seq<Glicemia>)
    ensures (exists n :: EpisodiosHipoglicemia(n) in GerarRecomendacoesIndice(media, pct, variancia, gs))
            <==> exists i :: 0 <= i < |gs| && gs[i].glicemia < 70
  {
    CountPositiveIff(gs, EhHipo);
    var rs := GerarRecomendacoesIndice(media, pct, variancia, gs);
    if Count(gs, EhHipo) > 0 {
      assert EpisodiosHipoglicemia(Count(gs, EhHipo)) in rs;
    }
  }

  // ---------------------------------------------------------------------
  // statistics

  /** The object `calcularEstatisticasIndice` returns. The standard
      deviation and the variability are kept as their exact squares
      (`desvioQuadrado`, `variabilidadeQuadrada`); `media` is the mean
      rounded to tenths. */
  datatype EstatisticasIndice = EstatisticasIndice(
    periodo: int,
    totalRegistros: nat,
    media: real,
    desvioQuadrado: real,
    maxima: int,
    minima: int,
    dentroAlvo: nat,
    percentualAlvo: real,
    variabilidadeQuadrada: real,
    tendencia: Tendencia,
    classificacao: Classificacao,
    recomendacoes: seq<RecomendacaoIndice>)

  function EhNoAlvo(g: Glicemia): bool { NoAlvo(g.glicemia) }

  /** `calcularEstatisticasIndice(glicemias, periodoDias)`. */
  function CalcularEstatisticasIndice(gs: seq<Glicemia>, periodo: int): (e: EstatisticasIndice)
    ensures e.periodo == periodo && e.totalRegistros == |gs|
    ensures e.tendencia == DeterminarTendencia(gs)
    ensures gs == [] ==>
      e.media == 0.0 && e.desvioQuadrado == 0.0 && e.maxima == 0 && e.minima == 0
      && e.dentroAlvo == 0 && e.percentualAlvo == 0.0 && e.variabilidadeQuadrada == 0.0
      && e.tendencia == PoucosDados && e.classificacao == SemDados
      && e.recomendacoes == [NenhumRegistro]
    ensures gs != [] ==>
      e.classificacao != SemDados
      && e.dentroAlvo <= e.totalRegistros
      && 0.0 <= e.percentualAlvo <= 100.0
      && (e.dentroAlvo == e.totalRegistros ==> e.percentualAlvo == 100.0)
      && (e.percentualAlvo == 100.0 && |gs| < 2000 ==> e.dentroAlvo == e.totalRegistros)
      && e.minima <= e.maxima
      && e.minima as real <= e.media <= e.maxima as real
      && e.minima in Valores(gs) && e.maxima in Valores(gs)
      && e.variabilidadeQuadrada == e.desvioQuadrado
      && |e.recomendacoes| >= 2 && e.recomendacoes[|e.recomendacoes| - 2..] == Fechamento
  {
    if gs == [] then
      EstatisticasIndice(periodo, 0, 0.0, 0.0, 0, 0, 0, 0.0, 0.0, PoucosDados, SemDados, [NenhumRegistro])
    else
      var vs := Valores(gs);
      var media := Mean(vs);
      var dentroAlvo := Count(gs, EhNoAlvo);
      var pct := Percentual(dentroAlvo, |gs|);
      var variabilidade := VariabilidadeQuadrada(gs);
      MeanBetweenExtremes(vs);
      RoundTenthWithin(media, Min(vs), Max(vs));
      PercentualLimites(dentroAlvo, |gs|);
      VariabilidadeEhDesvio(gs);
      RecomendacoesIndiceEmOrdem(media, pct, variabilidade, gs);
      assert dentroAlvo < |gs| && |gs| < 2000 ==> pct < 100.0 by {
        if dentroAlvo < |gs| && |gs| < 2000 {
          PercentualAbaixoDeCem(dentroAlvo, |gs|);
        }
      }
      EstatisticasIndice(
        periodo, |gs|, RoundTenth(media), Variance(vs), Max(vs), Min(vs),
        dentroAlvo, pct, variabilidade, DeterminarTendencia(gs),
        ClassificarControle(media, pct, variabilidade),
        GerarRecomendacoesIndice(media, pct, variabilidade, gs))
  }

  /** For readings each field is the measure that its own lemmas describe:
      the rounded mean, the variance, the extremes, the count and share in
      range, and the classification and list that those values earn. */
  lemma CamposEstatisticasIndice(gs: seq<Glicemia>, periodo: int)
    requires gs != []
    ensures CalcularEstatisticasIndice(gs, periodo).media == RoundTenth(Mean(Valores(gs)))
    ensures CalcularEstatisticasIndice(gs, periodo).desvioQuadrado == Variance(Valores(gs))
    ensures CalcularEstatisticasIndice(gs, periodo).minima == Min(Valores(gs))
    ensures CalcularEstatisticasIndice(gs, periodo).maxima == Max(Valores(gs))
    ensures CalcularEstatisticasIndice(gs, periodo).dentroAlvo == Count(gs, EhNoAlvo)
    ensures CalcularEstatisticasIndice(gs, periodo).percentualAlvo == Percentual(Count(gs, EhNoAlvo), |gs|)
    ensures CalcularEstatisticasIndice(gs, periodo).variabilidadeQuadrada == VariabilidadeQuadrada(gs)
    ensures CalcularEstatisticasIndice(gs, periodo).classificacao
      == ClassificarControle(Mean(Valores(gs)), Percentual(Count(gs, EhNoAlvo), |gs|), VariabilidadeQuadrada(gs))
    ensures CalcularEstatisticasIndice(gs, periodo).recomendacoes
      == GerarRecomendacoesIndice(Mean(Valores(gs)), Percentual(Count(gs, EhNoAlvo), |gs|), VariabilidadeQuadrada(gs), gs)
  {
  }

  /** An Excelente or Bom period never gets the high-mean, the monitoring or
      the variability line. */
  lemma ClassificacaoCoerente(gs: seq<Glicemia>, periodo: int)
    requires CalcularEstatisticasIndice(gs, periodo).classificacao in {Excelente, Bom}
    ensures AjustarMedicacaoDieta !in CalcularEstatisticasIndice(gs, periodo).recomendacoes
    ensures AumentarMonitoramento !in CalcularEstatisticasIndice(gs, periodo).recomendacoes
    ensures AltaVariabilidade !in CalcularEstatisticasIndice(gs, periodo).recomendacoes
  {
    var vs := Valores(gs);
    var pct := Percentual(Count(gs, EhNoAlvo), |gs|);
    var c := ClassificarControle(Mean(vs), pct, VariabilidadeQuadrada(gs));
    TiersAninhados(Mean(vs), pct, VariabilidadeQuadrada(gs));
    assert Cumpre(Bom, Mean(vs), pct, VariabilidadeQuadrada(gs));
  }

  // ---------------------------------------------------------------------
  // the two ways a period is chosen

  /** `calcularIndicePeriodo(periodoDias)` with the dates of "today minus
      `periodoDias`" and "today" given as strings: the readings of the
      period in the order the store keeps them. */
  function CalcularIndicePeriodo(glicemias: seq<Glicemia>, inicio: string, fim: string, periodoDias: int): (e: EstatisticasIndice)
    ensures e == CalcularEstatisticasIndice(FiltrarPeriodo(glicemias, inicio, fim), periodoDias)
    ensures e.totalRegistros <= |glicemias|
  {
    CalcularEstatisticasIndice(FiltrarPeriodo(glicemias, inicio, fim), periodoDias)
  }

  /** The period path with the readings put in chronological order first,
      as the form path does. */
  function CalcularIndicePeriodoCronologico(glicemias: seq<Glicemia>, inicio: string, fim: string, periodoDias: int): (e: EstatisticasIndice)
    ensures e == CalcularEstatisticasIndice(PeriodoCronologico(glicemias, inicio, fim), periodoDias)
    ensures e.totalRegistros == |FiltrarPeriodo(glicemias, inicio, fim)|
  {
    var dados := PeriodoCronologico(glicemias, inicio, fim);
    assert |dados| == |multiset(dados)|;
    CalcularEstatisticasIndice(dados, periodoDias)
  }

  /** The submit handler of the index form: an empty date gives no result;
      otherwise the readings of `[inicio, fim]` are taken in chronological
      order. `dias` is the rounded length of the period in days. */
  function IndiceFormulario(glicemias: seq<Glicemia>, inicio: string, fim: string, dias: int): (r: Option<EstatisticasIndice>)
    ensures r.None? <==> inicio == "" || fim == ""
    ensures r.Some? ==> r.value == CalcularIndicePeriodoCronologico(glicemias, inicio, fim, dias)
  {
    if inicio == "" || fim == "" then None
    else Some(CalcularIndicePeriodoCronologico(glicemias, inicio, fim, dias))
  }

  /** The chronological period path does not depend on the order in which
      the store keeps readings with distinct timestamps. */
  lemma CronologicoIndependeDaOrdem(gs: seq<Glicemia>, hs: seq<Glicemia>, inicio: string, fim: string, periodoDias: int)
    requires multiset(gs) == multiset(hs)
    requires TimestampsDistintos(gs)
    ensures CalcularIndicePeriodoCronologico(gs, inicio, fim, periodoDias)
         == CalcularIndicePeriodoCronologico(hs, inicio, fim, periodoDias)
  {
    PeriodoCronologicoIndependeDaOrdem(gs, hs, inicio, fim);
  }

  /** Three readings of the same day, an hour apart. */
  const LeituraA := Glicemia(1, 100, "2024-01-10", "08:00", "", "Normal", "normal", 1)
  const LeituraB := Glicemia(2, 100, "2024-01-10", "09:00", "", "Normal", "normal", 2)
  const LeituraC := Glicemia(3, 200, "2024-01-10", "10:00", "", "Alta", "alta", 3)

  /** A store in which the latest reading was registered first. */
  const Armazenado := [LeituraC, LeituraA, LeituraB]

  /** 2024-01-10 lies in January 2024 by string comparison. */
  lemma DiaDeJaneiro()
    ensures LessEq("2024-01-01", "2024-01-10") && LessEq("2024-01-10", "2024-01-31")
  {
    var primeiro, dia, ultimo := "2024-01-01", "2024-01-10", "2024-01-31";
    assert DataIso(primeiro) && DataIso(dia) && DataIso(ultimo);
    assert primeiro[..8] == dia[..8] == ultimo[..8];
    DigitsValueTwo(primeiro[8..10]);
    DigitsValueTwo(dia[8..10]);
    DigitsValueTwo(ultimo[8..10]);
    MesmoMes(primeiro, dia);
    MesmoMes(dia, ultimo);
  }

  /** Two ISO dates of the same month compare, as strings, as their day
      numbers do. */
  lemma MesmoMes(a: string, b: string)
    requires DataIso(a) && DataIso(b) && a[..8] == b[..8]
    ensures LessEq(a, b) <==> DigitsValue(a[8..10]) <= DigitsValue(b[8..10])
  {
    var p := a[..8];
    assert a == p + a[8..10] && b == p + b[8..10];
    LessCommonPrefix(p, b[8..10], a[8..10]);
    LessTwoDigits(b[8..10], a[8..10]);
  }

  /** The three readings fall in January 2024. */
  lemma ArmazenadoEmJaneiro()
    ensures FiltrarPeriodo(Armazenado, "2024-01-01", "2024-01-31") == Armazenado
  {
    DiaDeJaneiro();
    var p := NoPeriodoDe("2024-01-01", "2024-01-31");
    assert p(LeituraA) && p(LeituraB) && p(LeituraC);
    assert Filter([LeituraB], p) == [LeituraB];
    assert Filter([LeituraA, LeituraB], p) == [LeituraA, LeituraB];
    assert Filter(Armazenado, p) == [LeituraC] + [LeituraA, LeituraB];
  }

  /** The readings in chronological order, a permutation of the store. */
  const Ordenado := [LeituraA, LeituraB, LeituraC]

  lemma OrdenadoPermutaArmazenado()
    ensures multiset(Ordenado) == multiset(Armazenado)
  {
    assert Armazenado == [LeituraC] + [LeituraA, LeituraB];
    assert Ordenado == [LeituraA, LeituraB] + [LeituraC];
  }

  lemma OrdenadoCronologico()
    ensures SortedBy(Ordenado, PorTimestamp)
    ensures forall x, y :: x in Ordenado && y in Ordenado && PorTimestamp(x) == PorTimestamp(y) ==> x == y
  {
  }

  /** Sorting the store gives the readings in chronological order. */
  lemma ArmazenadoCronologico()
    ensures PeriodoCronologico(Armazenado, "2024-01-01", "2024-01-31") == Ordenado
  {
    ArmazenadoEmJaneiro();
    OrdenadoPermutaArmazenado();
    OrdenadoCronologico();
    var dados := PeriodoCronologico(Armazenado, "2024-01-01", "2024-01-31");
    SortedUnique(Ordenado, dados, PorTimestamp);
  }

  /** A three-value series compares its first and last value. */
  lemma TendenciaDe(vs: seq<int>, primeiro: int, ultimo: int)
    requires |vs| == 3 && vs[0] == primeiro && vs[2] == ultimo
    ensures Diferenca(vs) == (ultimo - primeiro) as real
  {
    assert Ultimos(vs) == [ultimo] && Primeiros(vs) == [primeiro];
    assert Sum([ultimo]) == ultimo && Sum([primeiro]) == primeiro;
  }

  /** The store read as stored falls; read chronologically it rises. */
  lemma TendenciasDoExemplo()
    ensures DeterminarTendencia(Armazenado) == Decrescendo
    ensures DeterminarTendencia(Ordenado) == Crescendo
  {
    TendenciaDe(Valores(Armazenado), 200, 100);
    TendenciaDe(Valores(Ordenado), 100, 200);
  }

  /** The quick path keeps the store's order: with the 200 mg/dL reading of
      10:00 stored ahead of the 100 mg/dL readings of 08:00 and 09:00, a
      rising morning reads as falling, while the chronological path sees it
      rising. */
  lemma TendenciaRapidaDependeDoArmazenamento()
    ensures CalcularIndicePeriodo(Armazenado, "2024-01-01", "2024-01-31", 30).tendencia == Decrescendo
    ensures CalcularIndicePeriodoCronologico(Armazenado, "2024-01-01", "2024-01-31", 30).tendencia == Crescendo
  {
    ArmazenadoEmJaneiro();
    ArmazenadoCronologico();
    TendenciasDoExemplo();
  }
}
