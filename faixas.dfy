/** The per-reading glucose bands shared by the registration form, the
    history, the chart and the report, and the three summary bands of the
    report (mean, time in range, variability). Each band is defined here as
    the number of thresholds a value has crossed, independently of the
    `if` chains that the screens use to pick a label. */
module Faixas {

  /** Band of one reading: 0 below 70 mg/dL, 1 from 70 to 180, 2 from 181
      to 250, 3 above 250. */
  function Faixa(v: int): (f: nat)
    ensures f <= 3
  {
    (if v >= 70 then 1 else 0) + (if v > 180 then 1 else 0) + (if v > 250 then 1 else 0)
  }

  /** Time-in-range target: 70 to 180 mg/dL inclusive. */
  predicate NoAlvo(v: int) { 70 <= v <= 180 }

  /** Hypoglycaemia: below 70 mg/dL. */
  predicate Hipo(v: int) { v < 70 }

  /** Hyperglycaemia: above 180 mg/dL. */
  predicate Hiper(v: int) { v > 180 }

  /** Display labels of the four reading bands. */
  const Rotulos: seq<string> := ["Baixa", "Normal", "Alta", "Muito Alta"]

  /** CSS classes of the four reading bands. */
  const Classes: seq<string> := ["baixa", "normal", "alta", "muito-alta"]

  /** Higher readings never fall into a lower band. */
  lemma FaixaMonotone(v: int, w: int)
    requires v <= w
    ensures Faixa(v) <= Faixa(w)
  {
  }

  /** The bands agree with the three counts of the statistics: band 0 is a
      hypoglycaemia, band 1 is in range, bands 2 and 3 are hyperglycaemias. */
  lemma FaixaContagens(v: int)
    ensures Faixa(v) == 0 <==> Hipo(v)
    ensures Faixa(v) == 1 <==> NoAlvo(v)
    ensures Faixa(v) >= 2 <==> Hiper(v)
  {
  }

  /** Band of a mean: 0 below 100, 1 below 130, 2 below 150, 3 otherwise
      (`excelente`, `bom`, `regular`, `precisa-ajuste`). */
  function NivelMedia(m: real): (n: nat)
    ensures n <= 3
  {
    (if m >= 100.0 then 1 else 0) + (if m >= 130.0 then 1 else 0) + (if m >= 150.0 then 1 else 0)
  }

  /** Band of a time-in-range percentage: 0 from 70, 1 from 50, 2 below 50
      (`excelente`, `bom`, `precisa-melhorar`). */
  function NivelControle(p: real): (n: nat)
    ensures n <= 2
  {
    (if p < 70.0 then 1 else 0) + (if p < 50.0 then 1 else 0)
  }

  /** Band of a variability: 0 below 20, 1 below 40, 2 otherwise (`baixa`,
      `moderada`, `alta`). */
  function NivelVariabilidade(v: real): (n: nat)
    ensures n <= 2
  {
    (if v >= 20.0 then 1 else 0) + (if v >= 40.0 then 1 else 0)
  }

  /** A higher mean never earns a better band, a higher time in range never
      a worse one, a higher variability never a better one. */
  lemma NiveisMonotonos(a: real, b: real)
    requires a <= b
    ensures NivelMedia(a) <= NivelMedia(b)
    ensures NivelControle(a) >= NivelControle(b)
    ensures NivelVariabilidade(a) <= NivelVariabilidade(b)
  {
  }
}
