# Cuidando de sua Diabete — verified model of the glucose core

This project is a Dafny model of the browser application's diabetes
logic. It keeps a store of glucose readings, goals and food entries. From the
readings of a period it computes:

- report statistics: mean, extremes, time in range (70–180 mg/dL),
  deviation, variability, counts and time-of-day means;
- the glycemic index: trend, variability, a four-level classification of
  control, and the recommendation lists;
- the points of the glucose chart;
- a glycemic-index estimate for each food.

Each source file has its own module:

| module | source | form |
|---|---|---|
| `Relatorios` | `js/relatorios.js` | functions, plus the class `RelatoriosSistema` for the current report |
| `Indice` | `js/indice.js` | functions |
| `Script` | `js/script.js` | the store as class `Dados` (readings and goals), goals as class `Meta`, the rest as functions |
| `Graficos` | `js/graficos.js` | class `GraficosSistema` holding the chart data; `processarDados` as a method with a loop |
| `Alimentos` | `js/alimentos.js` | the food store as class `Cadastro`, the rest as functions |

Four modules are shared by all of them:

- `Seqs`: filter, count, sum, extremes, mean, deviations and a stable sort, with their laws.
- `Strings`: JavaScript string comparison, `split`, `trim`, `includes`, `parseInt`, `toLowerCase` and date formatting.
- `Registros`: the stored records and the period filter.
- `Faixas` and `Rounding`: the band tables and `toFixed(1)`.

Numbers are modelled as follows:

- Readings are integers; means and percentages are exact reals.
- `toFixed(1)` is rounding to tenths, half away from zero.
- Where the source takes a square root (the standard deviation of the index), the model keeps the variance. Every threshold on the deviation is stated on its square: 36, 50 and 70 become 1296, 2500 and 4900.

## Model

| member | source | states |
|---|---|---|
| Registros.FiltrarPeriodo | js/script.js:747-751 | a reading is kept exactly when it is stored and its date lies between the two bounds, by string comparison |
| Registros.PeriodoInvertidoVazio | js/relatorios.js:225-227 | a period whose end precedes its start selects no reading |
| Registros.PeriodoCronologico | js/relatorios.js:225-227 | the readings of the period, sorted ascending by timestamp, are a permutation of the filtered readings and contain exactly the readings of the period |
| Registros.PeriodoCronologicoIndependeDaOrdem | js/indice.js:260-262 | with distinct timestamps, the sorted period depends only on which readings are stored, not on the order of the store |
| Relatorios.ObterDadosRelatorio | js/relatorios.js:211-228 | the report data are sorted by timestamp, are a permutation of the filtered store and contain exactly the readings of the period; an empty store gives none |
| Relatorios.CalcularVariabilidade | js/relatorios.js:297-304 | the variability (mean absolute deviation, 0 below two readings) is never negative |
| Seqs.MeanAbsDeviationReference | js/relatorios.js:301-303 | the integer-scaled mean absolute deviation equals the direct real formula Σ abs(v − mean) / n |
| Seqs.VarianceReference | js/indice.js:89-91 | the integer-scaled variance equals the direct real formula Σ(v − mean)² / n |
| Relatorios.CalcularEstatisticas | js/relatorios.js:230-295 | the total counts every reading and no data gives all zeros (the other fields are stated by the lemmas below) |
| Relatorios.CamposEstatisticas | js/relatorios.js:230-295 | for a non-empty period the mean is the rounded `Mean`, the extremes are `Min` and `Max`, the time in range is the rounded share of in-range readings, the squared deviation is the `Variance`, the variability is the rounded mean absolute deviation, the counts are those of the bands and the two time-of-day means are the rounded means of their windows |
| Relatorios.ContagensParticionam | js/relatorios.js:252-256 | hypoglycaemias, in-range readings and hyperglycaemias add up to the number of readings |
| Relatorios.MediaEntreExtremos | js/relatorios.js:247-250 | minimum ≤ rounded mean ≤ maximum, and both extremes are readings of the period |
| Relatorios.PercentualNormaisLimites | js/relatorios.js:252-253 | the time in range lies in 0..100, is 100 when all readings are in range and 0 when none is, and below 2000 readings is 100 only when all are |
| Relatorios.PercentualCemComLeituraFora | js/relatorios.js:253 | from 2000 readings on, one reading out of range still shows 100.0 % |
| Relatorios.VariabilidadeNula | js/relatorios.js:259-264 | the variability is 0 exactly when there are fewer than two readings or all are equal; the same holds for the deviation of a non-empty period |
| Relatorios.MediasPorHorario | js/relatorios.js:266-280 | each time-of-day mean is 0 without readings in its window, otherwise the sum of the window's readings over their number, rounded, and so between the lowest and highest reading of the window |
| Relatorios.MediaDeLimites | js/relatorios.js:271-280 | the mean of a set of readings is 0 when empty, otherwise between its extremes |
| Relatorios.ObterStatusGlicemia | js/relatorios.js:580-585 | the label is the band label of the value (below 70; up to 180; up to 250; above) |
| Relatorios.ObterClasseGlicemia | js/relatorios.js:587-592 | the CSS class is the band class of the value |
| Relatorios.StatusNormalSeNoAlvo | js/relatorios.js:580-585 | a reading is labelled `Normal` exactly when it counts as in range |
| Relatorios.ObterNomeTipoRelatorio | js/relatorios.js:514-521 | the three known report types get their titles, any other type the custom title |
| Relatorios.GetClassificacaoMedia | js/relatorios.js:523-528 | the class of a mean is that of its band (100, 130, 150) |
| Relatorios.GetClassificacaoTexto | js/relatorios.js:530-535 | the label of a mean is that of its band |
| Relatorios.GetInterpretacaoMedia | js/relatorios.js:537-542 | the interpretation of a mean is that of its band |
| Relatorios.GetClassificacaoControle | js/relatorios.js:544-548 | the class of a time in range is that of its band (70, 50) |
| Relatorios.GetClassificacaoControleTexto | js/relatorios.js:550-554 | the label of a time in range is that of its band |
| Relatorios.GetInterpretacaoControle | js/relatorios.js:556-560 | the interpretation of a time in range is that of its band |
| Relatorios.GetClassificacaoVariabilidade | js/relatorios.js:562-566 | the class of a variability is that of its band (20, 40) |
| Relatorios.GetClassificacaoVariabilidadeTexto | js/relatorios.js:568-572 | the label of a variability is that of its band |
| Relatorios.GetInterpretacaoVariabilidade | js/relatorios.js:574-578 | the interpretation of a variability is that of its band |
| Relatorios.Amostra | js/relatorios.js:455-469 | the table holds the first min(15, n) readings in order, each with its band label and class and `-` for an empty note |
| Relatorios.Resumo | js/relatorios.js:471-479 | the "showing 15 of N" line appears, with N the total, exactly when there are more than 15 readings |
| Relatorios.Se | js/relatorios.js:598-622 | a rule contributes its item exactly when its condition holds |
| Relatorios.ParteMedia | js/relatorios.js:598-602 | the high-mean item appears exactly above 150, the low-mean item exactly below 80 and never both |
| Relatorios.AlertasTela | js/relatorios.js:604-622 | each alert appears exactly when its condition holds, after the mean items |
| Relatorios.RegrasTela | js/relatorios.js:597-622 | each rule-driven item appears exactly when its condition holds, frequent hyperglycaemias meaning more than 30 % of the readings |
| Relatorios.GerarRecomendacoes | js/relatorios.js:594-634 | every rule item appears exactly when its condition holds; the list is the rule items followed by the three general items |
| Relatorios.ConcatEmOrdem | js/relatorios.js:597-627 | appending two ordered groups of items, the second of later kinds, gives an ordered list |
| Relatorios.RecomendacoesEmOrdem | js/relatorios.js:597-627 | the items come in the source's rule order (mean, monitoring, hypoglycaemias, frequent hyperglycaemias, variability, general advice), none twice |
| Relatorios.FilterParteMedia | js/relatorios.js:1478-1480 | the PDF keeps only the high-mean half of the mean rule |
| Relatorios.FilterSe | js/relatorios.js:1478-1492 | filtering a single-rule list keeps it exactly when the item is carried to the PDF |
| Relatorios.AlertasPdfSaoFiltro | js/relatorios.js:1482-1492 | the PDF alerts are the on-screen alerts without the frequent-hyperglycaemia item |
| Relatorios.RegrasPdfSaoFiltro | js/relatorios.js:1478-1492 | the PDF rules are the on-screen rules without the low-mean and frequent-hyperglycaemia items |
| Relatorios.RecomendacoesPdf | js/relatorios.js:1472-1499 | the PDF list ends with the three general items |
| Relatorios.RecomendacoesPdfSaoFiltro | js/relatorios.js:1472-1499 | the PDF list is the on-screen list filtered, in the same order |
| Relatorios.TextosPdf | js/relatorios.js:1472-1499 | one PDF text per item, in order |
| Relatorios.TextoPdfTerminaComReavaliacao | js/relatorios.js:1494-1498 | the PDF text always ends with the re-evaluation advice |
| Relatorios.RelatoriosSistema.GerarRelatorio | js/relatorios.js:145-209 | missing date, start after end and empty period are refused in that order and store no report; otherwise the report of the period is stored, and the PDF flag is raised only when the button exists |
| Relatorios.RelatoriosSistema.ExtrairRecomendacoesTexto | js/relatorios.js:1472-1499 | empty before any report, otherwise the PDF items of the current statistics joined by spaces |
| Faixas.Faixa | js/script.js:169-181 | every value falls in one of four bands |
| Faixas.FaixaMonotone | js/script.js:169-181 | a higher value never falls in a lower band |
| Faixas.FaixaContagens | js/relatorios.js:252-256 | band 0 is a hypoglycaemia, band 1 is in range, bands 2 and 3 are hyperglycaemias |
| Faixas.NivelMedia | js/relatorios.js:523-528 | a mean falls in one of four bands |
| Faixas.NivelControle | js/relatorios.js:544-548 | a time in range falls in one of three bands |
| Faixas.NivelVariabilidade | js/relatorios.js:562-566 | a variability falls in one of three bands |
| Faixas.NiveisMonotonos | js/relatorios.js:523-578 | a higher mean or variability never earns a better band, and a higher time in range never a worse one |
| Rounding.RoundTenthClose | js/relatorios.js:253 | the rounded value is within half a tenth of the input |
| Rounding.RoundTenthMonotone | js/relatorios.js:253 | rounding keeps the order of two values |
| Rounding.RoundTenthInteger | js/relatorios.js:283-293 | whole numbers round to themselves |
| Rounding.RoundTenthNonNegative | js/relatorios.js:253 | non-negative values stay non-negative, and round to 0 exactly below 0.05 |
| Rounding.RoundTenthWithin | js/relatorios.js:253 | a value between two integers rounds between them |
| Rounding.PercentualLimites | js/indice.js:54 | a rounded share of at most the whole lies in 0..100, is 100 for the whole and 0 for nothing |
| Rounding.PercentualAbaixoDeCem | js/indice.js:54 | below 2000 readings, a share short of the whole rounds below 100 |
| Rounding.PercentualArredondaParaCem | js/indice.js:54 | from 2000 readings on, all but one reading rounds to 100.0 |
| Strings.HoraBemFormada | js/relatorios.js:268 | on an `HH:MM` time the parsed hour is the two leading digits |
| Strings.FormatarDataIso | js/script.js:541-545 | an ISO date `YYYY-MM-DD` is shown as `DD/MM/YYYY` |
| Strings.Trim | js/alimentos.js:25 | the trimmed name is the part of the input between a leading and a trailing run of ECMAScript white space or line terminators; it is empty exactly when every character is such, and otherwise neither starts nor ends with one |
| Strings.TrimUnicodeSpaces | js/alimentos.js:25 | the ideographic space and the byte-order mark are trimmed like an ASCII space |
| Indice.Primeiros | js/indice.js:99 | the first third is ⌊n/3⌋ readings long |
| Indice.Ultimos | js/indice.js:100 | the last third is ⌊n/3⌋ readings long |
| Indice.TendenciaValores | js/indice.js:96-110 | the trend falls back to the few-data answer exactly below three readings |
| Indice.DeterminarTendencia | js/indice.js:96-110 | the trend of readings is that of their values, with the few-data answer exactly below three readings |
| Indice.DiferencaPorSomas | js/indice.js:102-108 | the difference of the third means exceeds ±15 exactly when the difference of the third sums exceeds ±15 times the third's length |
| Indice.SaldoReverso | js/indice.js:99-105 | reversing the readings negates the difference of the thirds |
| Indice.SomasReversas | js/indice.js:99-100 | the first third of the reversed readings sums to the last third of the original, and the reverse |
| Indice.TendenciaReversa | js/indice.js:96-110 | the trend of the reversed readings is the opposite trend |
| Indice.TendenciaMonotona | js/indice.js:96-110 | non-decreasing readings are never falling, non-increasing readings never rising |
| Indice.TendenciaConstante | js/indice.js:96-110 | three or more equal readings are stable |
| Indice.VariabilidadeQuadrada | js/indice.js:85-93 | the squared variability is non-negative and 0 below two readings |
| Indice.VariabilidadeEhDesvio | js/indice.js:85-93 | for readings it is the population variance of their values |
| Indice.VariabilidadeNulaIff | js/indice.js:85-93 | it is 0 exactly when all readings are equal |
| Indice.ClassificarControle | js/indice.js:113-123 | the result is the best of the four levels whose three thresholds the inputs meet |
| Indice.TiersAninhados | js/indice.js:113-123 | meeting a level's thresholds meets those of every lower level |
| Indice.ClassificacaoLimiar | js/indice.js:113-123 | the inputs meet every level at or below the one returned |
| Indice.ClassificacaoMonotona | js/indice.js:113-123 | a lower mean, higher time in range and lower variability never earn a worse level |
| Indice.Quando | js/indice.js:126-157 | a rule contributes its item exactly when its condition holds |
| Indice.ConcatEmOrdem | js/indice.js:126-157 | appending two ordered groups of items, the second of later kinds, gives an ordered list |
| Indice.EmConcatenacao | js/indice.js:126-157 | the list is its three parts in order, and the last two items are the closing part |
| Indice.Origem | js/indice.js:126-157 | an item belongs to the list exactly when it belongs to the part its kind comes from |
| Indice.ParteMediaIndice | js/indice.js:130-134 | the high-mean item appears exactly above 180, the low-mean item exactly below 70 |
| Indice.ParteAlertas | js/indice.js:136-149 | the monitoring item below 50 % in range, the variability item above deviation 50 and the hypoglycaemia item with the count when there is one, in order |
| Indice.GerarRecomendacoesIndice | js/indice.js:126-157 | each item appears exactly when its rule fires; the episode item carries the number of hypoglycaemias |
| Indice.RecomendacoesIndiceEmOrdem | js/indice.js:126-157 | the items keep the rule order and the list ends with the two general items |
| Indice.MediaAltaOuBaixa | js/indice.js:130-134 | the high-mean and low-mean items never appear together |
| Indice.EpisodiosSeHaHipo | js/indice.js:146-149 | an episode item appears exactly when some reading is below 70 |
| Indice.CalcularEstatisticasIndice | js/indice.js:24-82 | the period and total are kept and the trend is `DeterminarTendencia`; no data gives zeros, no classification and the no-record item; otherwise there is a classification, the share in range lies in 0..100 (100 exactly when all readings are in range, below 2000 readings), minimum ≤ mean ≤ maximum with both extremes among the readings, and the list ends with the two general items |
| Indice.CamposEstatisticasIndice | js/indice.js:24-82 | for readings the mean is the rounded `Mean`, the extremes are `Min` and `Max`, the count and share in range are those of the readings, the deviation and variability are the variance, the classification is `ClassificarControle` and the list is `GerarRecomendacoesIndice` of those values |
| Indice.ClassificacaoCoerente | js/indice.js:40-41 | an excellent or good classification never comes with the mean, monitoring or variability items |
| Indice.CalcularIndicePeriodo | js/indice.js:8-21 | the quick path computes the index of the unsorted period filter |
| Indice.CalcularIndicePeriodoCronologico | js/indice.js:260-266 | the form path computes exactly the index statistics of the period sorted by timestamp |
| Indice.IndiceFormulario | js/indice.js:249-269 | the form refuses exactly a missing date, otherwise computes the index of the sorted period |
| Indice.CronologicoIndependeDaOrdem | js/indice.js:260-266 | the form path's index does not depend on the order of the store |
| Indice.DiaDeJaneiro | js/indice.js:16-18 | the example's date lies in the example period |
| Indice.MesmoMes | js/indice.js:16-18 | two ISO dates of the same year and month compare, as strings, exactly as their two-digit day numbers do |
| Indice.ArmazenadoEmJaneiro | js/indice.js:16-18 | the whole example store lies in the period |
| Indice.OrdenadoPermutaArmazenado | js/indice.js:16-18 | the chronological example is a permutation of the stored example |
| Indice.OrdenadoCronologico | js/indice.js:260-262 | the chronological example is sorted with distinct timestamps |
| Indice.ArmazenadoCronologico | js/indice.js:260-262 | sorting the stored example gives the chronological example |
| Indice.TendenciaDe | js/indice.js:102-108 | with three readings the difference is the last minus the first |
| Indice.TendenciasDoExemplo | js/indice.js:96-110 | the stored order reads as falling, the chronological order as rising |
| Indice.TendenciaRapidaDependeDoArmazenamento | js/indice.js:16-20 | on the example the quick path reports a falling trend while the sorted path reports a rising one |
| Script.ValorValido | js/script.js:145-154 | a value is accepted exactly when it parses and lies in 20..600 |
| Script.StatusFormulario | js/script.js:169-181 | status and class are the band label and class of the value |
| Script.StatusFormularioBandas | js/script.js:169-181 | the four branches cover the four bands |
| Script.NovoRegistro | js/script.js:183-192 | the new record carries the inputs and the band status of its value |
| Script.PrimeiraMeta | js/script.js:570 | `find` returns the first goal with the id, or nothing when none has it |
| Script.Pendentes | js/script.js:471 | exactly the open goals, in order |
| Script.Concluidas | js/script.js:472 | exactly the completed goals, in order |
| Script.PendentesConcluidasParticionam | js/script.js:471-472 | every goal is in exactly one of the two lists, and their lengths add up |
| Script.Dados.RegistrarGlicemia | js/script.js:142-194 | an invalid value, then a missing date, then a missing hour are refused and store nothing; otherwise the new record is appended |
| Script.Dados.ExcluirRegistroGlicemia | js/script.js:557-567 | after confirmation every reading with the id is removed and the rest kept in order; otherwise nothing changes |
| Script.Dados.AdicionarMeta | js/script.js:219-238 | an empty description is refused; otherwise a fresh open goal is appended |
| Script.Dados.ConcluirMeta | js/script.js:569-578 | the first goal with the id is completed with today's date, every other goal is unchanged; an unknown id changes nothing |
| Script.Dados.ExcluirMeta | js/script.js:580-587 | after confirmation every goal with the id is removed and the rest kept in order |
| Script.SemRegistro | js/script.js:559 | exactly the readings without the id remain, in order; the length is kept exactly when none had it |
| Script.ObterGlicemiasPeriodo | js/script.js:747-751 | exactly the readings of the period, in store order |
| Script.FiltrarHistorico | js/script.js:395-418 | the readings passing both filters, most recent first, as a permutation of the filtered store |
| Script.HistoricoSemFiltros | js/script.js:407-414 | with no filter the history shows every reading |
| Script.CalcularEstatisticas | js/script.js:753-773 | zeros for no data; otherwise the mean is `Mean`, the extremes `Min` and `Max`, and the time in range the rounded share of in-range readings, so minimum ≤ mean ≤ maximum and the share lies in 0..100, 100 when all are in range and 0 when none is |
| Script.FormatarCategoria | js/script.js:547-555 | a known goal category shows its display name, another shows itself |
| Graficos.GetClassificacao | js/graficos.js:301-306 | the tooltip label is the band label of the value |
| Graficos.GetCorGlicemia | js/graficos.js:308-313 | the point colour is the band colour of the value |
| Graficos.CorAcompanhaClassificacao | js/graficos.js:301-313 | two values share a colour exactly when they share a label, exactly when they share a band |
| Graficos.ObterDadosFiltrados | js/graficos.js:267-277 | no store, or a start or end that is not a date (a cleared field), gives no data; otherwise every copy of the readings of the period, end day included, ascending by timestamp |
| Graficos.RotuloDiaCampos | js/graficos.js:286-287 | the label of an ISO date splits at `/` into its day and month numbers |
| Graficos.RotuloComHora | js/graficos.js:290-292 | the hour is appended exactly when another plotted reading shares the date |
| Graficos.ProcessarDados | js/graficos.js:280-298 | one label and one value per reading in order, each value the reading's glucose and each label its date label |
| Graficos.CoresDe | js/graficos.js:256 | one colour per value, the band colour of that value |
| Graficos.GraficosSistema.constructor | js/graficos.js:4-37 | the default 30-day period ends today, and the first redraw leaves the chart showing exactly the data of that period (or the `Sem dados` point) with per-point band colours and the title |
| Graficos.GraficosSistema.ConfigurarDataPadrao | js/graficos.js:39-54 | the period's dates change and nothing else does |
| Graficos.GraficosSistema.AtualizarGrafico | js/graficos.js:230-262 | an empty period shows the single point `Sem dados` at 0 and keeps the colours; otherwise labels, values, per-point band colours and the title follow the data |
| Graficos.GraficosSistema.EscolherPeriodo | js/graficos.js:75-80 | the chosen number of days moves the period to end today, and the chart then shows exactly the data of the new period, as after a redraw |
| Graficos.GraficosSistema.EscolherPersonalizado | js/graficos.js:60-74 | the custom choice sets the last seven days without a redraw |
| Graficos.GraficosSistema.DefinirInicio | js/graficos.js:90-93 | only the start date changes, and the chart then shows exactly the data of the new period, as after a redraw |
| Graficos.GraficosSistema.DefinirFim | js/graficos.js:97-100 | only the end date changes, and the chart then shows exactly the data of the new period, as after a redraw |
| Alimentos.Menciona | js/alimentos.js:71-73 | the name mentions the list exactly when some keyword occurs in it |
| Alimentos.EstimarIndiceGlicemico | js/alimentos.js:65-86 | the low keywords win, then the high keywords, on the lower-cased name; without one, the category table decides |
| Alimentos.EstimativaIgnoraCaixa | js/alimentos.js:69-73 | the estimate does not depend on letter case |
| Alimentos.CategoriaSemPalavraChave | js/alimentos.js:77-85 | without a keyword, `cereais` is medium-high, `doces` high and an unknown category medium |
| Alimentos.BatataDoceEhBaixo | js/alimentos.js:66-75 | sweet potato mentions the high keyword `batata` yet is estimated low |
| Alimentos.CorIndice | js/alimentos.js:118-119 | green exactly for low, red exactly for high, amber exactly for the three others |
| Alimentos.FormatarCategoria | js/alimentos.js:178-190 | a known food category shows its display name, and only an unknown one shows itself |
| Alimentos.Selecionados | js/alimentos.js:94-99 | the selected entries are those of the chosen category, or all of them for `todos` or no selector |
| Alimentos.ListaOrdenada | js/alimentos.js:94-102 | the list is the selection, most recent first, as a permutation |
| Alimentos.ListaMostraCategoria | js/alimentos.js:94-102 | the list shows exactly the entries of the chosen category |
| Alimentos.SemAlimento | js/alimentos.js:160 | exactly the entries without the id remain, in order; the length is kept exactly when none had it |
| Alimentos.Cadastro.RegistrarAlimento | js/alimentos.js:22-53 | a name that trims to nothing is refused and nothing is stored; otherwise the trimmed entry with its estimate is added, and the list refresh then leaves the store as `AposLista` states |
| Alimentos.Cadastro.ExcluirAlimento | js/alimentos.js:158-165 | after confirmation exactly the entries with the id are removed and the list refresh leaves the store as `AposLista` states; otherwise nothing changes |
| Alimentos.AposLista | js/alimentos.js:89-102 | a list refresh keeps the store's entries; for `todos` or no selector it sorts the store itself most recent first, under a category filter it leaves the store as it was |
| Alimentos.Cadastro.AtualizarLista | js/alimentos.js:89-102 | returns the sorted list, and the store becomes `AposLista` of the old store |

## Left out

- Browser and library code is not modelled: the DOM, HTML rendering, notifications, Chart.js drawing (`criarGrafico`, `renderizarGraficoRelatorio`, `criarGraficoRelatorio`), jsPDF export (`baixarPDF`), `localStorage` persistence and the demo data.
- The clock is not modelled. Record ids (`Date.now()`), timestamps (`new Date(data + 'T' + hora)`), "today" and "today minus N days" are parameters given by the caller. Timestamps are opaque integers.
- Date objects are not modelled. Period filters compare ISO date strings, as `obterDadosRelatorio` does. `new Date(...)` comparisons with a local end-of-day, time zones and invalid calendar dates in `YYYY-MM-DD` form (treated as plain digits) are left out; a chart bound that is not of that form selects nothing.
- `confirm()` dialogs are a boolean parameter.
- `parseFloat` of the food quantities is not modelled: the parsed value, or `None` for an empty field, is the parameter.
- `window.dados` is split into the class `Dados`, which holds readings and goals, and the class `Cadastro`, which holds food entries.
- Indice.VariabilidadeQuadrada: stands for the standard deviation squared, because the model has no square root. The rounded `desvioPadrao` and `variabilidade` fields of the index are modelled by the variance, and every comparison uses the squared threshold.
- Indice.CalcularEstatisticasIndice: the `percentualAlvo` string is read back as the rounded number, and the number of days (`Math.round` of the date difference) is a parameter.
- Relatorios.CalcularEstatisticas: the standard deviation is likewise kept as its square.
- Graficos.GraficosSistema.AtualizarGrafico: the branch where the chart was never created (`inicializar` retried) is left out; the class models the chart after initialisation.
- Graficos.GraficosSistema.EscolherPersonalizado: assumes the custom-period panel exists; without it the source leaves the dates unchanged.
- Graficos.GraficosSistema.EscolherPeriodo: takes the number of days as an integer; a selector value that does not parse (`NaN`) is not modelled.
- Graficos.RotuloDia: `getDate()` and `getMonth()` are read from the digits of an ISO date. The local-time shift of `new Date('YYYY-MM-DD')` and out-of-range days are left out.
- Strings.ToLower: covers ASCII and Latin-1 capitals only.
- Strings.ParseInt: leading whitespace and signs are not modelled.
- Alimentos.Cadastro.AtualizarLista: the early return when the list element is missing is left out.
- Rounding.RoundTenth: rounds the exact rational value. `toFixed(1)` works on the nearest double, so a value lying exactly halfway can round the other way: 23 of 80 readings in range is 28.75 %, which the browser prints as 28.7 and the model as 28.8.
- Relatorios.ObterNomeTipoRelatorio: the title table is a plain map, so keys inherited from `Object.prototype` (such as `toString`) count as unknown types.
- The list views' HTML is not modelled.
- Graficos.ObterDadosFiltrados: only the two bounds are checked for being dates; a stored reading whose own date does not parse is compared as text instead of being dropped.

## Findings

| source | as written | input that shows it | evidently intended | confidence | as-written member | corrected member |
|---|---|---|---|---|---|---|
| js/indice.js:16-18 | the period selector's quick path filters the store by date but does not sort it, so the trend compares the first and last thirds in storage order | a store holding, in this order, readings of 200, 100 and 100 mg/dL taken at times 3, 1 and 2 of the same day | sort by timestamp, as the form path does at js/indice.js:260-262, so the trend reads as rising | not executed | Indice.TendenciaRapidaDependeDoArmazenamento | Indice.CalcularIndicePeriodoCronologico |
