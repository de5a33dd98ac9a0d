/** Food entries: the glycemic-index estimate of a food from its name and
    category, the store of entries with its add and delete operations, and
    the list view's category filter and ordering. */
module Alimentos {
  import opened Seqs
  import opened Strings
  import opened Registros

  // ---------------------------------------------------------------------
  // glycemic-index estimate

  /** Display text of an estimate. */
  function TextoIndice(ig: IndiceGlicemico): string
  {
    match ig
    case Baixo => "Baixo"
    case BaixoMedio => "Baixo-Médio"
    case Medio => "Médio"
    case MedioAlto => "Médio-Alto"
    case Alto => "Alto"
  }

  /** Keywords of foods with a low glycemic index. */
  const BaixoIG: seq<string> :=
    ["maçã", "pera", "laranja", "amêndoa", "noz", "aveia", "batata-doce", "feijão", "lentilha", "grão-de-bico"]

  /** Keywords of foods with a high glycemic index. */
  const AltoIG: seq<string> :=
    ["arroz branco", "pão branco", "batata", "mel", "açúcar", "refrigerante", "sorvete", "bolacha"]

  /** `lista.some(a => nome.includes(a))`: some keyword of the list occurs in
      the name. */
  function Menciona(nome: string, lista: seq<string>): (b: bool)
    ensures b <==> exists k :: 0 <= k < |lista| && Contains(nome, lista[k])
  {
    if lista == [] then false
    else if Contains(nome, lista[0]) then
      true
    else
      var resto := Menciona(nome, lista[1..]);
      assert forall k :: 1 <= k < |lista| ==> lista[k] == lista[1..][k - 1];
      resto
  }

  /** The category table consulted when no keyword matches; an unknown
      category is medium. */
  function IndicePorCategoria(categoria: string): IndiceGlicemico
  {
    if categoria == "cereais" then MedioAlto
    else if categoria == "frutas" then BaixoMedio
    else if categoria == "vegetais" || categoria == "proteinas" || categoria == "laticinios" then Baixo
    else if categoria == "doces" then Alto
    else Medio
  }

  /** `estimarIndiceGlicemico(nome, categoria)`: the low list first, then
      the high list, both tested on the lower-cased name, then the category. */
  function EstimarIndiceGlicemico(nome: string, categoria: string): (r: IndiceGlicemico)
    ensures Menciona(ToLower(nome), BaixoIG) ==> r == Baixo
    ensures !Menciona(ToLower(nome), BaixoIG) && Menciona(ToLower(nome), AltoIG) ==> r == Alto
    ensures !Menciona(ToLower(nome), BaixoIG) && !Menciona(ToLower(nome), AltoIG) ==>
      r == IndicePorCategoria(categoria)
  {
    var nomeLower := ToLower(nome);
    if Menciona(nomeLower, BaixoIG) then Baixo
    else if Menciona(nomeLower, AltoIG) then Alto
    else IndicePorCategoria(categoria)
  }

  /** The estimate ignores letter case. */
  lemma EstimativaIgnoraCaixa(nome: string, categoria: string)
    ensures EstimarIndiceGlicemico(nome, categoria) == EstimarIndiceGlicemico(ToLower(nome), categoria)
  {
    ToLowerIdempotent(nome);
  }

  /** Without a keyword, the categories of the table map as listed and any
      other category is medium. */
  lemma CategoriaSemPalavraChave(nome: string, categoria: string)
    requires !Menciona(ToLower(nome), BaixoIG) && !Menciona(ToLower(nome), AltoIG)
    ensures categoria == "cereais" ==> EstimarIndiceGlicemico(nome, categoria) == MedioAlto
    ensures categoria == "doces" ==> EstimarIndiceGlicemico(nome, categoria) == Alto
    ensures categoria !in {"cereais", "frutas", "vegetais", "proteinas", "laticinios", "doces"} ==>
      EstimarIndiceGlicemico(nome, categoria) == Medio
  {
  }

  /** "batata-doce" contains the high keyword "batata" but the low list is
      consulted first, so sweet potato is low whatever its category. */
  lemma BatataDoceEhBaixo(categoria: string)
    ensures Menciona("batata-doce", AltoIG)
    ensures EstimarIndiceGlicemico("Batata-doce", categoria) == Baixo
  {
    var nome := "batata-doce";
    assert OccursAt(nome, AltoIG[2], 0);
    ContainsAt(nome, AltoIG[2], 0);
    assert ToLower("Batata-doce") == nome;
    assert OccursAt(nome, BaixoIG[6], 0);
    ContainsAt(nome, BaixoIG[6], 0);
  }

  /** Badge colour of an estimate: green for low, red for high, amber
      otherwise. */
  function CorIndice(ig: IndiceGlicemico): (r: string)
    ensures r == "#2ecc71" <==> ig == Baixo
    ensures r == "#e74c3c" <==> ig == Alto
    ensures r == "#f39c12" <==> ig != Baixo && ig != Alto
  {
    if ig == Baixo then "#2ecc71" else if ig == Alto then "#e74c3c" else "#f39c12"
  }

  // ---------------------------------------------------------------------
  // display helpers

  /** Display names of the food categories. */
  const CategoriasAlimento: map<string, string> :=
    map["cereais" := "Cereais", "frutas" := "Frutas", "vegetais" := "Vegetais",
        "proteinas" := "Proteínas", "laticinios" := "Laticínios", "doces" := "Doces",
        "bebidas" := "Bebidas", "outros" := "Outros"]

  /** `formatarCategoria(categoria)`: the display name of a known category,
      the key itself otherwise. */
  function FormatarCategoria(categoria: string): (r: string)
    ensures categoria in CategoriasAlimento ==> r == CategoriasAlimento[categoria]
    ensures r != categoria <==> categoria in CategoriasAlimento
  {
    if categoria in CategoriasAlimento then CategoriasAlimento[categoria] else categoria
  }

  // ---------------------------------------------------------------------
  // list view

  function DaCategoria(categoria: string): Alimento -> bool
  {
    (a: Alimento) => a.categoria == categoria
  }

  /** Most recent first: the comparator `(a, b) => b.timestamp - a.timestamp`. */
  function MaisRecente(a: Alimento): int { -a.timestamp }

  /** The entries the list view shows: those of the selected category, or
      all of them when the selector is absent or reads "todos". */
  function Selecionados(entradas: seq<Alimento>, filtro: Option<string>): (r: seq<Alimento>)
    ensures forall a :: a in r <==> a in entradas && (filtro == None || filtro == Some("todos") || a.categoria == filtro.value)
    ensures filtro == None || filtro == Some("todos") ==> r == entradas
  {
    if filtro.Some? && filtro.value != "todos" then Filter(entradas, DaCategoria(filtro.value)) else entradas
  }

  /** The order of the list view: the selected entries, most recent first. */
  function ListaOrdenada(entradas: seq<Alimento>, filtro: Option<string>): (r: seq<Alimento>)
    ensures SortedBy(r, MaisRecente)
    ensures forall i, j :: 0 <= i < j < |r| ==> r[i].timestamp >= r[j].timestamp
    ensures multiset(r) == multiset(Selecionados(entradas, filtro))
  {
    var selecionados := Selecionados(entradas, filtro);
    SortByCorrect(selecionados, MaisRecente);
    var r := SortBy(selecionados, MaisRecente);
    assert forall i, j :: 0 <= i < j < |r| ==> MaisRecente(r[i]) <= MaisRecente(r[j]);
    r
  }

  /** The list shows exactly the entries of the selected category. */
  lemma ListaMostraCategoria(entradas: seq<Alimento>, filtro: Option<string>)
    ensures forall a :: a in ListaOrdenada(entradas, filtro) <==>
      a in entradas && (filtro == None || filtro == Some("todos") || a.categoria == filtro.value)
  {
    var r := ListaOrdenada(entradas, filtro);
    assert forall a :: a in r <==> a in multiset(Selecionados(entradas, filtro));
  }

  /** The store once the list view has been refreshed: with no category
      filter the view sorts the store itself, otherwise a copy. */
  function AposLista(entradas: seq<Alimento>, filtro: Option<string>): (r: seq<Alimento>)
    ensures multiset(r) == multiset(entradas)
    ensures filtro == None || filtro == Some("todos") ==> r == ListaOrdenada(entradas, filtro)
    ensures filtro.Some? && filtro.value != "todos" ==> r == entradas
  {
    if filtro == None || filtro == Some("todos") then ListaOrdenada(entradas, filtro) else entradas
  }

  /** `alimentos.filter(a => a.id !== id)`: every entry with that id is
      dropped, the others stay in their order. */
  function SemAlimento(entradas: seq<Alimento>, id: int): (r: seq<Alimento>)
    ensures forall a :: a in r <==> a in entradas && a.id != id
    ensures IsSubsequence(r, entradas)
    ensures |r| == |entradas| <==> forall i :: 0 <= i < |entradas| ==> entradas[i].id != id
  {
    var outro := (a: Alimento) => a.id != id;
    FilterKeepsOrder(entradas, outro);
    CountAllIff(entradas, outro);
    Filter(entradas, outro)
  }

  /** Outcome of the submit handler. */
  datatype Envio = NomeVazio | Registrado(alimento: Alimento)

  // ---------------------------------------------------------------------
  // the store

  /** `window.dados.alimentos` and the operations of the food section. The
      entry id (`Date.now()`) and timestamp (`new Date(data + 'T' + hora)`)
      come from the clock and are parameters; `quantidade` and
      `carboidratos` are already parsed, `None` for an empty field. */
  class Cadastro {
    var alimentos: seq<Alimento>

    constructor ()
      ensures alimentos == []
    {
      alimentos := [];
    }

    /** The submit handler: the name and the note are trimmed; an empty
        name is refused and nothing is stored; otherwise the entry, with its
        estimated index, is appended and the list view is refreshed with
        the category selector `filtro`. */
    method RegistrarAlimento(nome: string, quantidade: Option<real>, carboidratos: Option<real>,
                             categoria: string, data: string, hora: string, observacao: string,
                             id: int, timestamp: int, filtro: Option<string>) returns (e: Envio)
      modifies this
      ensures e == NomeVazio <==> Trim(nome) == []
      ensures e == NomeVazio ==> alimentos == old(alimentos)
      ensures e.Registrado? ==>
        e.alimento == Alimento(id, Trim(nome), quantidade, carboidratos, categoria, data, hora,
                               Trim(observacao), timestamp, EstimarIndiceGlicemico(Trim(nome), categoria)) &&
        alimentos == AposLista(old(alimentos) + [e.alimento], filtro) &&
        multiset(alimentos) == multiset(old(alimentos)) + multiset{e.alimento}
    {
      var n := Trim(nome);
      if n == [] {
        return NomeVazio;
      }
      var alimento := Alimento(id, n, quantidade, carboidratos, categoria, data, hora,
                               Trim(observacao), timestamp, EstimarIndiceGlicemico(n, categoria));
      alimentos := alimentos + [alimento];
      var _ := AtualizarLista(filtro);
      e := Registrado(alimento);
    }

    /** `excluirAlimento(id)`: after the confirmation dialog, drop every
        entry with that id and refresh the list view; a refused
        confirmation changes nothing. */
    method ExcluirAlimento(id: int, confirmado: bool, filtro: Option<string>)
      modifies this
      ensures confirmado ==> alimentos == AposLista(SemAlimento(old(alimentos), id), filtro)
      ensures confirmado ==> forall a :: a in alimentos <==> a in old(alimentos) && a.id != id
      ensures !confirmado ==> alimentos == old(alimentos)
    {
      if confirmado {
        var restantes := SemAlimento(alimentos, id);
        alimentos := restantes;
        var _ := AtualizarLista(filtro);
        assert forall a :: a in alimentos <==> a in multiset(restantes);
      }
    }

    /** `atualizarListaAlimentos`: returns the entries to show. With no
        category filter the list is the store itself, so the sort reorders
        the store in place; a category filter sorts a copy. */
    method AtualizarLista(filtro: Option<string>) returns (lista: seq<Alimento>)
      modifies this
      ensures lista == ListaOrdenada(old(alimentos), filtro)
      ensures alimentos == AposLista(old(alimentos), filtro)
      ensures filtro == None || filtro == Some("todos") ==> alimentos == lista
      ensures multiset(alimentos) == multiset(old(alimentos))
    {
      lista := ListaOrdenada(alimentos, filtro);
      if filtro == None || filtro == Some("todos") {
        alimentos := lista;
      }
    }
  }
}
