/** The "expenses by category" pie chart of the dashboard
    (`dadosGraficoPizza` in EnhancedDashboard.tsx): confirmed expenses are
    grouped by known category in an accumulator updated in place, turned
    into percentages of the total, sorted by value (stable, descending) and
    cut to six slices. */
module GraficoPizza {
  import opened Types
  import Dashboard

  /** One accumulator entry, keyed by its category id. */
  datatype Grupo = Grupo(id: string, nome: string, valor: int, cor: string)

  /** One slice of the chart. */
  datatype Fatia = Fatia(nome: string, valor: int, cor: string, porcentagem: real)

  const MaxFatias: nat := 6

  // ---------------------------------------------------------------------
  // Selecting expenses and looking up categories
  // ---------------------------------------------------------------------

  predicate EhDespesaConfirmada(l: Lancamento) {
    l.tipo == Despesa && l.status == Confirmado
  }

  /** The confirmed expenses, each as often and in the order it comes. */
  function DespesasConfirmadas(ls: seq<Lancamento>): (ds: seq<Lancamento>)
    ensures |ds| <= |ls|
    ensures forall l :: l in ds <==> l in ls && EhDespesaConfirmada(l)
    ensures (forall i :: 0 <= i < |ls| ==> EhDespesaConfirmada(ls[i])) ==> ds == ls
  {
    if ls == [] then []
    else
      assert ls == ls[..|ls| - 1] + [ls[|ls| - 1]];
      DespesasConfirmadas(ls[..|ls| - 1])
      + (if EhDespesaConfirmada(ls[|ls| - 1]) then [ls[|ls| - 1]] else [])
  }

  /** The filter keeps relative order: it distributes over concatenation. */
  lemma {:induction false} DespesasConfirmadasConcat(a: seq<Lancamento>, b: seq<Lancamento>)
    ensures DespesasConfirmadas(a + b) == DespesasConfirmadas(a) + DespesasConfirmadas(b)
  {
    if b == [] {
      assert a + b == a;
    } else {
      var pre, l := b[..|b| - 1], b[|b| - 1];
      var ultima := if EhDespesaConfirmada(l) then [l] else [];
      assert (a + b)[..|a + b| - 1] == a + pre;
      assert (a + b)[|a + b| - 1] == l;
      assert DespesasConfirmadas(a + b) == DespesasConfirmadas(a + pre) + ultima;
      assert DespesasConfirmadas(b) == DespesasConfirmadas(pre) + ultima;
      DespesasConfirmadasConcat(a, pre);
      Associativa(DespesasConfirmadas(a), DespesasConfirmadas(pre), ultima);
    }
  }

  /** The filter keeps every confirmed expense as many times as it occurs,
      and nothing else. */
  lemma {:induction false} DespesasConfirmadasMultiplicidade(ls: seq<Lancamento>, l: Lancamento)
    ensures multiset(DespesasConfirmadas(ls))[l] == if EhDespesaConfirmada(l) then multiset(ls)[l] else 0
  {
    if ls != [] {
      var pre, u := ls[..|ls| - 1], ls[|ls| - 1];
      assert ls == pre + [u];
      DespesasConfirmadasMultiplicidade(pre, l);
    }
  }

  /** The chart's total is the dashboard's confirmed-expense figure. */
  lemma {:induction false} TotalDoGraficoSaoAsDespesas(ls: seq<Lancamento>)
    ensures Dashboard.SomaValores(DespesasConfirmadas(ls)) == Dashboard.Despesas(ls)
  {
    if ls != [] {
      var pre, l := ls[..|ls| - 1], ls[|ls| - 1];
      TotalDoGraficoSaoAsDespesas(pre);
      var d := DespesasConfirmadas(pre);
      if EhDespesaConfirmada(l) {
        assert (d + [l])[..|d + [l]| - 1] == d;
      } else {
        assert d + [] == d;
      }
    }
  }

  /** `categorias.find(c => c.id === id)`: the first category with that id. */
  function FindCategoria(cats: seq<Categoria>, id: string): (r: Option<Categoria>)
    ensures r.None? <==> forall c :: c in cats ==> c.id != id
    ensures r.Some? ==> r.value in cats && r.value.id == id
  {
    if cats == [] then None
    else if cats[0].id == id then Some(cats[0])
    else FindCategoria(cats[1..], id)
  }

  /** The category found is the first one with the id: every category
      before it has another id. */
  lemma {:induction false} FindCategoriaPrimeira(cats: seq<Categoria>, id: string)
    ensures FindCategoria(cats, id).Some? ==>
              exists k :: 0 <= k < |cats| && cats[k] == FindCategoria(cats, id).value
                          && forall j :: 0 <= j < k ==> cats[j].id != id
  {
    if cats != [] && cats[0].id != id && FindCategoria(cats, id).Some? {
      FindCategoriaPrimeira(cats[1..], id);
      var k :| 0 <= k < |cats[1..]| && cats[1..][k] == FindCategoria(cats[1..], id).value
               && forall j :: 0 <= j < k ==> cats[1..][j].id != id;
      assert cats[k + 1] == cats[1..][k];
      assert forall j :: 1 <= j < k + 1 ==> cats[j] == cats[1..][j - 1];
    }
  }

  predicate Conhecida(cats: seq<Categoria>, id: string) {
    FindCategoria(cats, id).Some?
  }

  // ---------------------------------------------------------------------
  // Grouping: the specification of the accumulator
  // ---------------------------------------------------------------------

  /** The position of the group with the given id, or |gs| when there is none. */
  function IndiceDoGrupo(gs: seq<Grupo>, id: string): (i: nat)
    ensures i <= |gs|
    ensures i < |gs| ==> gs[i].id == id
    ensures forall k :: 0 <= k < i ==> gs[k].id != id
  {
    if gs == [] then 0
    else if gs[0].id == id then 0
    else 1 + IndiceDoGrupo(gs[1..], id)
  }

  /** Adds one expense to the groups: dropped when its category is unknown,
      added to its category's group when there is one, otherwise a new group
      is appended. */
  function Acrescentar(gs: seq<Grupo>, l: Lancamento, cats: seq<Categoria>): seq<Grupo> {
    match FindCategoria(cats, l.categoriaId)
    case None => gs
    case Some(c) =>
      var i := IndiceDoGrupo(gs, c.id);
      if i < |gs| then gs[i := gs[i].(valor := gs[i].valor + l.valor)]
      else gs + [Grupo(c.id, c.nome, l.valor, c.cor)]
  }

  /** The groups in first-encounter order. */
  function Agrupar(ds: seq<Lancamento>, cats: seq<Categoria>): seq<Grupo> {
    if ds == [] then [] else Acrescentar(Agrupar(ds[..|ds| - 1], cats), ds[|ds| - 1], cats)
  }

  /** Sum of `valor` over the expenses of category `id`. */
  function SomaCategoria(ds: seq<Lancamento>, id: string): int {
    if ds == [] then 0
    else SomaCategoria(ds[..|ds| - 1], id)
         + (if ds[|ds| - 1].categoriaId == id then ds[|ds| - 1].valor else 0)
  }

  /** Sum of `valor` over the expenses whose category is known. */
  function SomaConhecidas(ds: seq<Lancamento>, cats: seq<Categoria>): int {
    if ds == [] then 0
    else SomaConhecidas(ds[..|ds| - 1], cats)
         + (if Conhecida(cats, ds[|ds| - 1].categoriaId) then ds[|ds| - 1].valor else 0)
  }

  function SomaGrupos(gs: seq<Grupo>): int {
    if gs == [] then 0 else SomaGrupos(gs[..|gs| - 1]) + gs[|gs| - 1].valor
  }

  function Ids(gs: seq<Grupo>): set<string> {
    set g | g in gs :: g.id
  }

  /** The ids of the known categories that some expense uses. */
  function IdsConhecidos(ds: seq<Lancamento>, cats: seq<Categoria>): set<string> {
    set l | l in ds && Conhecida(cats, l.categoriaId) :: l.categoriaId
  }

  predicate IdsDistintos(gs: seq<Grupo>) {
    forall i, j :: 0 <= i < j < |gs| ==> gs[i].id != gs[j].id
  }

  lemma {:induction false} SomaCategoriaSemOcorrencias(ds: seq<Lancamento>, id: string)
    requires forall l :: l in ds ==> l.categoriaId != id
    ensures SomaCategoria(ds, id) == 0
  {
    if ds != [] {
      SomaCategoriaSemOcorrencias(ds[..|ds| - 1], id);
    }
  }

  lemma {:induction false} SomaGruposAtualiza(gs: seq<Grupo>, i: nat, v: int)
    requires i < |gs|
    ensures SomaGrupos(gs[i := gs[i].(valor := gs[i].valor + v)]) == SomaGrupos(gs) + v
  {
    var gs' := gs[i := gs[i].(valor := gs[i].valor + v)];
    if i < |gs| - 1 {
      assert gs'[..|gs'| - 1] == gs[..|gs| - 1][i := gs[i].(valor := gs[i].valor + v)];
      SomaGruposAtualiza(gs[..|gs| - 1], i, v);
    } else {
      assert gs'[..|gs'| - 1] == gs[..|gs| - 1];
    }
  }

  predicate CategoriasCorretas(gs: seq<Grupo>, cats: seq<Categoria>) {
    forall i :: 0 <= i < |gs| ==>
      FindCategoria(cats, gs[i].id) == Some(Categoria(gs[i].id, gs[i].nome, gs[i].cor))
  }

  predicate ValoresCorretos(gs: seq<Grupo>, ds: seq<Lancamento>) {
    forall i :: 0 <= i < |gs| ==> gs[i].valor == SomaCategoria(ds, gs[i].id)
  }

  lemma IdsConhecidosAcrescimo(ds: seq<Lancamento>, l: Lancamento, cats: seq<Categoria>)
    ensures IdsConhecidos(ds + [l], cats)
            == IdsConhecidos(ds, cats) + (if Conhecida(cats, l.categoriaId) then {l.categoriaId} else {})
  {
    forall m | m in ds + [l] ensures m in ds || m == l { }
  }

  lemma SomaCategoriaAcrescimo(ds: seq<Lancamento>, l: Lancamento, id: string)
    ensures SomaCategoria(ds + [l], id)
            == SomaCategoria(ds, id) + (if l.categoriaId == id then l.valor else 0)
  {
    assert (ds + [l])[..|ds + [l]| - 1] == ds;
  }

  /** A group id that the grouping produced is a known category some
      expense uses. */
  lemma IdDeGrupoConhecido(gs: seq<Grupo>, ds: seq<Lancamento>, cats: seq<Categoria>, i: int)
    requires Ids(gs) == IdsConhecidos(ds, cats) && 0 <= i < |gs|
    ensures Conhecida(cats, gs[i].id)
    ensures exists m :: m in ds && m.categoriaId == gs[i].id
  {
    assert gs[i].id in Ids(gs);
  }

  /** One step keeps the ids distinct and adds the expense's id exactly
      when its category is known. */
  lemma AcrescentarIds(gs: seq<Grupo>, l: Lancamento, cats: seq<Categoria>)
    requires IdsDistintos(gs)
    ensures IdsDistintos(Acrescentar(gs, l, cats))
    ensures Ids(Acrescentar(gs, l, cats))
            == Ids(gs) + (if Conhecida(cats, l.categoriaId) then {l.categoriaId} else {})
  {
    var r := Acrescentar(gs, l, cats);
    match FindCategoria(cats, l.categoriaId)
    case None =>
    case Some(c) =>
      var k := IndiceDoGrupo(gs, c.id);
      if k < |gs| {
        assert |r| == |gs| && forall j :: 0 <= j < |gs| ==> r[j].id == gs[j].id;
        assert c.id in Ids(gs) by { assert gs[k] in gs; }
        forall x | x in Ids(gs) ensures x in Ids(r) {
          var j :| 0 <= j < |gs| && gs[j].id == x;
          assert r[j] in r;
        }
      } else {
        assert r == gs + [Grupo(c.id, c.nome, l.valor, c.cor)];
      }
  }

  lemma AcrescentarCategorias(gs: seq<Grupo>, l: Lancamento, cats: seq<Categoria>)
    requires CategoriasCorretas(gs, cats)
    ensures CategoriasCorretas(Acrescentar(gs, l, cats), cats)
  {
  }

  lemma AcrescentarValores(gs: seq<Grupo>, ds: seq<Lancamento>, l: Lancamento, cats: seq<Categoria>)
    requires IdsDistintos(gs) && Ids(gs) == IdsConhecidos(ds, cats) && ValoresCorretos(gs, ds)
    ensures ValoresCorretos(Acrescentar(gs, l, cats), ds + [l])
  {
    var r := Acrescentar(gs, l, cats);
    forall id ensures SomaCategoria(ds + [l], id)
                      == SomaCategoria(ds, id) + (if l.categoriaId == id then l.valor else 0) {
      SomaCategoriaAcrescimo(ds, l, id);
    }
    match FindCategoria(cats, l.categoriaId)
    case None =>
      forall i | 0 <= i < |gs| ensures gs[i].id != l.categoriaId {
        IdDeGrupoConhecido(gs, ds, cats, i);
      }
    case Some(c) =>
      var k := IndiceDoGrupo(gs, c.id);
      if k == |gs| {
        assert forall m :: m in ds ==> m.categoriaId != c.id by {
          assert c.id !in Ids(gs);
        }
        SomaCategoriaSemOcorrencias(ds, c.id);
      }
  }

  lemma AcrescentarSoma(gs: seq<Grupo>, l: Lancamento, cats: seq<Categoria>)
    ensures SomaGrupos(Acrescentar(gs, l, cats))
            == SomaGrupos(gs) + (if Conhecida(cats, l.categoriaId) then l.valor else 0)
  {
    match FindCategoria(cats, l.categoriaId)
    case None =>
    case Some(c) =>
      var k := IndiceDoGrupo(gs, c.id);
      if k < |gs| {
        SomaGruposAtualiza(gs, k, l.valor);
      } else {
        var r := gs + [Grupo(c.id, c.nome, l.valor, c.cor)];
        assert r[..|r| - 1] == gs;
      }
  }

  /** One group per distinct known category id that some expense uses:
      expenses of unknown categories are dropped. */
  lemma {:induction false} AgruparIds(ds: seq<Lancamento>, cats: seq<Categoria>)
    ensures IdsDistintos(Agrupar(ds, cats))
    ensures Ids(Agrupar(ds, cats)) == IdsConhecidos(ds, cats)
  {
    if ds != [] {
      var pre, l := ds[..|ds| - 1], ds[|ds| - 1];
      assert ds == pre + [l];
      AgruparIds(pre, cats);
      AcrescentarIds(Agrupar(pre, cats), l, cats);
      IdsConhecidosAcrescimo(pre, l, cats);
    }
  }

  /** Each group carries the name and colour of its category (the first
      category with that id). */
  lemma {:induction false} AgruparCategorias(ds: seq<Lancamento>, cats: seq<Categoria>)
    ensures CategoriasCorretas(Agrupar(ds, cats), cats)
  {
    if ds != [] {
      AgruparCategorias(ds[..|ds| - 1], cats);
      AcrescentarCategorias(Agrupar(ds[..|ds| - 1], cats), ds[|ds| - 1], cats);
    }
  }

  /** Each group's value is the sum of its category's expenses. */
  lemma {:induction false} AgruparValores(ds: seq<Lancamento>, cats: seq<Categoria>)
    ensures ValoresCorretos(Agrupar(ds, cats), ds)
  {
    if ds != [] {
      var pre, l := ds[..|ds| - 1], ds[|ds| - 1];
      assert ds == pre + [l];
      AgruparValores(pre, cats);
      AgruparIds(pre, cats);
      AcrescentarValores(Agrupar(pre, cats), pre, l, cats);
    }
  }

  /** Together the groups add up to the expenses whose category is known. */
  lemma {:induction false} AgruparSoma(ds: seq<Lancamento>, cats: seq<Categoria>)
    ensures SomaGrupos(Agrupar(ds, cats)) == SomaConhecidas(ds, cats)
  {
    if ds != [] {
      AgruparSoma(ds[..|ds| - 1], cats);
      AcrescentarSoma(Agrupar(ds[..|ds| - 1], cats), ds[|ds| - 1], cats);
    }
  }

  /** The position of the first expense of category `id`, or |ds| when
      there is none. */
  function PrimeiraOcorrencia(ds: seq<Lancamento>, id: string): (p: nat)
    ensures p <= |ds|
    ensures p < |ds| ==> ds[p].categoriaId == id
    ensures forall k :: 0 <= k < p ==> ds[k].categoriaId != id
  {
    if ds == [] then 0
    else if ds[0].categoriaId == id then 0
    else 1 + PrimeiraOcorrencia(ds[1..], id)
  }

  /** One more expense moves no first occurrence already seen; it is the
      first occurrence of its own category when that was not yet seen. */
  lemma PrimeiraOcorrenciaAcrescimo(pre: seq<Lancamento>, l: Lancamento, id: string)
    ensures PrimeiraOcorrencia(pre + [l], id)
            == if PrimeiraOcorrencia(pre, id) < |pre| then PrimeiraOcorrencia(pre, id)
               else if l.categoriaId == id then |pre| else |pre| + 1
  {
    var ds := pre + [l];
    assert forall k :: 0 <= k < |pre| ==> ds[k] == pre[k];
    assert ds[|pre|] == l;
  }

  /** One step keeps every group's id in place and appends at most one
      group, whose id is that of a known category no earlier group has. */
  lemma AcrescentarMesmosIds(gs: seq<Grupo>, l: Lancamento, cats: seq<Categoria>)
    ensures var r := Acrescentar(gs, l, cats);
            && |gs| <= |r| <= |gs| + 1
            && (forall i :: 0 <= i < |gs| ==> r[i].id == gs[i].id)
            && (|r| == |gs| + 1 ==>
                  r[|gs|].id == l.categoriaId && Conhecida(cats, l.categoriaId) && l.categoriaId !in Ids(gs))
  {
    match FindCategoria(cats, l.categoriaId)
    case None =>
    case Some(c) =>
      if IndiceDoGrupo(gs, c.id) == |gs| {
        forall g | g in gs ensures g.id != c.id {
          var j :| 0 <= j < |gs| && gs[j] == g;
        }
      }
  }

  /** The groups come in first-encounter order: of two groups, the earlier
      one's category has its first expense earlier in `ds`. */
  lemma {:induction false} AgruparOrdem(ds: seq<Lancamento>, cats: seq<Categoria>)
    ensures forall i :: 0 <= i < |Agrupar(ds, cats)| ==>
              PrimeiraOcorrencia(ds, Agrupar(ds, cats)[i].id) < |ds|
    ensures forall i, j :: 0 <= i < j < |Agrupar(ds, cats)| ==>
              PrimeiraOcorrencia(ds, Agrupar(ds, cats)[i].id) < PrimeiraOcorrencia(ds, Agrupar(ds, cats)[j].id)
  {
    if ds != [] {
      var pre, l := ds[..|ds| - 1], ds[|ds| - 1];
      assert ds == pre + [l];
      var gs0, gs := Agrupar(pre, cats), Agrupar(ds, cats);
      assert gs == Acrescentar(gs0, l, cats);
      AgruparOrdem(pre, cats);
      AcrescentarMesmosIds(gs0, l, cats);
      forall i | 0 <= i < |gs0|
        ensures PrimeiraOcorrencia(ds, gs[i].id) == PrimeiraOcorrencia(pre, gs0[i].id)
      {
        assert gs[i].id == gs0[i].id;
        assert PrimeiraOcorrencia(pre, gs0[i].id) < |pre|;
        PrimeiraOcorrenciaAcrescimo(pre, l, gs0[i].id);
      }
      if |gs| > |gs0| {
        NovaCategoriaAusente(pre, l, cats);
        PrimeiraOcorrenciaAcrescimo(pre, l, l.categoriaId);
      }
    }
  }

  /** A known category that no group has yet is used by no earlier expense. */
  lemma NovaCategoriaAusente(pre: seq<Lancamento>, l: Lancamento, cats: seq<Categoria>)
    requires Conhecida(cats, l.categoriaId) && l.categoriaId !in Ids(Agrupar(pre, cats))
    ensures PrimeiraOcorrencia(pre, l.categoriaId) == |pre|
  {
    AgruparIds(pre, cats);
  }

  // ---------------------------------------------------------------------
  // Percentages
  // ---------------------------------------------------------------------

  function ParaFatia(g: Grupo, total: int): (f: Fatia)
    requires total != 0
    ensures f.nome == g.nome && f.valor == g.valor && f.cor == g.cor
    ensures f.porcentagem * (total as real) == (g.valor as real) * 100.0
  {
    Fatia(g.nome, g.valor, g.cor, (g.valor as real / total as real) * 100.0)
  }

  /** The `.map` that attaches each group's share of the total. */
  function ComPorcentagem(gs: seq<Grupo>, total: int): (fs: seq<Fatia>)
    requires total != 0
    ensures |fs| == |gs|
    ensures forall i :: 0 <= i < |gs| ==>
              fs[i].nome == gs[i].nome && fs[i].valor == gs[i].valor && fs[i].cor == gs[i].cor
    ensures forall i :: 0 <= i < |gs| ==>
              fs[i].porcentagem * (total as real) == (gs[i].valor as real) * 100.0
  {
    seq(|gs|, i requires 0 <= i < |gs| => ParaFatia(gs[i], total))
  }

  function SomaPorcentagens(fs: seq<Fatia>): real {
    if fs == [] then 0.0 else SomaPorcentagens(fs[..|fs| - 1]) + fs[|fs| - 1].porcentagem
  }

  lemma ComPorcentagemPrefixo(gs: seq<Grupo>, total: int)
    requires total != 0 && gs != []
    ensures ComPorcentagem(gs, total)[..|gs| - 1] == ComPorcentagem(gs[..|gs| - 1], total)
  {
  }

  /** Two shares of one total add up to the share of the two amounts. */
  lemma SomaDeProdutos(soma: real, a: real, p: real, t: real, x: int, y: int)
    requires soma == a + p
    requires a * t == (x as real) * 100.0 && p * t == (y as real) * 100.0
    ensures soma * t == ((x + y) as real) * 100.0
  {
    assert soma * t == a * t + p * t;
  }

  /** The shares add up to the groups' sum as a share of the total. */
  lemma SomaPorcentagensProporcional(gs: seq<Grupo>, total: int)
    requires total != 0
    ensures SomaPorcentagens(ComPorcentagem(gs, total)) * (total as real)
            == (SomaGrupos(gs) as real) * 100.0
  {
    var fs := ComPorcentagem(gs, total);
    PorcentagensDasFatias(gs, total);
    SomaPorcentagensDeFatias(fs, total);
    ValoresDasFatias(gs, total);
  }

  /** Every slice carries its group's share of the total. */
  lemma PorcentagensDasFatias(gs: seq<Grupo>, total: int)
    requires total != 0
    ensures PorcentagensDe(ComPorcentagem(gs, total), total)
  {
  }

  function SomaValoresFatias(fs: seq<Fatia>): int {
    if fs == [] then 0 else SomaValoresFatias(fs[..|fs| - 1]) + fs[|fs| - 1].valor
  }

  /** Slices that each carry their share of `total` have shares adding up
      to their values' share of it. */
  lemma {:induction false} SomaPorcentagensDeFatias(fs: seq<Fatia>, total: int)
    requires total != 0 && PorcentagensDe(fs, total)
    ensures SomaPorcentagens(fs) * (total as real) == (SomaValoresFatias(fs) as real) * 100.0
  {
    if fs != [] {
      var pre, ultima := fs[..|fs| - 1], fs[|fs| - 1];
      assert PorcentagensDe(pre, total) by {
        forall i | 0 <= i < |pre|
          ensures pre[i].porcentagem * (total as real) == (pre[i].valor as real) * 100.0
        {
          assert pre[i] == fs[i];
        }
      }
      SomaPorcentagensDeFatias(pre, total);
      SomaDeProdutos(SomaPorcentagens(fs), SomaPorcentagens(pre), ultima.porcentagem, total as real,
                     SomaValoresFatias(pre), ultima.valor);
    }
  }

  /** The slices carry the groups' values. */
  lemma {:induction false} ValoresDasFatias(gs: seq<Grupo>, total: int)
    requires total != 0
    ensures SomaValoresFatias(ComPorcentagem(gs, total)) == SomaGrupos(gs)
  {
    if gs != [] {
      var fs := ComPorcentagem(gs, total);
      ComPorcentagemPrefixo(gs, total);
      ValoresDasFatias(gs[..|gs| - 1], total);
      assert fs[|gs| - 1].valor == gs[|gs| - 1].valor;
    }
  }

  // ---------------------------------------------------------------------
  // Stable sort by descending value
  // ---------------------------------------------------------------------

  predicate OrdenadoDesc(s: seq<Fatia>) {
    forall i, j :: 0 <= i < j < |s| ==> s[i].valor >= s[j].valor
  }

  /** The slices of `s` with value `v`, in their order in `s`. */
  function ComValor(s: seq<Fatia>, v: int): seq<Fatia> {
    if s == [] then []
    else (if s[0].valor == v then [s[0]] else []) + ComValor(s[1..], v)
  }

  /** Inserts `x` after every slice whose value is at least its own. */
  function InserirDesc(x: Fatia, s: seq<Fatia>): (r: seq<Fatia>)
    ensures multiset(r) == multiset(s) + multiset{x}
  {
    if s == [] then [x]
    else if s[0].valor >= x.valor then
      assert s == [s[0]] + s[1..];
      [s[0]] + InserirDesc(x, s[1..])
    else [x] + s
  }

  /** `.sort((a, b) => b.valor - a.valor)`: insertion sort over the slices
      in their original order. */
  function OrdenarDesc(s: seq<Fatia>): (r: seq<Fatia>)
    ensures |r| == |s|
    ensures multiset(r) == multiset(s)
  {
    if s == [] then []
    else
      assert s == s[..|s| - 1] + [s[|s| - 1]];
      var pre := OrdenarDesc(s[..|s| - 1]);
      var r := InserirDesc(s[|s| - 1], pre);
      assert |r| == |multiset(r)| == |multiset(pre)| + 1 == |pre| + 1;
      r
  }

  lemma {:induction false} InserirMantemOrdem(x: Fatia, s: seq<Fatia>)
    requires OrdenadoDesc(s)
    ensures OrdenadoDesc(InserirDesc(x, s))
  {
    if s != [] && s[0].valor >= x.valor {
      InserirMantemOrdem(x, s[1..]);
      var r := InserirDesc(x, s[1..]);
      forall y | y in r ensures s[0].valor >= y.valor {
        assert y in multiset(r);
      }
    }
  }

  lemma {:induction false} ComValorConcat(a: seq<Fatia>, b: seq<Fatia>, v: int)
    ensures ComValor(a + b, v) == ComValor(a, v) + ComValor(b, v)
  {
    if a == [] {
      assert a + b == b;
    } else {
      var h := if a[0].valor == v then [a[0]] else [];
      assert (a + b)[0] == a[0] && (a + b)[1..] == a[1..] + b;
      assert ComValor(a + b, v) == h + ComValor(a[1..] + b, v);
      assert ComValor(a, v) == h + ComValor(a[1..], v);
      ComValorConcat(a[1..], b, v);
      Associativa(h, ComValor(a[1..], v), ComValor(b, v));
    }
  }

  lemma {:induction false} ComValorVazio(s: seq<Fatia>, v: int)
    requires forall i :: 0 <= i < |s| ==> s[i].valor < v
    ensures ComValor(s, v) == []
  {
    if s != [] {
      ComValorVazio(s[1..], v);
    }
  }

  /** Putting one slice in front puts it in front of the slices of its value. */
  lemma ComValorCons(y: Fatia, t: seq<Fatia>, v: int)
    ensures ComValor([y] + t, v) == (if y.valor == v then [y] else []) + ComValor(t, v)
  {
    assert ([y] + t)[0] == y && ([y] + t)[1..] == t;
  }

  lemma OrdenadoCauda(s: seq<Fatia>)
    requires OrdenadoDesc(s) && s != []
    ensures OrdenadoDesc(s[1..])
    ensures forall i :: 0 <= i < |s| ==> s[i].valor <= s[0].valor
  {
  }

  /** Inserting `x` into a sorted sequence puts it after every slice of
      equal value. */
  lemma {:induction false} InserirEstavel(x: Fatia, s: seq<Fatia>, v: int)
    requires OrdenadoDesc(s)
    ensures ComValor(InserirDesc(x, s), v) == ComValor(s, v) + (if x.valor == v then [x] else [])
  {
    if s == [] {
      ComValorCons(x, [], v);
    } else if s[0].valor >= x.valor {
      assert OrdenadoDesc(s[1..]);
      InserirEstavel(x, s[1..], v);
      InserirDepoisDaCabeca(x, s, v);
    } else {
      InserirNaFrente(x, s, v);
    }
  }

  /** When `x` goes after the head, the head stays in front of the slices
      of its value. */
  lemma InserirDepoisDaCabeca(x: Fatia, s: seq<Fatia>, v: int)
    requires s != [] && s[0].valor >= x.valor
    requires ComValor(InserirDesc(x, s[1..]), v) == ComValor(s[1..], v) + (if x.valor == v then [x] else [])
    ensures ComValor(InserirDesc(x, s), v) == ComValor(s, v) + (if x.valor == v then [x] else [])
  {
    var t, e := s[1..], if x.valor == v then [x] else [];
    var h := if s[0].valor == v then [s[0]] else [];
    assert ComValor(s, v) == h + ComValor(t, v);
    assert InserirDesc(x, s) == [s[0]] + InserirDesc(x, t);
    ComValorCons(s[0], InserirDesc(x, t), v);
    Associativa(h, ComValor(t, v), e);
  }

  /** When `x` goes in front, every slice of its value in `s` is smaller,
      so there are none. */
  lemma InserirNaFrente(x: Fatia, s: seq<Fatia>, v: int)
    requires OrdenadoDesc(s) && s != [] && s[0].valor < x.valor
    ensures ComValor(InserirDesc(x, s), v) == ComValor(s, v) + (if x.valor == v then [x] else [])
  {
    ComValorCons(x, s, v);
    if x.valor == v {
      OrdenadoCauda(s);
      ComValorVazio(s, v);
    }
  }

  lemma ComValorUltimo(s: seq<Fatia>, v: int)
    requires s != []
    ensures ComValor(s, v)
            == ComValor(s[..|s| - 1], v) + (if s[|s| - 1].valor == v then [s[|s| - 1]] else [])
  {
    assert s == s[..|s| - 1] + [s[|s| - 1]];
    ComValorConcat(s[..|s| - 1], [s[|s| - 1]], v);
    ComValorCons(s[|s| - 1], [], v);
  }

  /** The sort yields non-increasing values. */
  lemma {:induction false} OrdenarDescOrdenado(s: seq<Fatia>)
    ensures OrdenadoDesc(OrdenarDesc(s))
  {
    if s != [] {
      OrdenarDescOrdenado(s[..|s| - 1]);
      InserirMantemOrdem(s[|s| - 1], OrdenarDesc(s[..|s| - 1]));
    }
  }

  /** The sort is stable: the slices of any one value keep their relative
      order. */
  lemma {:induction false} OrdenarDescEstavel(s: seq<Fatia>, v: int)
    ensures ComValor(OrdenarDesc(s), v) == ComValor(s, v)
  {
    if s != [] {
      var pre, x := s[..|s| - 1], s[|s| - 1];
      OrdenarDescEstavel(pre, v);
      OrdenarDescOrdenado(pre);
      InserirEstavel(x, OrdenarDesc(pre), v);
      ComValorUltimo(s, v);
    }
  }

  /** Sorted, a permutation, and stable: the three together say that the
      result is the unique stable descending sort of the input. */
  lemma OrdenarDescCorreto(s: seq<Fatia>)
    ensures OrdenadoDesc(OrdenarDesc(s))
    ensures multiset(OrdenarDesc(s)) == multiset(s)
    ensures forall v :: ComValor(OrdenarDesc(s), v) == ComValor(s, v)
  {
    OrdenarDescOrdenado(s);
    forall v ensures ComValor(OrdenarDesc(s), v) == ComValor(s, v) {
      OrdenarDescEstavel(s, v);
    }
  }

  // ---------------------------------------------------------------------
  // The chart
  // ---------------------------------------------------------------------

  function Min(a: int, b: int): int { if a < b then a else b }

  /** One slice per known category with its share of the confirmed
      expenses, in first-seen order; none when those expenses sum to zero. */
  function FatiasPorCategoria(lancamentos: seq<Lancamento>, cats: seq<Categoria>): seq<Fatia> {
    var ds := DespesasConfirmadas(lancamentos);
    var total := Dashboard.SomaValores(ds);
    if total == 0 then [] else ComPorcentagem(Agrupar(ds, cats), total)
  }

  /** The specification of the chart data: the slices sorted by value,
      largest first, and cut to the first six. */
  function GraficoPizza(lancamentos: seq<Lancamento>, cats: seq<Categoria>): seq<Fatia> {
    var ordenadas := OrdenarDesc(FatiasPorCategoria(lancamentos, cats));
    ordenadas[..Min(MaxFatias, |ordenadas|)]
  }

  /** Keeping the first `n` slices of a sorted sequence keeps the largest:
      nothing dropped exceeds anything kept. */
  lemma PrefixoDeOrdenado(s: seq<Fatia>, n: nat)
    requires OrdenadoDesc(s) && n <= |s|
    ensures OrdenadoDesc(s[..n])
    ensures multiset(s[..n]) <= multiset(s)
    ensures forall x, i :: x in multiset(s) - multiset(s[..n]) && 0 <= i < n ==> s[i].valor >= x.valor
  {
    assert s == s[..n] + s[n..];
    assert multiset(s) == multiset(s[..n]) + multiset(s[n..]);
    forall x, i | x in multiset(s) - multiset(s[..n]) && 0 <= i < n ensures s[i].valor >= x.valor {
      assert x in s[n..];
    }
  }

  /** Keeping a prefix keeps a prefix of the slices of each value. */
  lemma ComValorPrefixo(s: seq<Fatia>, n: nat, v: int)
    requires n <= |s|
    ensures ComValor(s[..n], v) <= ComValor(s, v)
  {
    assert s == s[..n] + s[n..];
    ComValorConcat(s[..n], s[n..], v);
  }

  /** Among the slices shown, those of equal value keep the order they had
      before sorting, which is first-encounter order. */
  lemma GraficoPizzaEstavel(lancamentos: seq<Lancamento>, cats: seq<Categoria>, v: int)
    ensures ComValor(GraficoPizza(lancamentos, cats), v) <= ComValor(FatiasPorCategoria(lancamentos, cats), v)
  {
    var fs := FatiasPorCategoria(lancamentos, cats);
    var s := OrdenarDesc(fs);
    OrdenarDescEstavel(fs, v);
    ComValorPrefixo(s, Min(MaxFatias, |s|), v);
  }

  /** Every slice carries its value as a percentage of `total`. */
  predicate PorcentagensDe(r: seq<Fatia>, total: int) {
    forall i :: 0 <= i < |r| ==> r[i].porcentagem * (total as real) == (r[i].valor as real) * 100.0
  }

  lemma PorcentagemDasFatias(gs: seq<Grupo>, total: int, r: seq<Fatia>)
    requires total != 0 && multiset(r) <= multiset(ComPorcentagem(gs, total))
    ensures PorcentagensDe(r, total)
  {
    forall i | 0 <= i < |r|
      ensures r[i].porcentagem * (total as real) == (r[i].valor as real) * 100.0
    {
      assert r[i] in multiset(r);
    }
  }

  /** The size, order, selection and percentages of the chart. */
  lemma GraficoPizzaMaiores(lancamentos: seq<Lancamento>, cats: seq<Categoria>)
    ensures Dashboard.Despesas(lancamentos) == 0 ==> GraficoPizza(lancamentos, cats) == []
    ensures |GraficoPizza(lancamentos, cats)| == Min(MaxFatias, |FatiasPorCategoria(lancamentos, cats)|)
    ensures OrdenadoDesc(GraficoPizza(lancamentos, cats))
    ensures multiset(GraficoPizza(lancamentos, cats)) <= multiset(FatiasPorCategoria(lancamentos, cats))
    ensures forall x, i ::
              x in multiset(FatiasPorCategoria(lancamentos, cats)) - multiset(GraficoPizza(lancamentos, cats))
              && 0 <= i < |GraficoPizza(lancamentos, cats)|
              ==> GraficoPizza(lancamentos, cats)[i].valor >= x.valor
    ensures PorcentagensDe(GraficoPizza(lancamentos, cats), Dashboard.Despesas(lancamentos))
  {
    TotalDoGraficoSaoAsDespesas(lancamentos);
    var fs := FatiasPorCategoria(lancamentos, cats);
    var s := OrdenarDesc(fs);
    OrdenarDescOrdenado(fs);
    PrefixoDeOrdenado(s, Min(MaxFatias, |s|));
    var ds := DespesasConfirmadas(lancamentos);
    var total := Dashboard.SomaValores(ds);
    if total != 0 {
      var r := GraficoPizza(lancamentos, cats);
      PorcentagemDasFatias(Agrupar(ds, cats), total, r);
      assert total == Dashboard.Despesas(lancamentos);
    }
  }

  /** What the chart shows: nothing when confirmed expenses sum to zero;
      otherwise min(6, number of categories) slices in non-increasing order
      of value, each one category's slice with its share of the confirmed
      expenses, and no slice left out is larger than a slice shown; slices
      of equal value keep their first-encounter order. */
  lemma GraficoPizzaCorreto(lancamentos: seq<Lancamento>, cats: seq<Categoria>)
    ensures Dashboard.Despesas(lancamentos) == 0 ==> GraficoPizza(lancamentos, cats) == []
    ensures |GraficoPizza(lancamentos, cats)| == Min(MaxFatias, |FatiasPorCategoria(lancamentos, cats)|)
    ensures OrdenadoDesc(GraficoPizza(lancamentos, cats))
    ensures multiset(GraficoPizza(lancamentos, cats)) <= multiset(FatiasPorCategoria(lancamentos, cats))
    ensures forall x, i ::
              x in multiset(FatiasPorCategoria(lancamentos, cats)) - multiset(GraficoPizza(lancamentos, cats))
              && 0 <= i < |GraficoPizza(lancamentos, cats)|
              ==> GraficoPizza(lancamentos, cats)[i].valor >= x.valor
    ensures PorcentagensDe(GraficoPizza(lancamentos, cats), Dashboard.Despesas(lancamentos))
    ensures forall v :: ComValor(GraficoPizza(lancamentos, cats), v) <= ComValor(FatiasPorCategoria(lancamentos, cats), v)
  {
    GraficoPizzaMaiores(lancamentos, cats);
    forall v ensures ComValor(GraficoPizza(lancamentos, cats), v) <= ComValor(FatiasPorCategoria(lancamentos, cats), v) {
      GraficoPizzaEstavel(lancamentos, cats, v);
    }
  }

  /** The groups add up to at most the chart's total when amounts are
      non-negative, and exactly to it when every confirmed expense has a
      known category; the slices' shares then add up to at most 100, or
      exactly 100. */
  lemma {:induction false} SomaDosGrupos(ds: seq<Lancamento>, cats: seq<Categoria>)
    requires forall i :: 0 <= i < |ds| ==> ds[i].valor >= 0
    ensures SomaGrupos(Agrupar(ds, cats)) <= Dashboard.SomaValores(ds)
    ensures (forall l :: l in ds ==> Conhecida(cats, l.categoriaId)) ==>
              SomaGrupos(Agrupar(ds, cats)) == Dashboard.SomaValores(ds)
    ensures Dashboard.SomaValores(ds) > 0 ==>
              SomaPorcentagens(ComPorcentagem(Agrupar(ds, cats), Dashboard.SomaValores(ds))) <= 100.0
  {
    AgruparSoma(ds, cats);
    SomaConhecidasAteTotal(ds, cats);
    var total := Dashboard.SomaValores(ds);
    if total > 0 {
      PorcentagensAte100(Agrupar(ds, cats), total);
    }
  }

  /** Groups adding up to at most a positive total have shares adding up
      to at most 100. */
  lemma PorcentagensAte100(gs: seq<Grupo>, total: int)
    requires 0 < total && SomaGrupos(gs) <= total
    ensures SomaPorcentagens(ComPorcentagem(gs, total)) <= 100.0
  {
    var soma := SomaPorcentagens(ComPorcentagem(gs, total));
    var t := total as real;
    var s := (SomaGrupos(gs) as real) * 100.0;
    SomaPorcentagensProporcional(gs, total);
    assert s <= 100.0 * t;
    Dashboard.LimiarDoQuociente(soma, t, s, 100.0);
  }

  lemma {:induction false} SomaConhecidasAteTotal(ds: seq<Lancamento>, cats: seq<Categoria>)
    requires forall i :: 0 <= i < |ds| ==> ds[i].valor >= 0
    ensures SomaConhecidas(ds, cats) <= Dashboard.SomaValores(ds)
    ensures (forall l :: l in ds ==> Conhecida(cats, l.categoriaId)) ==>
              SomaConhecidas(ds, cats) == Dashboard.SomaValores(ds)
  {
    if ds != [] {
      SomaConhecidasAteTotal(ds[..|ds| - 1], cats);
      assert ds[|ds| - 1] in ds;
    }
  }

  // ---------------------------------------------------------------------
  // The accumulator loop
  // ---------------------------------------------------------------------

  /** The accumulator's keys in insertion order are `chaves`: distinct,
      exactly the map's keys, each mapped to the group of that id. */
  ghost predicate ChavesValidas(chaves: seq<string>, acc: map<string, Grupo>) {
    && (forall i, j :: 0 <= i < j < |chaves| ==> chaves[i] != chaves[j])
    && (forall k :: k in acc <==> k in chaves)
    && (forall i :: 0 <= i < |chaves| ==> chaves[i] in acc && acc[chaves[i]].id == chaves[i])
  }

  /** `Object.values(acc)`: the groups in key-insertion order. */
  function Valores(chaves: seq<string>, acc: map<string, Grupo>): (gs: seq<Grupo>)
    requires ChavesValidas(chaves, acc)
    ensures |gs| == |chaves|
    ensures forall i :: 0 <= i < |chaves| ==> gs[i] == acc[chaves[i]]
  {
    seq(|chaves|, i requires 0 <= i < |chaves| => acc[chaves[i]])
  }

  /** A new key gets a zero group and goes last in insertion order; no
      existing group had that id. */
  lemma ValoresNovaChave(chaves: seq<string>, acc: map<string, Grupo>, c: Categoria)
    requires ChavesValidas(chaves, acc) && c.id !in acc
    ensures ChavesValidas(chaves + [c.id], acc[c.id := Grupo(c.id, c.nome, 0, c.cor)])
    ensures Valores(chaves + [c.id], acc[c.id := Grupo(c.id, c.nome, 0, c.cor)])
            == Valores(chaves, acc) + [Grupo(c.id, c.nome, 0, c.cor)]
    ensures IndiceDoGrupo(Valores(chaves, acc), c.id) == |chaves|
  {
    var acc1 := acc[c.id := Grupo(c.id, c.nome, 0, c.cor)];
    var ks := chaves + [c.id];
    assert forall i :: 0 <= i < |chaves| ==> ks[i] == chaves[i] && chaves[i] != c.id;
    assert ChavesValidas(ks, acc1);
    var gs := Valores(chaves, acc);
    assert forall k :: 0 <= k < |gs| ==> gs[k].id != c.id;
  }

  /** Adding to an existing key updates the group at that key's position. */
  lemma ValoresSomaNaChave(chaves: seq<string>, acc: map<string, Grupo>, id: string, v: int)
    requires ChavesValidas(chaves, acc) && id in acc
    ensures ChavesValidas(chaves, acc[id := acc[id].(valor := acc[id].valor + v)])
    ensures var gs := Valores(chaves, acc);
            var k := IndiceDoGrupo(gs, id);
            && k < |gs|
            && Valores(chaves, acc[id := acc[id].(valor := acc[id].valor + v)])
               == gs[k := gs[k].(valor := gs[k].valor + v)]
  {
    var g := acc[id].(valor := acc[id].valor + v);
    var k := PosicaoDaChave(chaves, acc, id);
    ValoresAtualizados(chaves, acc, id, g, k);
    assert Valores(chaves, acc)[k] == acc[id];
  }

  /** Replacing the group at an existing key replaces it at that key's position. */
  lemma ValoresAtualizados(chaves: seq<string>, acc: map<string, Grupo>, id: string, g: Grupo, k: nat)
    requires ChavesValidas(chaves, acc) && id in acc && g.id == id
    requires k < |chaves| && chaves[k] == id
    ensures ChavesValidas(chaves, acc[id := g])
    ensures Valores(chaves, acc[id := g]) == Valores(chaves, acc)[k := g]
  {
    ChavesValidasAtualiza(chaves, acc, id, g);
    var gs, novos := Valores(chaves, acc), Valores(chaves, acc[id := g]);
    forall i | 0 <= i < |chaves| ensures novos[i] == gs[k := g][i] {
      if i != k {
        assert chaves[i] != id;
      }
    }
  }

  /** Replacing a key's group by another with the same id keeps the keys valid. */
  lemma ChavesValidasAtualiza(chaves: seq<string>, acc: map<string, Grupo>, id: string, g: Grupo)
    requires ChavesValidas(chaves, acc) && id in acc && g.id == id
    ensures ChavesValidas(chaves, acc[id := g])
  {
  }

  /** An existing key sits at the position where the groups first have its id. */
  lemma PosicaoDaChave(chaves: seq<string>, acc: map<string, Grupo>, id: string) returns (k: nat)
    requires ChavesValidas(chaves, acc) && id in acc
    ensures k == IndiceDoGrupo(Valores(chaves, acc), id)
    ensures k < |chaves| && chaves[k] == id
  {
    var gs := Valores(chaves, acc);
    var j :| 0 <= j < |chaves| && chaves[j] == id;
    assert gs[j].id == id;
    k := IndiceDoGrupo(gs, id);
    assert k <= j;
    assert gs[k].id == id;
  }

  /** First expense of a category: a zero group is inserted and the amount
      added to it, which is the grouping's append case. */
  lemma PassoNovaChave(chaves: seq<string>, acc: map<string, Grupo>, l: Lancamento,
                       cats: seq<Categoria>, c: Categoria)
    requires ChavesValidas(chaves, acc) && c.id !in acc
    requires FindCategoria(cats, l.categoriaId) == Some(c)
    ensures var acc1 := acc[c.id := Grupo(c.id, c.nome, 0, c.cor)];
            var acc2 := acc1[c.id := acc1[c.id].(valor := acc1[c.id].valor + l.valor)];
            && ChavesValidas(chaves + [c.id], acc2)
            && Valores(chaves + [c.id], acc2) == Acrescentar(Valores(chaves, acc), l, cats)
  {
    var acc1 := acc[c.id := Grupo(c.id, c.nome, 0, c.cor)];
    ValoresNovaChave(chaves, acc, c);
    ValoresSomaNaChave(chaves + [c.id], acc1, c.id, l.valor);
    var gs0 := Valores(chaves, acc);
    var gs1 := gs0 + [Grupo(c.id, c.nome, 0, c.cor)];
    assert IndiceDoGrupo(gs1, c.id) == |gs0|;
  }

  /** A later expense of a category already in the accumulator: the amount
      is added to that group in place. */
  lemma PassoChaveExistente(chaves: seq<string>, acc: map<string, Grupo>, l: Lancamento,
                            cats: seq<Categoria>, c: Categoria)
    requires ChavesValidas(chaves, acc) && c.id in acc
    requires FindCategoria(cats, l.categoriaId) == Some(c)
    ensures var acc2 := acc[c.id := acc[c.id].(valor := acc[c.id].valor + l.valor)];
            && ChavesValidas(chaves, acc2)
            && Valores(chaves, acc2) == Acrescentar(Valores(chaves, acc), l, cats)
  {
    ValoresSomaNaChave(chaves, acc, c.id, l.valor);
  }

  /** One pass of the reduce callback for an expense of known category `c`:
      `acc`/`chaves` are the state after the "create if missing" step, from
      `acc0`/`chaves0`; adding the amount then yields the grouping's step. */
  lemma PassoDoAcumulador(chaves0: seq<string>, acc0: map<string, Grupo>,
                          chaves: seq<string>, acc: map<string, Grupo>,
                          l: Lancamento, cats: seq<Categoria>, c: Categoria)
    requires ChavesValidas(chaves0, acc0)
    requires FindCategoria(cats, l.categoriaId) == Some(c)
    requires c.id !in acc0 ==> chaves == chaves0 + [c.id] && acc == acc0[c.id := Grupo(c.id, c.nome, 0, c.cor)]
    requires c.id in acc0 ==> chaves == chaves0 && acc == acc0
    ensures c.id in acc
    ensures ChavesValidas(chaves, acc[c.id := acc[c.id].(valor := acc[c.id].valor + l.valor)])
    ensures Valores(chaves, acc[c.id := acc[c.id].(valor := acc[c.id].valor + l.valor)])
            == Acrescentar(Valores(chaves0, acc0), l, cats)
  {
    if c.id !in acc0 {
      PassoNovaChave(chaves0, acc0, l, cats, c);
    } else {
      PassoChaveExistente(chaves0, acc0, l, cats, c);
    }
  }

  lemma AgruparPasso(ds: seq<Lancamento>, i: nat, cats: seq<Categoria>)
    requires i < |ds|
    ensures Agrupar(ds[..i + 1], cats) == Acrescentar(Agrupar(ds[..i], cats), ds[i], cats)
  {
    assert ds[..i + 1][..i] == ds[..i];
  }

  /** The accumulation loop: one group per category, in first-seen order. */
  method AgruparDespesas(despesas: seq<Lancamento>, categorias: seq<Categoria>)
    returns (grupos: seq<Grupo>)
    ensures grupos == Agrupar(despesas, categorias)
  {
    var acc: map<string, Grupo> := map[];
    var chaves: seq<string> := [];
    var i := 0;
    while i < |despesas|
      invariant 0 <= i <= |despesas|
      invariant ChavesValidas(chaves, acc)
      invariant Valores(chaves, acc) == Agrupar(despesas[..i], categorias)
    {
      var l := despesas[i];
      ghost var chaves0, acc0 := chaves, acc;
      AgruparPasso(despesas, i, categorias);
      var categoria := FindCategoria(categorias, l.categoriaId);
      if categoria.Some? {
        var c := categoria.value;
        if c.id !in acc {
          acc := acc[c.id := Grupo(c.id, c.nome, 0, c.cor)];
          chaves := chaves + [c.id];
        }
        PassoDoAcumulador(chaves0, acc0, chaves, acc, l, categorias, c);
        acc := acc[c.id := acc[c.id].(valor := acc[c.id].valor + l.valor)];
      }
      i := i + 1;
    }
    assert despesas[..i] == despesas;
    grupos := Valores(chaves, acc);
  }

  method DadosGraficoPizza(lancamentos: seq<Lancamento>, categorias: seq<Categoria>)
    returns (fatias: seq<Fatia>)
    ensures fatias == GraficoPizza(lancamentos, categorias)
  {
    var despesas := DespesasConfirmadas(lancamentos);
    var totalDespesas := Dashboard.SomaValores(despesas);
    if totalDespesas == 0 {
      return [];
    }
    var grupos := AgruparDespesas(despesas, categorias);
    var ordenadas := OrdenarDesc(ComPorcentagem(grupos, totalDespesas));
    fatias := ordenadas[..Min(MaxFatias, |ordenadas|)];
  }
}
