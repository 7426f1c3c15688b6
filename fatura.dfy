/** The credit-card statement view (src/components/FaturaCartao/FaturaCartao.tsx):
    which accounts can be chosen, the statement total, the limit used and
    left, the utilisation bar, and the payment form. Amounts are integer
    centavos; utilisation is a real percentage. */
module Fatura {

  import opened Types
  import Dashboard
  import ValorPagamento

  // ---------------------------------------------------------------------
  // Accounts with a credit function
  // ---------------------------------------------------------------------

  /** `c.limite_credito && c.limite_credito > 0`. */
  predicate TemCredito(c: Conta) {
    c.limiteCredito.Some? && c.limiteCredito.value > 0
  }

  /** The accounts the statement view offers: those with a positive credit
      limit, each as often and in the order it comes. */
  function ContasComCredito(contas: seq<Conta>): (r: seq<Conta>)
    ensures |r| <= |contas|
    ensures forall c :: c in r <==> c in contas && TemCredito(c)
    ensures (forall i :: 0 <= i < |contas| ==> TemCredito(contas[i])) ==> r == contas
  {
    if contas == [] then []
    else
      assert contas == contas[..|contas| - 1] + [contas[|contas| - 1]];
      ContasComCredito(contas[..|contas| - 1])
      + (if TemCredito(contas[|contas| - 1]) then [contas[|contas| - 1]] else [])
  }

  /** The filter keeps relative order: it distributes over concatenation. */
  lemma {:induction false} ContasComCreditoConcat(a: seq<Conta>, b: seq<Conta>)
    ensures ContasComCredito(a + b) == ContasComCredito(a) + ContasComCredito(b)
  {
    if b == [] {
      assert a + b == a;
    } else {
      var pre, c := b[..|b| - 1], b[|b| - 1];
      var ultima := if TemCredito(c) then [c] else [];
      assert (a + b)[..|a + b| - 1] == a + pre;
      assert (a + b)[|a + b| - 1] == c;
      assert ContasComCredito(a + b) == ContasComCredito(a + pre) + ultima;
      assert ContasComCredito(b) == ContasComCredito(pre) + ultima;
      ContasComCreditoConcat(a, pre);
      Associativa(ContasComCredito(a), ContasComCredito(pre), ultima);
    }
  }

  /** `contas.find(c => c.id === contaSelecionada)`: the first account with
      that id. */
  function ContaAtual(contas: seq<Conta>, id: string): (r: Option<Conta>)
    ensures r.None? <==> forall i :: 0 <= i < |contas| ==> contas[i].id != id
    ensures r.Some? ==> r.value in contas && r.value.id == id
    ensures r.Some? ==> exists k :: 0 <= k < |contas| && contas[k] == r.value
                                    && forall j :: 0 <= j < k ==> contas[j].id != id
  {
    if contas == [] then None
    else if contas[0].id == id then Some(contas[0])
    else ContaAtual(contas[1..], id)
  }

  /** Every account found in the filtered list has a positive limit, so the
      view's limit figures are always defined. */
  lemma ContaAtualTemCredito(contas: seq<Conta>, id: string)
    requires ContaAtual(ContasComCredito(contas), id).Some?
    ensures TemCredito(ContaAtual(ContasComCredito(contas), id).value)
  {
  }

  // ---------------------------------------------------------------------
  // Statement figures
  // ---------------------------------------------------------------------

  /** The statement total is `Dashboard.SomaValores`: every item counts,
      whatever its status. Changing one item's status leaves it unchanged. */
  lemma {:induction false} TotalIgnoraStatus(fatura: seq<Lancamento>, i: nat, s: Status)
    requires i < |fatura|
    ensures Dashboard.SomaValores(fatura[i := fatura[i].(status := s)]) == Dashboard.SomaValores(fatura)
  {
    var g := fatura[i := fatura[i].(status := s)];
    var n := |fatura| - 1;
    assert g[..n] == if i == n then fatura[..n] else fatura[..n][i := fatura[i].(status := s)];
    if i < n {
      TotalIgnoraStatus(fatura[..n], i, s);
    }
  }

  /** Items of every status add up: the total is the confirmed expenses plus
      everything else, so with non-negative amounts it is at least what the
      dashboard counts as expenses. */
  lemma TotalCobreDespesasConfirmadas(fatura: seq<Lancamento>)
    requires forall i :: 0 <= i < |fatura| ==> fatura[i].valor >= 0
    ensures Dashboard.Despesas(fatura) <= Dashboard.SomaValores(fatura)
  {
    Dashboard.SomaConfirmadaLimites(fatura, Despesa);
  }

  /** `contaAtual?.limite_credito ? totalFatura / limite * 100 : 0`. */
  function Utilizacao(conta: Option<Conta>, total: int): (u: real)
    ensures !(conta.Some? && Truthy(conta.value.limiteCredito)) ==> u == 0.0
    ensures conta.Some? && Truthy(conta.value.limiteCredito) ==>
              u * (conta.value.limiteCredito.value as real) == (total as real) * 100.0
  {
    if conta.Some? && Truthy(conta.value.limiteCredito)
    then ((total as real) / (conta.value.limiteCredito.value as real)) * 100.0
    else 0.0
  }

  /** `limite_credito - totalFatura`, not clamped at zero. */
  function LimiteDisponivel(c: Conta, total: int): (d: int)
    requires c.limiteCredito.Some?
    ensures d + total == c.limiteCredito.value
  {
    c.limiteCredito.value - total
  }

  /** Utilisation against the limit in amounts: for an account with a
      positive limit L and total T, it passes 60, 80 and 100 exactly when T
      passes 3L/5, 4L/5 and L, and the available limit is negative exactly
      when utilisation is over 100. */
  lemma UtilizacaoEmValores(c: Conta, total: int)
    requires TemCredito(c)
    ensures var u := Utilizacao(Some(c), total);
            var l := c.limiteCredito.value;
            && (u > 60.0 <==> 5 * total > 3 * l)
            && (u > 80.0 <==> 5 * total > 4 * l)
            && (u > 100.0 <==> total > l)
            && (u > 100.0 <==> LimiteDisponivel(c, total) < 0)
            && (u == 100.0 <==> LimiteDisponivel(c, total) == 0)
  {
    var u := Utilizacao(Some(c), total);
    var L := c.limiteCredito.value as real;
    var T := (total as real) * 100.0;
    Dashboard.LimiarDoQuociente(u, L, T, 60.0);
    Dashboard.LimiarDoQuociente(u, L, T, 80.0);
    Dashboard.LimiarDoQuociente(u, L, T, 100.0);
  }

  /** `Math.min(utilizacao, 100)`: the bar never overflows. */
  function LarguraBarra(u: real): (w: real)
    ensures w <= 100.0 && w <= u
    ensures w == u || w == 100.0
  {
    if u < 100.0 then u else 100.0
  }

  /** The colour of the utilisation figure and bar. */
  function CorUtilizacao(u: real): (cor: Dashboard.Cor)
    ensures cor == Dashboard.Vermelho <==> u > 80.0
    ensures cor == Dashboard.Amarelo <==> 60.0 < u <= 80.0
    ensures cor == Dashboard.Verde <==> u <= 60.0
  {
    if u > 80.0 then Dashboard.Vermelho
    else if u > 60.0 then Dashboard.Amarelo
    else Dashboard.Verde
  }

  function Gravidade(cor: Dashboard.Cor): nat {
    match cor
    case Verde => 0
    case Amarelo => 1
    case Vermelho => 2
    case Azul => 0
  }

  /** Higher utilisation never shows a milder colour. */
  lemma CorMonotona(u: real, v: real)
    requires u <= v
    ensures Gravidade(CorUtilizacao(u)) <= Gravidade(CorUtilizacao(v))
  {
  }

  /** A card with limit R$ 1.000,00 and a statement of R$ 850,00 is 85% used,
      shown red, with the bar at 85% and R$ 150,00 left. */
  lemma ExemploCartao85()
    ensures var c := Conta("c", "Cartao", CartaoCredito, 0, 0, Some(100000));
            && Utilizacao(Some(c), 85000) == 85.0
            && CorUtilizacao(Utilizacao(Some(c), 85000)) == Dashboard.Vermelho
            && LarguraBarra(Utilizacao(Some(c), 85000)) == 85.0
            && LimiteDisponivel(c, 85000) == 15000
  {
    var c := Conta("c", "Cartao", CartaoCredito, 0, 0, Some(100000));
    var u := Utilizacao(Some(c), 85000);
    assert u * 100000.0 == 8500000.0;
  }

  // ---------------------------------------------------------------------
  // The component's state
  // ---------------------------------------------------------------------

  /** The arguments of `DatabaseService.getFaturaCartao`. */
  datatype ConsultaFatura = ConsultaFatura(contaId: string, inicio: Date, fim: Date)

  /** The arguments of `DatabaseService.pagarFatura`; `valor` is `None`
      where the amount is `NaN`. */
  datatype ChamadaPagamento = ChamadaPagamento(
    cartaoId: string,
    contaOrigemId: string,
    valor: Option<real>,
    inicio: Date,
    fim: Date,
    parcial: bool)

  /** What the component renders before the statement itself. */
  datatype Tela = Carregando | SemContaCredito | Painel

  function TelaAtual(loading: bool, contas: seq<Conta>): (t: Tela)
    ensures t == Carregando <==> loading && contas == []
    ensures t == SemContaCredito <==> !loading && contas == []
  {
    if loading && |contas| == 0 then Carregando
    else if |contas| == 0 then SemContaCredito
    else Painel
  }

  class FaturaCartao {
    var contas: seq<Conta>
    var contaSelecionada: string
    var periodo: Dashboard.Periodo
    var fatura: seq<Lancamento>
    var loading: bool
    var showPagamento: bool
    var contaOrigem: string
    var valorPagamento: string
    var pagamentoParcial: bool

    /** Only credit-capable accounts are ever listed. */
    ghost predicate Valid()
      reads this`contas
    {
      forall c :: c in contas ==> TemCredito(c)
    }

    /** The initial state: no accounts, nothing selected, the current month
        up to today, loading. */
    constructor(hoje: Date)
      requires ValidDate(hoje)
      ensures Valid()
      ensures contas == [] && |contaSelecionada| == 0 && fatura == []
      ensures periodo == Dashboard.Periodo(Date(hoje.year, hoje.month, 1), hoje)
      ensures periodo == Dashboard.ResolvePeriodo("month", hoje)
      ensures loading && !showPagamento
      ensures |contaOrigem| == 0 && |valorPagamento| == 0 && !pagamentoParcial
    {
      contas := [];
      contaSelecionada := "";
      periodo := Dashboard.Periodo(Date(hoje.year, hoje.month, 1), hoje);
      fatura := [];
      loading := true;
      showPagamento := false;
      contaOrigem := "";
      valorPagamento := "";
      pagamentoParcial := false;
    }

    /** `loadContas`, given what `getContas` returned (`None` when it
        failed): keep the credit-capable accounts and select the first. */
    method CarregarContas(resultado: Option<seq<Conta>>)
      requires Valid()
      modifies this`contas, this`contaSelecionada, this`loading
      ensures Valid()
      ensures resultado.Some? ==> contas == ContasComCredito(resultado.value)
      ensures resultado.None? ==> contas == old(contas)
      ensures contaSelecionada
              == if resultado.Some? && |contas| > 0 then contas[0].id else old(contaSelecionada)
      ensures resultado.Some? && |contas| > 0 ==> ContaAtual(contas, contaSelecionada) == Some(contas[0])
      ensures !loading
      ensures resultado.Some? && contas == [] ==> TelaAtual(loading, contas) == SemContaCredito
    {
      if resultado.Some? {
        var contasComCredito := ContasComCredito(resultado.value);
        contas := contasComCredito;
        if |contasComCredito| > 0 {
          contaSelecionada := contasComCredito[0].id;
        }
      }
      loading := false;
    }

    /** `loadFatura`, given what `getFaturaCartao` returned: nothing at all
        happens while no account is selected; otherwise the statement for
        the selected account and period is requested and, when it arrives,
        shown. */
    method CarregarFatura(resultado: Option<seq<Lancamento>>) returns (consulta: Option<ConsultaFatura>)
      modifies this`fatura, this`loading
      ensures |contaSelecionada| == 0 ==>
                consulta == None && fatura == old(fatura) && loading == old(loading)
      ensures |contaSelecionada| > 0 ==>
                && consulta == Some(ConsultaFatura(contaSelecionada, periodo.inicio, periodo.fim))
                && fatura == (if resultado.Some? then resultado.value else old(fatura))
                && !loading
    {
      if |contaSelecionada| == 0 {
        return None;
      }
      loading := true;
      consulta := Some(ConsultaFatura(contaSelecionada, periodo.inicio, periodo.fim));
      if resultado.Some? {
        fatura := resultado.value;
      }
      loading := false;
    }

    /** The account selector. */
    method SelecionarConta(id: string)
      modifies this`contaSelecionada
      ensures contaSelecionada == id
    {
      contaSelecionada := id;
    }

    /** The start-date input. */
    method AlterarInicio(inicio: Date)
      modifies this`periodo
      ensures periodo == old(periodo).(inicio := inicio)
    {
      periodo := periodo.(inicio := inicio);
    }

    /** The end-date input. */
    method AlterarFim(fim: Date)
      modifies this`periodo
      ensures periodo == old(periodo).(fim := fim)
    {
      periodo := periodo.(fim := fim);
    }

    /** The "Pagar Fatura" button, rendered only for a found account with a
        positive statement total, opens the payment form; that account
        always has a positive limit. */
    method AbrirPagamento()
      requires Valid()
      modifies this`showPagamento
      ensures showPagamento
              == (old(showPagamento)
                  || (ContaAtual(contas, contaSelecionada).Some? && Dashboard.SomaValores(fatura) > 0))
      ensures showPagamento && !old(showPagamento) ==>
                TemCredito(ContaAtual(contas, contaSelecionada).value)
    {
      if ContaAtual(contas, contaSelecionada).Some? && Dashboard.SomaValores(fatura) > 0 {
        showPagamento := true;
      }
    }

    /** The "Cancelar" button closes the form and keeps what was typed. */
    method CancelarPagamento()
      modifies this`showPagamento
      ensures !showPagamento
    {
      showPagamento := false;
    }

    /** The source-account selector of the payment form. */
    method EscolherContaOrigem(id: string)
      modifies this`contaOrigem
      ensures contaOrigem == id
    {
      contaOrigem := id;
    }

    /** The amount field of the payment form. */
    method DigitarValor(texto: string)
      modifies this`valorPagamento
      ensures valorPagamento == texto
    {
      valorPagamento := texto;
    }

    /** The partial-payment checkbox. */
    method MarcarParcial(parcial: bool)
      modifies this`pagamentoParcial
      ensures pagamentoParcial == parcial
    {
      pagamentoParcial := parcial;
    }

    /** `handlePagarFatura`. With no source account or an empty amount it
        makes no call and changes nothing. Otherwise it calls the payment
        with the normalised amount (`pago` is whether that call succeeded);
        on success the form closes and is cleared and the statement is
        reloaded (`recarga` is what that reload returned); on failure the
        form keeps its contents. Loading always ends. */
    method PagarFatura(pago: bool, recarga: Option<seq<Lancamento>>)
      returns (chamada: Option<ChamadaPagamento>, consulta: Option<ConsultaFatura>)
      modifies this`loading, this`showPagamento, this`contaOrigem, this`valorPagamento,
               this`pagamentoParcial, this`fatura
      ensures |old(contaOrigem)| == 0 || |old(valorPagamento)| == 0 ==>
                chamada == None && consulta == None && unchanged(this)
      ensures |old(contaOrigem)| > 0 && |old(valorPagamento)| > 0 ==>
                && chamada == Some(ChamadaPagamento(
                                     contaSelecionada, old(contaOrigem),
                                     ValorPagamento.ValorNormalizado(old(valorPagamento)),
                                     periodo.inicio, periodo.fim, old(pagamentoParcial)))
                && !loading
      ensures |old(contaOrigem)| > 0 && |old(valorPagamento)| > 0 && pago ==>
                && !showPagamento && |contaOrigem| == 0 && |valorPagamento| == 0 && !pagamentoParcial
                && (|contaSelecionada| == 0 ==> consulta == None && fatura == old(fatura))
                && (|contaSelecionada| > 0 ==>
                      && consulta == Some(ConsultaFatura(contaSelecionada, periodo.inicio, periodo.fim))
                      && fatura == (if recarga.Some? then recarga.value else old(fatura)))
      ensures |old(contaOrigem)| > 0 && |old(valorPagamento)| > 0 && !pago ==>
                && consulta == None
                && showPagamento == old(showPagamento) && contaOrigem == old(contaOrigem)
                && valorPagamento == old(valorPagamento) && pagamentoParcial == old(pagamentoParcial)
                && fatura == old(fatura)
    {
      if |contaOrigem| == 0 || |valorPagamento| == 0 {
        return None, None;
      }
      loading := true;
      var valor := ValorPagamento.ValorNormalizado(valorPagamento);
      chamada := Some(ChamadaPagamento(contaSelecionada, contaOrigem, valor,
                                       periodo.inicio, periodo.fim, pagamentoParcial));
      consulta := None;
      if pago {
        showPagamento := false;
        contaOrigem := "";
        valorPagamento := "";
        pagamentoParcial := false;
        consulta := CarregarFatura(recarga);
      }
      loading := false;
    }
  }
}
