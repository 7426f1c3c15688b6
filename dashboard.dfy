/** The computations of the dashboard page (EnhancedDashboard.tsx): the
    period selector, the four KPIs, the memoised financial summary, the
    insight cards and the account list. The category chart is in module
    GraficoPizza. */
module Dashboard {
  import opened Types

  // ---------------------------------------------------------------------
  // Time range
  // ---------------------------------------------------------------------

  datatype Periodo = Periodo(inicio: Date, fim: Date)

  /** Months since year 0: consecutive calendar months differ by one. */
  function MonthIndex(d: Date): int {
    d.year * 12 + d.month - 1
  }

  /** The first day of month `m0` (0-based, possibly negative) of year `y`,
      normalised the way a JavaScript `Date` constructor carries months
      over into years. */
  function FirstOfMonth(y: int, m0: int): (d: Date)
    ensures ValidDate(d) && d.day == 1
    ensures MonthIndex(d) == y * 12 + m0
  {
    Date(y + m0 / 12, m0 % 12 + 1, 1)
  }

  /** The window the dashboard loads: "quarter" starts on the first of the
      month three months back, "year" on January 1, anything else on the
      first of the current month; the end is always today. */
  function ResolvePeriodo(timeRange: string, hoje: Date): (p: Periodo)
    requires ValidDate(hoje)
    ensures p.fim == hoje
    ensures ValidDate(p.inicio) && p.inicio.day == 1
    ensures timeRange == "year" ==> p.inicio == Date(hoje.year, 1, 1)
    ensures timeRange == "quarter" ==> MonthIndex(p.inicio) == MonthIndex(hoje) - 3
    ensures timeRange != "quarter" && timeRange != "year" ==>
              p.inicio.year == hoje.year && p.inicio.month == hoje.month
  {
    var m0 := hoje.month - 1;
    var inicio :=
      if timeRange == "quarter" then FirstOfMonth(hoje.year, m0 - 3)
      else if timeRange == "year" then FirstOfMonth(hoje.year, 0)
      else FirstOfMonth(hoje.year, m0);
    Periodo(inicio, hoje)
  }

  /** Whatever the selector, the window is non-empty: it starts no later
      than today, and the quarter window crosses into the previous year
      exactly when today is in January, February or March. */
  lemma PeriodoBemFormado(timeRange: string, hoje: Date)
    requires ValidDate(hoje)
    ensures DateLe(ResolvePeriodo(timeRange, hoje).inicio, hoje)
    ensures timeRange == "quarter" ==>
              (ResolvePeriodo(timeRange, hoje).inicio.year == hoje.year - 1 <==> hoje.month <= 3)
  {
    var p := ResolvePeriodo(timeRange, hoje);
    if timeRange == "quarter" {
      assert MonthIndex(p.inicio) == MonthIndex(hoje) - 3;
      if hoje.month <= 3 {
        assert p.inicio.year == hoje.year - 1;
      } else {
        assert p.inicio.year == hoje.year;
      }
    }
  }

  // ---------------------------------------------------------------------
  // Income, expenses, net worth
  // ---------------------------------------------------------------------

  /** What one transaction adds to the sum of kind `tipo`: its value when it
      has that kind and is confirmed, nothing otherwise. */
  function Contribuicao(l: Lancamento, tipo: TipoLancamento): int {
    if l.tipo == tipo && l.status == Confirmado then l.valor else 0
  }

  /** Sum of `valor` over the confirmed transactions of kind `tipo`. */
  function SomaConfirmada(ls: seq<Lancamento>, tipo: TipoLancamento): int {
    if ls == [] then 0 else SomaConfirmada(ls[..|ls| - 1], tipo) + Contribuicao(ls[|ls| - 1], tipo)
  }

  function Receitas(ls: seq<Lancamento>): int { SomaConfirmada(ls, Receita) }

  function Despesas(ls: seq<Lancamento>): int { SomaConfirmada(ls, Despesa) }

  lemma {:induction false} SomaConfirmadaConcat(a: seq<Lancamento>, b: seq<Lancamento>, tipo: TipoLancamento)
    ensures SomaConfirmada(a + b, tipo) == SomaConfirmada(a, tipo) + SomaConfirmada(b, tipo)
  {
    if b == [] {
      assert a + b == a;
    } else {
      assert (a + b)[..|a + b| - 1] == a + b[..|b| - 1];
      SomaConfirmadaConcat(a, b[..|b| - 1], tipo);
    }
  }

  /** Pending, cancelled and instalment-group transactions, and those of the
      other kind, can be inserted anywhere without changing either sum. */
  lemma SomaIgnoraNaoConfirmados(a: seq<Lancamento>, l: Lancamento, b: seq<Lancamento>, tipo: TipoLancamento)
    requires l.status != Confirmado || l.tipo != tipo
    ensures SomaConfirmada(a + [l] + b, tipo) == SomaConfirmada(a + b, tipo)
  {
    SomaConfirmadaConcat(a + [l], b, tipo);
    SomaConfirmadaConcat(a, [l], tipo);
    SomaConfirmadaConcat(a, b, tipo);
  }

  /** With non-negative amounts, a sum never exceeds the sum of all amounts
      and is never negative. */
  lemma {:induction false} SomaConfirmadaLimites(ls: seq<Lancamento>, tipo: TipoLancamento)
    requires forall i :: 0 <= i < |ls| ==> ls[i].valor >= 0
    ensures 0 <= SomaConfirmada(ls, tipo) <= SomaValores(ls)
  {
    if ls != [] {
      SomaConfirmadaLimites(ls[..|ls| - 1], tipo);
    }
  }

  /** Sum of `valor` over every transaction, whatever its kind or status. */
  function SomaValores(ls: seq<Lancamento>): int {
    if ls == [] then 0 else SomaValores(ls[..|ls| - 1]) + ls[|ls| - 1].valor
  }

  /** A credit-card account is a debt: it counts as minus its absolute balance. */
  function ContribuicaoPatrimonio(c: Conta): (r: int)
    ensures c.tipo == CartaoCredito ==> r <= 0 && (r == c.saldoAtual || r == -c.saldoAtual)
    ensures c.tipo != CartaoCredito ==> r == c.saldoAtual
  {
    if c.tipo == CartaoCredito then -Abs(c.saldoAtual) else c.saldoAtual
  }

  function PatrimonioLiquido(contas: seq<Conta>): int {
    if contas == [] then 0
    else PatrimonioLiquido(contas[..|contas| - 1]) + ContribuicaoPatrimonio(contas[|contas| - 1])
  }

  /** The plain sum of account balances. */
  function SomaSaldos(contas: seq<Conta>): int {
    if contas == [] then 0 else SomaSaldos(contas[..|contas| - 1]) + contas[|contas| - 1].saldoAtual
  }

  lemma {:induction false} PatrimonioConcat(a: seq<Conta>, b: seq<Conta>)
    ensures PatrimonioLiquido(a + b) == PatrimonioLiquido(a) + PatrimonioLiquido(b)
  {
    if b == [] {
      assert a + b == a;
    } else {
      assert (a + b)[..|a + b| - 1] == a + b[..|b| - 1];
      PatrimonioConcat(a, b[..|b| - 1]);
    }
  }

  /** Net worth does not depend on the order in which accounts arrive. */
  lemma {:induction false} PatrimonioPermutacao(a: seq<Conta>, b: seq<Conta>)
    requires multiset(a) == multiset(b)
    ensures PatrimonioLiquido(a) == PatrimonioLiquido(b)
    decreases |a|
  {
    if a == [] {
      assert |b| == |multiset(b)| == 0;
    } else {
      var x := a[0];
      var antes, depois := RetirarPrimeira(a, b);
      PatrimonioPermutacao(a[1..], antes + depois);
      assert PatrimonioLiquido(a) == PatrimonioLiquido([x]) + PatrimonioLiquido(a[1..]) by {
        PatrimonioConcat([x], a[1..]);
      }
      assert PatrimonioLiquido(b) == PatrimonioLiquido(antes) + PatrimonioLiquido([x]) + PatrimonioLiquido(depois) by {
        PatrimonioConcat(antes + [x], depois);
        PatrimonioConcat(antes, [x]);
      }
      PatrimonioConcat(antes, depois);
    }
  }

  /** The first element of `a` sits somewhere in its permutation `b`; the
      rest of `a` is a permutation of what surrounds it. */
  lemma RetirarPrimeira<T>(a: seq<T>, b: seq<T>) returns (antes: seq<T>, depois: seq<T>)
    requires a != [] && multiset(a) == multiset(b)
    ensures b == antes + [a[0]] + depois
    ensures a == [a[0]] + a[1..]
    ensures multiset(a[1..]) == multiset(antes + depois)
  {
    var x := a[0];
    assert x in multiset(b);
    var k :| 0 <= k < |b| && b[k] == x;
    antes, depois := b[..k], b[k + 1..];
    assert b == antes + [x] + depois;
    assert a == [x] + a[1..];
    assert multiset(a[1..]) == multiset(a) - multiset{x};
    assert multiset(antes + depois) == multiset(b) - multiset{x};
  }

  /** Counting cards as debt can only lower the total: net worth is at most
      the plain sum of balances, with equality when no account is a card. */
  lemma {:induction false} PatrimonioAteSomaSaldos(contas: seq<Conta>)
    ensures PatrimonioLiquido(contas) <= SomaSaldos(contas)
    ensures (forall i :: 0 <= i < |contas| ==> contas[i].tipo != CartaoCredito) ==>
              PatrimonioLiquido(contas) == SomaSaldos(contas)
  {
    if contas != [] {
      PatrimonioAteSomaSaldos(contas[..|contas| - 1]);
    }
  }

  // ---------------------------------------------------------------------
  // Rates
  // ---------------------------------------------------------------------

  /** Savings rate in percent, guarded against a non-positive income. */
  function TaxaPoupanca(receitas: int, despesas: int): (r: real)
    ensures receitas <= 0 ==> r == 0.0
    ensures receitas > 0 ==> r * (receitas as real) == ((receitas - despesas) as real) * 100.0
  {
    if receitas > 0 then ((receitas - despesas) as real / receitas as real) * 100.0 else 0.0
  }

  /** Multiplying by a positive factor keeps a comparison. */
  lemma ComparaPorFatorPositivo(x: real, c: real, f: real)
    requires f > 0.0
    ensures x >= c <==> x * f >= c * f
    ensures x > c <==> x * f > c * f
  {
    if x >= c { assert x * f - c * f == (x - c) * f; }
    if x * f >= c * f { assert (x - c) * f >= 0.0; }
  }

  /** A quotient `r` with `r * f == s` and a positive `f` is at least `c`
      exactly when `s` is at least `c * f`. */
  lemma LimiarDoQuociente(r: real, f: real, s: real, c: real)
    requires f > 0.0 && r * f == s
    ensures r >= c <==> s >= c * f
    ensures r > c <==> s > c * f
    ensures r <= c <==> s <= c * f
  {
    ComparaPorFatorPositivo(r, c, f);
    ComparaPorFatorPositivo(c, r, f);
  }

  /** The three savings bands in terms of amounts: with a positive income,
      the rate reaches 20% iff expenses are at most 80% of income, and 10%
      iff they are at most 90%; it never exceeds 100% while expenses are
      non-negative. Without income the rate is 0. */
  lemma TaxaPoupancaFaixas(receitas: int, despesas: int)
    requires receitas > 0
    ensures TaxaPoupanca(receitas, despesas) >= 20.0 <==> 5 * despesas <= 4 * receitas
    ensures TaxaPoupanca(receitas, despesas) >= 10.0 <==> 10 * despesas <= 9 * receitas
    ensures despesas >= 0 ==> TaxaPoupanca(receitas, despesas) <= 100.0
  {
    var r := TaxaPoupanca(receitas, despesas);
    var R := receitas as real;
    var S := ((receitas - despesas) as real) * 100.0;
    assert r * R == S;
    assert S == (R - despesas as real) * 100.0;
    var D := despesas as real;
    assert S == 100.0 * R - 100.0 * D;
    LimiarDoQuociente(r, R, S, 20.0);
    LimiarDoQuociente(r, R, S, 10.0);
    LimiarDoQuociente(r, R, S, 100.0);
  }

  /** Average daily spend: expenses divided by today's day of the month,
      whatever window was selected. */
  function GastoDiarioMedio(despesas: int, diaDoMes: int): (r: real)
    requires 1 <= diaDoMes <= 31
    ensures r * (diaDoMes as real) == despesas as real
    ensures despesas >= 0 ==> 0.0 <= r <= despesas as real
  {
    despesas as real / diaDoMes as real
  }

  // ---------------------------------------------------------------------
  // KPIs
  // ---------------------------------------------------------------------

  datatype Trend = Up | Down | Stable

  datatype Cor = Verde | Amarelo | Vermelho | Azul

  datatype KpiKind = KpiSaldo | KpiPoupanca | KpiGastoDiario | KpiPatrimonio

  /** One KPI card; `value` is the number before currency or percent
      formatting. */
  datatype Kpi = Kpi(kind: KpiKind, rotulo: string, value: real, change: int,
                     trend: Trend, color: Cor, icon: string)

  /** The rule shared by the balance and net-worth cards. */
  function TrendSinal(v: int): (t: Trend)
    ensures t == Up <==> v >= 0
    ensures t != Stable
  {
    if v >= 0 then Up else Down
  }

  /** The savings card's three bands. */
  function TrendPoupanca(taxa: real): (t: Trend)
    ensures t == Up <==> taxa >= 20.0
    ensures t == Stable <==> 10.0 <= taxa < 20.0
    ensures t == Down <==> taxa < 10.0
  {
    if taxa >= 20.0 then Up else if taxa >= 10.0 then Stable else Down
  }

  function KpiSaldoDe(saldo: int): Kpi {
    Kpi(KpiSaldo, "Saldo do Período", saldo as real,
        if saldo >= 0 then 0 else -1,
        TrendSinal(saldo),
        if saldo >= 0 then Verde else Vermelho,
        "DollarSign")
  }

  function KpiPoupancaDe(taxa: real): Kpi {
    Kpi(KpiPoupanca, "Taxa de Poupança", taxa,
        if taxa >= 20.0 then 1 else if taxa >= 10.0 then 0 else -1,
        TrendPoupanca(taxa),
        if taxa >= 20.0 then Verde else if taxa >= 10.0 then Amarelo else Vermelho,
        "Percent")
  }

  function KpiGastoDiarioDe(gasto: real): Kpi {
    Kpi(KpiGastoDiario, "Gasto Diário Médio", gasto, 0, Stable, Azul, "Calendar")
  }

  function KpiPatrimonioDe(patrimonio: int): Kpi {
    Kpi(KpiPatrimonio, "Patrimônio Líquido", patrimonio as real,
        if patrimonio >= 0 then 1 else -1,
        TrendSinal(patrimonio),
        if patrimonio >= 0 then Verde else Vermelho,
        "Wallet")
  }

  /** The four KPI cards, in their fixed order, from the loaded transactions
      and accounts and today's day of the month. */
  function CalculateKpis(lancamentos: seq<Lancamento>, contas: seq<Conta>, diaDoMes: int): (ks: seq<Kpi>)
    requires 1 <= diaDoMes <= 31
    ensures |ks| == 4
    ensures ks[0].kind == KpiSaldo && ks[1].kind == KpiPoupanca
    ensures ks[2].kind == KpiGastoDiario && ks[3].kind == KpiPatrimonio
    ensures ks[0].value == (Receitas(lancamentos) - Despesas(lancamentos)) as real
    ensures ks[2].value * (diaDoMes as real) == Despesas(lancamentos) as real
    ensures ks[3].value == PatrimonioLiquido(contas) as real
    ensures ks[1].value == TaxaPoupanca(Receitas(lancamentos), Despesas(lancamentos))
    ensures ks[0].trend == TrendSinal(Receitas(lancamentos) - Despesas(lancamentos))
    ensures ks[1].trend == TrendPoupanca(ks[1].value)
    ensures ks[2].trend == Stable
    ensures ks[3].trend == TrendSinal(PatrimonioLiquido(contas))
  {
    var receitas := Receitas(lancamentos);
    var despesas := Despesas(lancamentos);
    var saldo := receitas - despesas;
    [ KpiSaldoDe(saldo),
      KpiPoupancaDe(TaxaPoupanca(receitas, despesas)),
      KpiGastoDiarioDe(GastoDiarioMedio(despesas, diaDoMes)),
      KpiPatrimonioDe(PatrimonioLiquido(contas)) ]
  }

  /** Every card's colour follows its trend: green when up, red when down;
      the savings card is yellow when stable, the daily-spend card blue. */
  lemma KpiCorSegueTrend(lancamentos: seq<Lancamento>, contas: seq<Conta>, diaDoMes: int)
    requires 1 <= diaDoMes <= 31
    ensures forall k :: k in CalculateKpis(lancamentos, contas, diaDoMes) ==>
              (k.trend == Up <==> k.color == Verde) && (k.trend == Down <==> k.color == Vermelho)
    ensures forall k :: k in CalculateKpis(lancamentos, contas, diaDoMes) ==>
              k.change == (if k.kind == KpiSaldo && k.trend == Up then 0
                           else match k.trend case Up => 1 case Stable => 0 case Down => -1)
    ensures var ks := CalculateKpis(lancamentos, contas, diaDoMes);
            ks[1].trend == Stable ==> ks[1].color == Amarelo
    ensures CalculateKpis(lancamentos, contas, diaDoMes)[2].color == Azul
  {
  }

  // ---------------------------------------------------------------------
  // Financial summary
  // ---------------------------------------------------------------------

  datatype FinancialSummary = FinancialSummary(
    receitas: int, despesas: int, saldo: int,
    taxaPoupanca: real, gastoDiarioMedio: real, patrimonioLiquido: int)

  function ResumoFinanceiro(lancamentos: seq<Lancamento>, contas: seq<Conta>, diaDoMes: int): (s: FinancialSummary)
    requires 1 <= diaDoMes <= 31
    ensures s.saldo == s.receitas - s.despesas
    ensures s.receitas == SomaConfirmada(lancamentos, Receita)
    ensures s.despesas == SomaConfirmada(lancamentos, Despesa)
    ensures s.taxaPoupanca == TaxaPoupanca(s.receitas, s.despesas)
    ensures s.gastoDiarioMedio * (diaDoMes as real) == s.despesas as real
    ensures s.patrimonioLiquido == PatrimonioLiquido(contas)
  {
    var receitas := Receitas(lancamentos);
    var despesas := Despesas(lancamentos);
    FinancialSummary(receitas, despesas, receitas - despesas,
                     TaxaPoupanca(receitas, despesas),
                     GastoDiarioMedio(despesas, diaDoMes),
                     PatrimonioLiquido(contas))
  }

  /** The KPI cards and the summary agree on the four shared figures. */
  lemma KpisConcordamComResumo(lancamentos: seq<Lancamento>, contas: seq<Conta>, diaDoMes: int)
    requires 1 <= diaDoMes <= 31
    ensures var ks := CalculateKpis(lancamentos, contas, diaDoMes);
            var s := ResumoFinanceiro(lancamentos, contas, diaDoMes);
            && ks[0].value == s.saldo as real
            && ks[1].value == s.taxaPoupanca
            && ks[2].value == s.gastoDiarioMedio
            && ks[3].value == s.patrimonioLiquido as real
  {
  }

  // ---------------------------------------------------------------------
  // Insight cards
  // ---------------------------------------------------------------------

  datatype Insight = ExcelentePoupanca | OportunidadeMelhoria | GastoDiario

  function Insights(s: FinancialSummary): (r: seq<Insight>)
    ensures ExcelentePoupanca in r <==> s.taxaPoupanca >= 20.0
    ensures OportunidadeMelhoria in r <==> s.taxaPoupanca < 10.0 && s.receitas > 0
    ensures GastoDiario in r <==> s.gastoDiarioMedio > 0.0
  {
    (if s.taxaPoupanca >= 20.0 then [ExcelentePoupanca] else [])
    + (if s.taxaPoupanca < 10.0 && s.receitas > 0 then [OportunidadeMelhoria] else [])
    + (if s.gastoDiarioMedio > 0.0 then [GastoDiario] else [])
  }

  /** Without income neither savings card is shown, and the daily-spend card
      is shown exactly when confirmed expenses are positive. */
  lemma InsightsSemReceita(lancamentos: seq<Lancamento>, contas: seq<Conta>, diaDoMes: int)
    requires 1 <= diaDoMes <= 31
    ensures var s := ResumoFinanceiro(lancamentos, contas, diaDoMes);
            s.receitas <= 0 ==> ExcelentePoupanca !in Insights(s) && OportunidadeMelhoria !in Insights(s)
    ensures var s := ResumoFinanceiro(lancamentos, contas, diaDoMes);
            GastoDiario in Insights(s) <==> s.despesas > 0
  {
    var s := ResumoFinanceiro(lancamentos, contas, diaDoMes);
    var d := diaDoMes as real;
    assert s.gastoDiarioMedio * d == s.despesas as real;
    assert s.gastoDiarioMedio > 0.0 <==> s.gastoDiarioMedio * d > 0.0;
  }

  // ---------------------------------------------------------------------
  // Account list
  // ---------------------------------------------------------------------

  /** Share of the credit limit in use, for credit-card accounts with a
      truthy limit; 0 for every other account. */
  function UtilizacaoConta(c: Conta): (u: real)
    ensures !(c.tipo == CartaoCredito && Truthy(c.limiteCredito)) ==> u == 0.0
    ensures c.tipo == CartaoCredito && Truthy(c.limiteCredito) ==>
              u * (c.limiteCredito.value as real) == (Abs(c.saldoAtual) as real) * 100.0
  {
    if c.tipo == CartaoCredito && Truthy(c.limiteCredito)
    then (Abs(c.saldoAtual) as real / c.limiteCredito.value as real) * 100.0
    else 0.0
  }

  /** The utilisation threshold in terms of amounts: utilisation exceeds 80
      only for credit cards with a positive limit, and then exactly when the
      absolute balance exceeds 80% of the limit. */
  lemma UtilizacaoAcimaDe80(c: Conta)
    ensures UtilizacaoConta(c) > 80.0 <==>
              c.tipo == CartaoCredito && c.limiteCredito.Some? && c.limiteCredito.value > 0
              && 5 * Abs(c.saldoAtual) > 4 * c.limiteCredito.value
  {
    var u := UtilizacaoConta(c);
    if c.tipo == CartaoCredito && Truthy(c.limiteCredito) {
      var L := c.limiteCredito.value as real;
      var A := Abs(c.saldoAtual) as real;
      if L > 0.0 {
        LimiarDoQuociente(u, L, A * 100.0, 80.0);
      } else {
        ComparaPorFatorPositivo(u, 0.0, -L);
        assert u * -L == -(A * 100.0);
      }
    }
  }

  /** The limit warning shown on an account card. */
  function AlertaLimite(c: Conta): (alerta: bool)
    ensures alerta <==>
              c.tipo == CartaoCredito && c.limiteCredito.Some? && c.limiteCredito.value > 0
              && 5 * Abs(c.saldoAtual) > 4 * c.limiteCredito.value
  {
    UtilizacaoAcimaDe80(c);
    UtilizacaoConta(c) > 80.0
  }

  /** The account card list: the first five accounts, and whether the
      "see all" link is shown. */
  datatype ResumoContas = ResumoContas(visiveis: seq<Conta>, verTodas: bool)

  function ResumoDasContas(contas: seq<Conta>): (r: ResumoContas)
    ensures |r.visiveis| == if |contas| < 5 then |contas| else 5
    ensures r.visiveis == contas[..|r.visiveis|]
    ensures r.verTodas <==> |r.visiveis| < |contas|
  {
    var n := if |contas| < 5 then |contas| else 5;
    ResumoContas(contas[..n], |contas| > 5)
  }
}
