# Personal-finance dashboard and credit-card statement: a Dafny model

This project models the computational core of a personal-finance web app.
It covers two components: the main dashboard and the credit-card statement
("fatura") page. The model states their behaviour as Dafny definitions and
proves properties about them.

- **Dashboard** (`dashboard.dfy`, module `Dashboard`). This covers:
  - the period selector (month, quarter or year up to today);
  - confirmed income and expenses;
  - the period balance, savings rate and average daily spend;
  - net worth, where credit cards count as debt;
  - the four KPI cards with their trend and colour rules;
  - the memoised financial summary and the insight cards it drives;
  - the account list, with its utilisation alert and the "see all" link.
- **Expenses by category** (`grafico_pizza.dfy`, module `GraficoPizza`). This is the pie chart's data. It:
  - selects the confirmed expenses;
  - drops expenses whose category is unknown;
  - accumulates one group per category in an object that is updated in place;
  - attaches each group's percentage of the total;
  - sorts by value, descending and stable;
  - keeps the first six groups.

  The accumulation is an imperative method over a map. Its loop is proved equal to a functional specification. The sort, the truncation, the grouping and the percentages are each proved separately.
- **Payment amount** (`valor_pagamento.dfy`, module `ValorPagamento`). The typed amount is normalised in three steps:
  1. every character that is not a digit or a comma is removed;
  2. the first comma becomes a point;
  3. the leading decimal literal is read.

  The module proves what each step keeps. The page displays amounts with `formatCurrency`, which is not part of this model; the model assumes it writes the pt-BR form: an `R$ ` prefix, points between thousands, a comma and exactly two decimals. Under that assumption, an amount typed as displayed, for example `R$ 1.234,56`, reads back as that value. No single lemma states this; it follows from three:
  - `ValorPagamento.ValorComoExibido` covers the digits, the comma and the two decimals;
  - `ValorPagamento.PrefixoIgnorado` covers the prefix;
  - `ValorPagamento.IgnoraOutrosCaracteres` covers the thousands points.

  `ValorPagamento.ValorDoLiteral` gives the value of any literal made of digits, a comma and digits. Either run of digits may be empty, so `,50` reads as 0.50.
- **Statement page** (`fatura.dfy`, module `Fatura`). This covers:
  - the list of credit-capable accounts and the default selection;
  - the statement total, limit utilisation and available limit;
  - the utilisation bar and its colour bands;
  - the page state as a class, `FaturaCartao`, with the account and statement loads, the filters, and the payment modal with its submit handler.
- **Shared records** (`types.dfy`, module `Types`): transactions, accounts and categories.

Money is held in integer centavos. Percentages and rates are exact reals. Dates are (year, month, day) triples. Today's date is a parameter. The results of the database service are parameters too: `Option` values, where `None` stands for a call that failed.

Points where the code behaves in a way a reader might not expect, which the model follows:
- Net worth: the code treats an account as debt when its kind is `CARTAO_CREDITO`, not when it has a credit limit.
- Savings rate: the code guards with `receitas > 0`, so a negative income also gives 0.
- Statement utilisation: the code shows 0 for an account without a truthy limit.
- Payment submit: the code only checks that the source account and the amount string are non-empty. A zero or unparseable amount still reaches the payment call. A minus sign is removed with the other characters, so a typed negative amount reaches the call as its absolute value, never as a negative number. `ValorPagamento.ZeroAceito`, `ValorPagamento.SemDigitosSemValor`, `ValorPagamento.PrefixoIgnorado` and `ValorPagamento.ValorNormalizado` state this, together with `Fatura.FaturaCartao.PagarFatura`.

## Model

| member | source | states |
|---|---|---|
| Dashboard.FirstOfMonth | src/components/Dashboard/EnhancedDashboard.tsx:56 | `new Date(y, m, 1)` with a month index outside 0..11 carries into the year: the result is a valid first-of-month exactly `y*12+m` months after year 0 |
| Dashboard.ResolvePeriodo | src/components/Dashboard/EnhancedDashboard.tsx:54-65 | the window ends today and starts on a first of month: January 1 for "year", three months back for "quarter", the current month for anything else |
| Dashboard.PeriodoBemFormado | src/components/Dashboard/EnhancedDashboard.tsx:54-65 | the window never starts after today; the quarter window starts in the previous year exactly when today is in January to March |
| Dashboard.SomaConfirmadaConcat | src/components/Dashboard/EnhancedDashboard.tsx:98-104 | the confirmed sum of a kind distributes over concatenation of transaction lists |
| Dashboard.SomaIgnoraNaoConfirmados | src/components/Dashboard/EnhancedDashboard.tsx:98-104 | inserting a pending, cancelled or other-kind transaction anywhere leaves income and expenses unchanged |
| Dashboard.SomaConfirmadaLimites | src/components/Dashboard/EnhancedDashboard.tsx:98-104 | with non-negative amounts, a confirmed sum lies between 0 and the sum of all amounts |
| Dashboard.ContribuicaoPatrimonio | src/components/Dashboard/EnhancedDashboard.tsx:114-119 | a credit card contributes its balance or minus its balance, whichever is not positive (minus its absolute balance); any other account contributes exactly its balance |
| Dashboard.PatrimonioConcat | src/components/Dashboard/EnhancedDashboard.tsx:114-119 | net worth distributes over concatenation of account lists |
| Dashboard.PatrimonioPermutacao | src/components/Dashboard/EnhancedDashboard.tsx:114-119 | net worth is the same for any reordering of the accounts |
| Dashboard.PatrimonioAteSomaSaldos | src/components/Dashboard/EnhancedDashboard.tsx:114-119 | net worth is at most the plain sum of balances, with equality when no account is a credit card |
| Dashboard.TaxaPoupanca | src/components/Dashboard/EnhancedDashboard.tsx:107 | exactly 0 when income is not positive; otherwise rate times income equals (income - expenses) * 100 |
| Dashboard.TaxaPoupancaFaixas | src/components/Dashboard/EnhancedDashboard.tsx:133-135 | with positive income the rate reaches 20% iff expenses are at most 80% of income, 10% iff at most 90%, and never exceeds 100% with non-negative expenses |
| Dashboard.GastoDiarioMedio | src/components/Dashboard/EnhancedDashboard.tsx:110-111 | the average times today's day of month gives back the expenses; with non-negative expenses it lies between 0 and the expenses |
| Dashboard.TrendSinal | src/components/Dashboard/EnhancedDashboard.tsx:126 | "up" iff the value is non-negative, never "stable" |
| Dashboard.TrendPoupanca | src/components/Dashboard/EnhancedDashboard.tsx:134 | "up" iff rate >= 20, "stable" iff 10 <= rate < 20, "down" iff rate < 10 |
| Dashboard.CalculateKpis | src/components/Dashboard/EnhancedDashboard.tsx:95-155 | exactly four cards in the order balance, savings, daily spend, net worth; they hold the balance, the savings rate of `TaxaPoupanca`, the daily average and the net worth; balance and net worth take the sign trend of `TrendSinal` ("up" iff non-negative, otherwise "down"), savings the banded trend of `TrendPoupanca` (up from 20, stable from 10, down below), daily spend is always "stable" |
| Dashboard.KpiCorSegueTrend | src/components/Dashboard/EnhancedDashboard.tsx:121-154 | on every card the colour is green iff the trend is up and red iff it is down, and the change figure is fixed by kind and trend; the savings card is yellow when stable and the daily-spend card is always blue |
| Dashboard.ResumoFinanceiro | src/components/Dashboard/EnhancedDashboard.tsx:157-187 | income and expenses are the confirmed sums, balance is their difference, the rate is the savings rate of `TaxaPoupanca` (0 without positive income, otherwise the saved share times 100), the daily average times the day gives back the expenses, net worth is `PatrimonioLiquido` of the accounts |
| Dashboard.KpisConcordamComResumo | src/components/Dashboard/EnhancedDashboard.tsx:157-187 | the KPI cards and the memoised summary carry the same balance, savings rate, daily spend and net worth for the same inputs |
| Dashboard.Insights | src/components/Dashboard/EnhancedDashboard.tsx:349-383 | the "excellent savings" card shows iff rate >= 20, "room for improvement" iff rate < 10 with positive income, the daily-spend card iff the average is positive |
| Dashboard.InsightsSemReceita | src/components/Dashboard/EnhancedDashboard.tsx:349-383 | without income neither savings card shows; the daily-spend card shows iff confirmed expenses are positive |
| Dashboard.UtilizacaoConta | src/components/Dashboard/EnhancedDashboard.tsx:479-482 | 0 unless the account is a credit card with a truthy limit; then utilisation times the limit is 100 times the absolute balance |
| Dashboard.UtilizacaoAcimaDe80 | src/components/Dashboard/EnhancedDashboard.tsx:479-483 | utilisation exceeds 80 iff the account is a credit card with a positive limit and 5 * abs(balance) > 4 * limit |
| Dashboard.AlertaLimite | src/components/Dashboard/EnhancedDashboard.tsx:479-483 | the limit alert fires only for a credit card with a positive limit, and then exactly when the absolute balance is more than 80% of the limit |
| Dashboard.ResumoDasContas | src/components/Dashboard/EnhancedDashboard.tsx:478-522 | the list shows the first min(5, n) accounts in order, and the "see all" link appears iff some account is not shown |
| GraficoPizza.DespesasConfirmadas | src/components/Dashboard/EnhancedDashboard.tsx:190 | a transaction is kept iff it is a confirmed expense; the result is no longer than the input and equals it when every transaction is a confirmed expense |
| GraficoPizza.DespesasConfirmadasConcat | src/components/Dashboard/EnhancedDashboard.tsx:190 | the filter distributes over concatenation, so it keeps the original order |
| GraficoPizza.DespesasConfirmadasMultiplicidade | src/components/Dashboard/EnhancedDashboard.tsx:190 | each confirmed expense is kept as many times as it occurs; nothing else is kept |
| GraficoPizza.TotalDoGraficoSaoAsDespesas | src/components/Dashboard/EnhancedDashboard.tsx:190-191 | the chart's total equals the dashboard's confirmed-expense figure |
| GraficoPizza.FindCategoria | src/components/Dashboard/EnhancedDashboard.tsx:196 | no result iff no category has the id; a result is a category with that id |
| GraficoPizza.FindCategoriaPrimeira | src/components/Dashboard/EnhancedDashboard.tsx:196 | the category found is the first one with the id: every category before it has another id |
| GraficoPizza.IndiceDoGrupo | src/components/Dashboard/EnhancedDashboard.tsx:199 | the position of the first group with the id, or the length when there is none |
| GraficoPizza.AgruparIds | src/components/Dashboard/EnhancedDashboard.tsx:195-209 | one group per distinct known category id used by some expense, with no id twice, so expenses of unknown category form no group |
| GraficoPizza.AgruparCategorias | src/components/Dashboard/EnhancedDashboard.tsx:199-205 | each group carries the name and colour of its category |
| GraficoPizza.AgruparValores | src/components/Dashboard/EnhancedDashboard.tsx:207 | each group's value is the sum of its category's expenses |
| GraficoPizza.AgruparSoma | src/components/Dashboard/EnhancedDashboard.tsx:195-209 | the groups together add up to the expenses whose category is known |
| GraficoPizza.PrimeiraOcorrencia | src/components/Dashboard/EnhancedDashboard.tsx:195-209 | the position of the first expense of a category, or the length when there is none |
| GraficoPizza.PrimeiraOcorrenciaAcrescimo | src/components/Dashboard/EnhancedDashboard.tsx:195-209 | appending an expense moves no first occurrence already seen |
| GraficoPizza.AcrescentarMesmosIds | src/components/Dashboard/EnhancedDashboard.tsx:195-209 | one step keeps every group's id in place and appends at most one group, for a known category not yet grouped |
| GraficoPizza.NovaCategoriaAusente | src/components/Dashboard/EnhancedDashboard.tsx:195-209 | a known category not yet grouped is used by no earlier expense |
| GraficoPizza.AgruparOrdem | src/components/Dashboard/EnhancedDashboard.tsx:195-209 | the groups come in first-encounter order: each group's category occurs among the expenses, and an earlier group's category first occurs earlier |
| GraficoPizza.ParaFatia | src/components/Dashboard/EnhancedDashboard.tsx:212-215 | a slice keeps its group's name, value and colour, and its percentage times the total is 100 times its value |
| GraficoPizza.ComPorcentagem | src/components/Dashboard/EnhancedDashboard.tsx:211-215 | one slice per group, in the same order, keeping the group's name, value and colour; each slice's percentage times the total equals its value times 100 |
| GraficoPizza.SomaPorcentagensProporcional | src/components/Dashboard/EnhancedDashboard.tsx:214 | the percentages add up to the groups' sum as a percentage of the total |
| GraficoPizza.SomaPorcentagensDeFatias | src/components/Dashboard/EnhancedDashboard.tsx:214 | for any slices that each carry their share of one total, the shares add up to the share of their summed values |
| GraficoPizza.ValoresDasFatias | src/components/Dashboard/EnhancedDashboard.tsx:211-215 | the slices' values add up to the groups' values |
| GraficoPizza.PorcentagensAte100 | src/components/Dashboard/EnhancedDashboard.tsx:214 | groups adding up to at most a positive total have percentages adding up to at most 100 |
| GraficoPizza.InserirDesc | src/components/Dashboard/EnhancedDashboard.tsx:216 | inserting adds exactly the one slice |
| GraficoPizza.InserirMantemOrdem | src/components/Dashboard/EnhancedDashboard.tsx:216 | inserting into a list sorted by decreasing value keeps it sorted |
| GraficoPizza.InserirEstavel | src/components/Dashboard/EnhancedDashboard.tsx:216 | the inserted slice lands after every slice of equal value, the others of that value keeping their order |
| GraficoPizza.OrdenarDesc | src/components/Dashboard/EnhancedDashboard.tsx:216 | the sort is a permutation of its input |
| GraficoPizza.OrdenarDescOrdenado | src/components/Dashboard/EnhancedDashboard.tsx:216 | the sort yields non-increasing values |
| GraficoPizza.OrdenarDescEstavel | src/components/Dashboard/EnhancedDashboard.tsx:216 | slices of equal value keep their relative order |
| GraficoPizza.OrdenarDescCorreto | src/components/Dashboard/EnhancedDashboard.tsx:216 | the sort is sorted, a permutation and stable |
| GraficoPizza.PrefixoDeOrdenado | src/components/Dashboard/EnhancedDashboard.tsx:216-217 | a prefix of a sorted sequence is sorted, is a sub-multiset, and every slice left out is no larger than any kept |
| GraficoPizza.PorcentagemDasFatias | src/components/Dashboard/EnhancedDashboard.tsx:214 | any selection of slices carries percentages of the same total |
| GraficoPizza.ComValorPrefixo | src/components/Dashboard/EnhancedDashboard.tsx:216 | cutting a prefix keeps a prefix of the slices of each value |
| GraficoPizza.GraficoPizzaEstavel | src/components/Dashboard/EnhancedDashboard.tsx:189-218 | the shown slices of each value are a prefix of that value's slices in first-encounter order |
| GraficoPizza.GraficoPizzaMaiores | src/components/Dashboard/EnhancedDashboard.tsx:189-218 | empty when confirmed expenses sum to 0; otherwise min(6, number of groups) slices, sorted, drawn from the groups, no omitted slice larger than a kept one, each with its percentage of the expenses |
| GraficoPizza.GraficoPizzaCorreto | src/components/Dashboard/EnhancedDashboard.tsx:189-218 | everything `GraficoPizzaMaiores` states, and slices of equal value appear in first-encounter order (a prefix of that value's slices before sorting) |
| GraficoPizza.SomaDosGrupos | src/components/Dashboard/EnhancedDashboard.tsx:191-209 | with non-negative amounts the groups sum to at most the total, with equality when every expense's category is known |
| GraficoPizza.SomaConhecidasAteTotal | src/components/Dashboard/EnhancedDashboard.tsx:191-209 | with non-negative amounts the known-category expenses sum to at most the total, with equality when all are known |
| GraficoPizza.Valores | src/components/Dashboard/EnhancedDashboard.tsx:211 | the accumulator's groups in key-insertion order |
| GraficoPizza.ValoresNovaChave | src/components/Dashboard/EnhancedDashboard.tsx:199-205 | a new key gets a zero group placed last in insertion order |
| GraficoPizza.ValoresSomaNaChave | src/components/Dashboard/EnhancedDashboard.tsx:207 | adding to an existing key changes only that key's group, in place |
| GraficoPizza.ValoresAtualizados | src/components/Dashboard/EnhancedDashboard.tsx:207 | replacing the group at an existing key keeps the keys valid and replaces that group at its key's position, nothing else |
| GraficoPizza.PassoNovaChave | src/components/Dashboard/EnhancedDashboard.tsx:199-207 | the first expense of a category does to the accumulator what the grouping specification does to the group list |
| GraficoPizza.PassoChaveExistente | src/components/Dashboard/EnhancedDashboard.tsx:207 | a later expense of a category does to the accumulator what the grouping specification does |
| GraficoPizza.PassoDoAcumulador | src/components/Dashboard/EnhancedDashboard.tsx:195-209 | one pass of the reduce callback for a known category refines one step of the grouping specification |
| GraficoPizza.AgruparPasso | src/components/Dashboard/EnhancedDashboard.tsx:195-209 | grouping one more expense is one more grouping step |
| GraficoPizza.AgruparDespesas | src/components/Dashboard/EnhancedDashboard.tsx:195-209 | the accumulation loop, with its map updated in place, yields exactly the groups of `Agrupar`, in first-seen order |
| GraficoPizza.DadosGraficoPizza | src/components/Dashboard/EnhancedDashboard.tsx:189-218 | the method, with its accumulator updated in place, returns exactly the chart specified by `GraficoPizza` |
| ValorPagamento.SomenteDigitosEVirgulas | src/components/FaturaCartao/FaturaCartao.tsx:78 | the result is no longer than the input and holds only digits and commas; an input of only digits and commas is unchanged |
| ValorPagamento.SomenteDigitosEVirgulasConcat | src/components/FaturaCartao/FaturaCartao.tsx:78 | the removal works character by character: it distributes over concatenation |
| ValorPagamento.DigitosPreservados | src/components/FaturaCartao/FaturaCartao.tsx:78 | the removal keeps every digit, in order |
| ValorPagamento.PrimeiraVirgula | src/components/FaturaCartao/FaturaCartao.tsx:78 | the index of the first comma, or the length when there is none |
| ValorPagamento.PrimeiraVirgulaParaPonto | src/components/FaturaCartao/FaturaCartao.tsx:78 | the string unchanged without a comma; otherwise exactly the first comma replaced by a point |
| ValorPagamento.VirgulaAposDigitos | src/components/FaturaCartao/FaturaCartao.tsx:78 | after a run of digits the comma that follows is the one replaced |
| ValorPagamento.DigitosIniciais | src/components/FaturaCartao/FaturaCartao.tsx:78 | the length of the maximal run of leading digits |
| ValorPagamento.LerDecimal | src/components/FaturaCartao/FaturaCartao.tsx:78 | no number (NaN) iff the string does not begin with a digit or with a point followed by a digit; a number read is never negative |
| ValorPagamento.LerInteiro | src/components/FaturaCartao/FaturaCartao.tsx:78 | a run of digits reads as the integer it denotes |
| ValorPagamento.LerComFracao | src/components/FaturaCartao/FaturaCartao.tsx:78 | digits, a point and digits read as integer part plus fraction, either run of digits possibly empty but not both, and whatever follows a non-digit is ignored |
| ValorPagamento.NormalizadoAposReescritas | src/components/FaturaCartao/FaturaCartao.tsx:78 | after both rewrites only digits, commas and points remain |
| ValorPagamento.ValorNormalizado | src/components/FaturaCartao/FaturaCartao.tsx:78 | the parsed amount is never negative |
| ValorPagamento.ValorIndefinido | src/components/FaturaCartao/FaturaCartao.tsx:78 | the amount is NaN exactly when nothing is left after the removal, or what is left starts with a comma not followed by a digit |
| ValorPagamento.SemDigitosSemValor | src/components/FaturaCartao/FaturaCartao.tsx:78 | an amount string with no digit gives NaN |
| ValorPagamento.IgnoraOutrosCaracteres | src/components/FaturaCartao/FaturaCartao.tsx:78 | characters other than digits and commas make no difference wherever they occur |
| ValorPagamento.DigitosDe | src/components/FaturaCartao/FaturaCartao.tsx:78 | the numeral of n is non-empty, all digits, and reads back as n |
| ValorPagamento.Centavos | src/components/FaturaCartao/FaturaCartao.tsx:78 | two digits reading as the amount modulo 100 |
| ValorPagamento.ReescritaLiteral | src/components/FaturaCartao/FaturaCartao.tsx:78 | the rewrites keep a literal of digits, a comma and digits, and turn its comma into the decimal point |
| ValorPagamento.ValorDoLiteral | src/components/FaturaCartao/FaturaCartao.tsx:78 | a typed literal of digits, a comma and digits, with at least one digit in all, pays its integer part plus its fraction; either part may be empty, so ",50" pays 0.50 |
| ValorPagamento.ReescritaComoExibido | src/components/FaturaCartao/FaturaCartao.tsx:78 | the rewrites turn a displayed amount into its digits with a point before the centavos |
| ValorPagamento.ValorComoExibido | src/components/FaturaCartao/FaturaCartao.tsx:78 | an amount typed as displayed reads back as exactly that amount |
| ValorPagamento.PrefixoIgnorado | src/components/FaturaCartao/FaturaCartao.tsx:78 | a currency prefix or minus sign before the amount is ignored, so "-R$ 5,00" pays 5.00 |
| ValorPagamento.ZeroAceito | src/components/FaturaCartao/FaturaCartao.tsx:78 | a displayed amount reads as 0 exactly when it is zero; the submit guard tests only for an empty field, so that 0 is what the call receives |
| Fatura.ContasComCredito | src/components/FaturaCartao/FaturaCartao.tsx:35 | an account is listed iff it has a present, positive limit; never longer than the input; unchanged when every account qualifies |
| Fatura.ContasComCreditoConcat | src/components/FaturaCartao/FaturaCartao.tsx:35 | the filter distributes over concatenation, so it keeps the original order |
| Fatura.ContaAtual | src/components/FaturaCartao/FaturaCartao.tsx:104 | none iff no account has the id; otherwise the first account with that id |
| Fatura.ContaAtualTemCredito | src/components/FaturaCartao/FaturaCartao.tsx:104 | an account found in the filtered list has a positive limit |
| Fatura.TotalIgnoraStatus | src/components/FaturaCartao/FaturaCartao.tsx:103 | the statement total does not change when an item's status changes |
| Fatura.TotalCobreDespesasConfirmadas | src/components/FaturaCartao/FaturaCartao.tsx:103 | with non-negative amounts the statement total is at least the confirmed expenses among its items |
| Fatura.Utilizacao | src/components/FaturaCartao/FaturaCartao.tsx:105 | 0 without a found account with a truthy limit; otherwise utilisation times the limit is 100 times the total |
| Fatura.LimiteDisponivel | src/components/FaturaCartao/FaturaCartao.tsx:206 | available plus total is the limit, with no clamping at zero |
| Fatura.UtilizacaoEmValores | src/components/FaturaCartao/FaturaCartao.tsx:105 | with a positive limit L and total T: utilisation > 60 iff 5T > 3L, > 80 iff 5T > 4L, > 100 iff T > L iff available < 0, and = 100 iff available = 0 |
| Fatura.LarguraBarra | src/components/FaturaCartao/FaturaCartao.tsx:225 | the bar is the utilisation capped at 100 |
| Fatura.CorUtilizacao | src/components/FaturaCartao/FaturaCartao.tsx:211 | red iff utilisation > 80, yellow iff in (60, 80], green iff <= 60 |
| Fatura.CorMonotona | src/components/FaturaCartao/FaturaCartao.tsx:222-224 | a higher utilisation never shows a milder colour |
| Fatura.ExemploCartao85 | src/components/FaturaCartao/FaturaCartao.tsx:195-228 | limit 1,000.00 and total 850.00 give 85% used, red, bar at 85, 150.00 available |
| Fatura.TelaAtual | src/components/FaturaCartao/FaturaCartao.tsx:107-123 | the spinner iff loading with no accounts, the "no credit account" message iff not loading with no accounts |
| Fatura.FaturaCartao.constructor | src/components/FaturaCartao/FaturaCartao.tsx:8-19 | no accounts, nothing selected, the current month up to today, loading, an empty closed form |
| Fatura.FaturaCartao.CarregarContas | src/components/FaturaCartao/FaturaCartao.tsx:31-50 | on success the list is the credit-capable accounts and the first is selected if any; on failure nothing but loading changes; loading ends |
| Fatura.FaturaCartao.CarregarFatura | src/components/FaturaCartao/FaturaCartao.tsx:52-68 | with no selection nothing happens; otherwise the statement of the selected account and period is requested and, if it arrives, replaces the shown one; loading ends |
| Fatura.FaturaCartao.SelecionarConta | src/components/FaturaCartao/FaturaCartao.tsx:142 | the selection becomes the chosen id, nothing else changes |
| Fatura.FaturaCartao.AlterarInicio | src/components/FaturaCartao/FaturaCartao.tsx:160 | only the period's start changes |
| Fatura.FaturaCartao.AlterarFim | src/components/FaturaCartao/FaturaCartao.tsx:172 | only the period's end changes |
| Fatura.FaturaCartao.AbrirPagamento | src/components/FaturaCartao/FaturaCartao.tsx:180-186 | the form opens only when the selected account is found and the total is positive; with only credit accounts listed, the account it opens for has a positive limit |
| Fatura.FaturaCartao.CancelarPagamento | src/components/FaturaCartao/FaturaCartao.tsx:352 | the form closes and keeps its contents |
| Fatura.FaturaCartao.EscolherContaOrigem | src/components/FaturaCartao/FaturaCartao.tsx:309 | only the source account changes |
| Fatura.FaturaCartao.DigitarValor | src/components/FaturaCartao/FaturaCartao.tsx:328 | only the amount text changes |
| Fatura.FaturaCartao.MarcarParcial | src/components/FaturaCartao/FaturaCartao.tsx:342 | only the partial flag changes |
| Fatura.FaturaCartao.PagarFatura | src/components/FaturaCartao/FaturaCartao.tsx:70-101 | an empty source or amount means no call and no state change; otherwise one call with the currently selected card, the source, the normalised amount, the current period and the partial flag; success clears and closes the form and reloads the statement; failure keeps form and statement; loading ends |

## Left out

- The database and authentication services are outside the model: `getContas`, `getFaturaCartao`, `pagarFatura`, `getLancamentos` and the rest. Their outcomes are parameters. What paying does to balances, and the meaning of full versus partial payment, are not visible in this code.
- The sign-out on an unauthenticated error is not modelled. In the account load this branch still ends loading, as the model's failure case does.
- Asynchronous scheduling is not modelled: `Promise.all`, when `useEffect` and `useMemo` run, and React's batching of state updates. The load that `useEffect` triggers on a selection or period change is `CarregarFatura`, which its caller invokes.
- `alert` and `console` output, JSX, CSS classes and the icon lookup are not modelled.
- `loadDashboardData` as a whole is not modelled; its computations are. The goals and budgets it loads are displayed, never aggregated.
- `FinancialSummary`'s extra declared fields are never computed by this code.
- Dashboard.ResolvePeriodo: `toISOString` formatting and time zones are not modelled. Dates are exact calendar triples.
- Dashboard.TaxaPoupanca, Dashboard.GastoDiarioMedio, Fatura.Utilizacao and GraficoPizza.ParaFatia use exact reals and integer centavos, not IEEE doubles. `toFixed(1)` display rounding and `formatCurrency` are not modelled.
- An account's `saldo_atual` is always present in this model. An undefined balance turning a sum into NaN is not modelled.
- GraficoPizza.Valores gives the groups in key-insertion order. `Object.values` puts integer-like keys first, in numeric order. Category ids are declared only as strings; the model assumes they are UUIDs. That rules out integer-like ids, which `Object.values` would list first, and names inherited from `Object.prototype` such as `constructor` or `toString`, which the `acc[key]` lookup would find before any group was stored, so the first expense of such a category would not start a fresh group.
- GraficoPizza.OrdenarDesc is a stable insertion sort written as a function. The source calls the library `sort` with the comparator `b.valor - a.valor`, whose result is specified to be stable.
- ValorPagamento.LerDecimal reads only strings made of digits, commas and points, which is all the earlier rewrite leaves. Whitespace, signs, exponents and `Infinity` never reach it.
- ValorPagamento.ValorNormalizado maps `NaN` to `None`. The call still happens with `NaN`, as `Fatura.FaturaCartao.PagarFatura` states.
- The payment form offers the listed credit accounts, or nothing, as the source account. The model accepts any id.
- The pay button is disabled while loading. The model does not impose this on `PagarFatura`'s caller.
