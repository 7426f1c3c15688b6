/** Records shared by the dashboard and the credit-statement view
    (src/types/index.ts). Money is held in integer cents; dates are
    (year, month, day) triples with month in 1..12. */
module Types {

  datatype Option<+T> = None | Some(value: T)

  datatype Date = Date(year: int, month: int, day: int)

  /** A calendar date as the rest of the model expects it: month in 1..12,
      day in 1..31. */
  predicate ValidDate(d: Date) {
    1 <= d.month <= 12 && 1 <= d.day <= 31
  }

  /** Lexicographic order on (year, month, day). */
  predicate DateLe(a: Date, b: Date) {
    a.year < b.year
    || (a.year == b.year && a.month < b.month)
    || (a.year == b.year && a.month == b.month && a.day <= b.day)
  }

  datatype Categoria = Categoria(id: string, nome: string, cor: string)

  /** Account kinds; `CartaoCredito` is tested by the dashboard although the
      declared union leaves it out. */
  datatype TipoConta = Corrente | Poupanca | Investimento | Carteira | CartaoCredito

  datatype Conta = Conta(
    id: string,
    nome: string,
    tipo: TipoConta,
    saldoInicial: int,
    saldoAtual: int,
    limiteCredito: Option<int>)

  datatype TipoLancamento = Receita | Despesa | GrupoParcelas

  datatype Status = Pendente | Confirmado | Cancelado

  datatype Lancamento = Lancamento(
    id: string,
    descricao: string,
    valor: int,
    data: Date,
    tipo: TipoLancamento,
    contaId: string,
    categoriaId: string,
    status: Status,
    cartaoCreditoUsado: Option<string>)

  /** JavaScript truthiness of an optional number: present and non-zero. */
  predicate Truthy(x: Option<int>) {
    x.Some? && x.value != 0
  }

  /** Concatenation is associative. */
  lemma Associativa<T>(a: seq<T>, b: seq<T>, c: seq<T>)
    ensures a + (b + c) == (a + b) + c
  {
  }

  /** `Math.abs` on an integer amount. */
  function Abs(x: int): (r: int)
    ensures r >= 0 && (r == x || r == -x)
  {
    if x < 0 then -x else x
  }
}
