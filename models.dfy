/** The transaction and user records of backend/models/transaction.py. */
module Models {
  import opened Wrappers
  import opened Decimals
  import opened PyValues

  /** `TransactionType(str, Enum)`: expense = "despesa", income = "ganho". */
  datatype TransactionType = Expense | Income {
    function Value(): string {
      match this
      case Expense => "despesa"
      case Income => "ganho"
    }
  }

  /** `TransactionType(s)`: the member whose value is `s`, if any. */
  function TransactionTypeOf(s: string): (r: Option<TransactionType>)
    ensures r.Some? <==> s == "despesa" || s == "ganho"
    ensures r.Some? ==> r.value.Value() == s
  {
    if s == "despesa" then Some(Expense) else if s == "ganho" then Some(Income) else None
  }

  /** The enum has exactly two members, with distinct values that name them back. */
  lemma TransactionTypeMembers(t: TransactionType)
    ensures t == Expense || t == Income
    ensures TransactionTypeOf(t.Value()) == Some(t)
    ensures Expense.Value() != Income.Value()
  {
  }

  /**
   * A `datetime`: an instant and whether it carries a time zone. Comparing an aware with a
   * naive datetime raises TypeError in Python.
   */
  datatype Date = Date(stamp: int, aware: bool)

  predicate Comparable(a: Date, b: Date) {
    a.aware == b.aware
  }

  /**
   * The date functions of the standard library the core calls: `isoformat`, `fromisoformat`
   * and `strptime(s, '%Y-%m-%d')`; each parse yields None where Python raises ValueError.
   */
  datatype Calendar = Calendar(
    isoformat: Date -> string,
    fromIsoformat: string -> Option<Date>,
    strptimeYmd: string -> Option<Date>)

  /** `TransactionBase` and `TransactionCreate`: a draft; `data` is optional. */
  datatype TransactionBase = TransactionBase(
    descricao: string,
    valor: Decimal,
    tipo: TransactionType,
    categoria: string,
    data: Option<Date>)

  type TransactionCreate = TransactionBase

  /** `Transaction`: a stored transaction, with a mandatory date and its owners. */
  datatype Transaction = Transaction(
    id: string,
    descricao: string,
    valor: Decimal,
    tipo: TransactionType,
    categoria: string,
    data: Date,
    spreadsheetId: string,
    userId: string)

  /** `User`: the spreadsheet id is None until one is provisioned. */
  datatype User = User(id: string, email: string, spreadsheetId: Option<string>)

  /** `Summary` with its untyped `detalhes` list of dicts. */
  datatype Summary = Summary(
    totalGanhos: real,
    totalDespesas: real,
    saldo: real,
    detalhes: seq<map<string, Value>>)
}
