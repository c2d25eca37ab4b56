/**
 * `GoogleSheetsService` of backend/services/google_sheets_service.py: provisioning of a user's
 * spreadsheet, the row written for a transaction, reading a tab without its header, and the two
 * folds over the rows read back (totals and the per-category breakdown).
 */
module SheetsService {
  import opened Wrappers
  import opened Text
  import opened Seqs
  import opened Decimals
  import opened Models
  import opened Sheets

  const TITLE_PREFIX: string := "Fynace - Finanças de "

  /** `f"Fynace - Finanças de {user_email.split('@')[0]}"` */
  function SpreadsheetTitle(email: string): (r: string)
    ensures |r| >= |TITLE_PREFIX| && r[..|TITLE_PREFIX|] == TITLE_PREFIX
    ensures var user := r[|TITLE_PREFIX|..];
      && |user| <= |email| && user == email[..|user|]
      && '@' !in user
      && (|user| < |email| ==> email[|user|] == '@')
  {
    var user := BeforeFirst(email, '@');
    assert (TITLE_PREFIX + user)[|TITLE_PREFIX|..] == user;
    TITLE_PREFIX + user
  }

  /** The tab a transaction of this type is written to. */
  function TabOf(tipo: TransactionType): (r: string)
    ensures r == DESPESAS <==> tipo.Expense?
    ensures r == GANHOS <==> tipo.Income?
  {
    assert DESPESAS != GANHOS by { assert DESPESAS[0] != GANHOS[0]; }
    if tipo == Expense then DESPESAS else GANHOS
  }

  /**
   * The five cells written for a transaction: its ISO date (or now's when it has none), the
   * description, the category, the amount and the capitalised type value.
   */
  function TransactionRow(t: TransactionCreate, now: Date, cal: Calendar): (r: Row)
    ensures |r| == 5 && ColumnsAE(r) == r
    ensures r[0] == cal.isoformat(if t.data.Some? then t.data.value else now)
    ensures r[1] == t.descricao && r[2] == t.categoria && r[3] == DecimalText(t.valor)
    ensures r[4] == (if t.tipo == Expense then "Despesa" else "Ganho")
  {
    [cal.isoformat(if t.data.Some? then t.data.value else now), t.descricao, t.categoria,
     DecimalText(t.valor), Capitalize(t.tipo.Value())]
  }

  /** Reading from row 2 on skips exactly the header row. */
  lemma WindowSkipsHeader(header: Row, rows: seq<Row>)
    ensures Window([header] + rows, 1) == Window(rows, 0)
  {
    var l, r := Window([header] + rows, 1), Window(rows, 0);
    assert |l| == |r|;
    forall i | 0 <= i < |l| ensures l[i] == r[i] {
      assert ([header] + rows)[1 + i] == rows[i];
    }
  }

  // ---------------------------------------------------------------------------------------
  // Totals

  /** The `get_summary` filter: more than 3 cells and a numeric amount cell. */
  predicate Counted(row: Row) {
    |row| > 3 && IsNumericCell(row[3])
  }

  /** What one row adds to a total. */
  function Contribution(row: Row): (r: real)
    ensures r >= 0.0
    ensures !Counted(row) ==> r == 0.0
  {
    if Counted(row) then CellNumber(row[3]) else 0.0
  }

  /** `sum(float(row[3]) for row in rows if ...)` */
  function SumAmounts(rows: seq<Row>): (r: real)
    ensures r >= 0.0
  {
    if rows == [] then 0.0 else SumAmounts(rows[..|rows| - 1]) + Contribution(rows[|rows| - 1])
  }

  lemma {:induction false} SumAmountsAppend(a: seq<Row>, b: seq<Row>)
    ensures SumAmounts(a + b) == SumAmounts(a) + SumAmounts(b)
  {
    if b == [] {
      assert a + b == a;
    } else {
      assert (a + b)[..|a + b| - 1] == a + b[..|b| - 1];
      SumAmountsAppend(a, b[..|b| - 1]);
    }
  }

  /** The dict `get_summary` returns. */
  datatype Totals = Totals(totalGanhos: real, totalDespesas: real, saldo: real)

  function Summarize(expenses: seq<Row>, incomes: seq<Row>): (r: Totals)
    ensures r.totalGanhos >= 0.0 && r.totalDespesas >= 0.0
    ensures r.saldo == r.totalGanhos - r.totalDespesas
  {
    var g, d := SumAmounts(incomes), SumAmounts(expenses);
    Totals(g, d, g - d)
  }

  /**
   * Linearity: a Ganhos row with a numeric amount v raises the income total and the balance
   * by v and leaves the expense total alone; a Despesas row lowers the balance by v.
   */
  lemma AppendCountedRow(expenses: seq<Row>, incomes: seq<Row>, row: Row)
    requires Counted(row)
    ensures var before, v := Summarize(expenses, incomes), CellNumber(row[3]);
      && Summarize(expenses, incomes + [row]) == Totals(before.totalGanhos + v, before.totalDespesas, before.saldo + v)
      && Summarize(expenses + [row], incomes) == Totals(before.totalGanhos, before.totalDespesas + v, before.saldo - v)
  {
    assert (incomes + [row])[..|incomes|] == incomes;
    assert (expenses + [row])[..|expenses|] == expenses;
  }

  /** A row that is too short or whose amount cell is not numeric changes no total. */
  lemma AppendUncountedRow(expenses: seq<Row>, incomes: seq<Row>, row: Row)
    requires !Counted(row)
    ensures Summarize(expenses, incomes + [row]) == Summarize(expenses, incomes)
    ensures Summarize(expenses + [row], incomes) == Summarize(expenses, incomes)
  {
    assert (incomes + [row])[..|incomes|] == incomes;
    assert (expenses + [row])[..|expenses|] == expenses;
  }

  /** A negative amount is written with a leading "-", which the numeric-cell test refuses. */
  lemma NegativeAmountNotCounted(t: TransactionCreate, now: Date, cal: Calendar)
    requires t.valor.mantissa < 0
    ensures !Counted(TransactionRow(t, now, cal))
  {
    var s := DecimalText(t.valor);
    assert s[0] == '-';
    assert RemoveFirst(s, '.')[0] == '-';
  }

  /**
   * Round trip from write to summary: once a transaction with a non-negative amount is appended
   * below the header, the totals read from row 2 on move by exactly its amount.
   */
  lemma SummaryAfterIncomeAppend(expenses: seq<Row>, incomes: seq<Row>, t: TransactionCreate, now: Date, cal: Calendar)
    requires |incomes| >= 1 && t.tipo == Income && t.valor.mantissa >= 0
    ensures var before, v := Summarize(Window(expenses, 1), Window(incomes, 1)), t.valor.Value();
      Summarize(Window(expenses, 1), Window(incomes + [TransactionRow(t, now, cal)], 1))
        == Totals(before.totalGanhos + v, before.totalDespesas, before.saldo + v)
  {
    var row := TransactionRow(t, now, cal);
    CountedTransactionRow(t, now, cal);
    WindowAppend(incomes, 1, row);
    AppendCountedRow(Window(expenses, 1), Window(incomes, 1), row);
  }

  lemma SummaryAfterExpenseAppend(expenses: seq<Row>, incomes: seq<Row>, t: TransactionCreate, now: Date, cal: Calendar)
    requires |expenses| >= 1 && t.tipo == Expense && t.valor.mantissa >= 0
    ensures var before, v := Summarize(Window(expenses, 1), Window(incomes, 1)), t.valor.Value();
      Summarize(Window(expenses + [TransactionRow(t, now, cal)], 1), Window(incomes, 1))
        == Totals(before.totalGanhos, before.totalDespesas + v, before.saldo - v)
  {
    var row := TransactionRow(t, now, cal);
    CountedTransactionRow(t, now, cal);
    WindowAppend(expenses, 1, row);
    AppendCountedRow(Window(expenses, 1), Window(incomes, 1), row);
  }

  /** The row of a transaction with a non-negative amount is counted at exactly that amount. */
  lemma CountedTransactionRow(t: TransactionCreate, now: Date, cal: Calendar)
    requires t.valor.mantissa >= 0
    ensures var row := TransactionRow(t, now, cal);
      Counted(row) && CellNumber(row[3]) == t.valor.Value() && ColumnsAE(row) == row
  {
    DecimalTextRoundTrip(t.valor);
  }

  // ---------------------------------------------------------------------------------------
  // Category breakdown

  /** The `get_category_breakdown` filter: at least 4 cells. */
  predicate Listed(row: Row) {
    |row| >= 4
  }

  /** Both folds read the same amount off a row: a listed row adds its cell amount. */
  lemma ContributionOfListed(row: Row)
    ensures Contribution(row) == if Listed(row) then CellAmount(row[3]) else 0.0
  {
  }

  /** The categories of the listed rows, each once, in the order they are first seen. */
  function Categories(rows: seq<Row>): (r: seq<string>)
    ensures Distinct(r)
  {
    if rows == [] then []
    else
      var prev, row := Categories(rows[..|rows| - 1]), rows[|rows| - 1];
      if Listed(row) && row[2] !in prev then prev + [row[2]] else prev
  }

  /** The index of the first listed row of category `c`, or `|rows|` when there is none. */
  function FirstSeen(rows: seq<Row>, c: string): (r: nat)
    ensures r <= |rows|
  {
    if rows == [] then 0
    else
      var init, row := rows[..|rows| - 1], rows[|rows| - 1];
      var p := FirstSeen(init, c);
      if p < |init| then p else if Listed(row) && row[2] == c then |init| else |rows|
  }

  predicate InFirstSeenOrder(rows: seq<Row>, cats: seq<string>) {
    forall i, j :: 0 <= i < j < |cats| ==> FirstSeen(rows, cats[i]) < FirstSeen(rows, cats[j])
  }

  /**
   * The categories are ordered by first appearance: a category is listed exactly when some row
   * carries it, and one listed earlier was first seen in an earlier row.
   */
  lemma {:induction false} CategoriesFirstSeen(rows: seq<Row>)
    ensures forall c :: c in Categories(rows) <==> FirstSeen(rows, c) < |rows|
    ensures InFirstSeenOrder(rows, Categories(rows))
  {
    if rows != [] {
      var init := rows[..|rows| - 1];
      CategoriesFirstSeen(init);
      var prev, cats := Categories(init), Categories(rows);
      assert forall c :: c in prev ==> FirstSeen(rows, c) == FirstSeen(init, c);
      forall i, j | 0 <= i < j < |cats| ensures FirstSeen(rows, cats[i]) < FirstSeen(rows, cats[j]) {
        if j < |prev| {
          assert cats[i] == prev[i] && cats[j] == prev[j];
          assert prev[i] in prev && prev[j] in prev;
          assert FirstSeen(init, prev[i]) < FirstSeen(init, prev[j]);
        } else {
          var row := rows[|rows| - 1];
          assert cats == prev + [row[2]] && j == |prev|;
          assert row[2] !in prev && FirstSeen(init, row[2]) == |init|;
          assert cats[i] == prev[i] && cats[i] in prev;
          assert FirstSeen(rows, cats[i]) == FirstSeen(init, cats[i]) < |init|;
          assert FirstSeen(rows, row[2]) == |init|;
        }
      }
    }
  }

  /** The amount of the listed rows of one category. */
  function SumCat(rows: seq<Row>, c: string): (r: real)
    ensures r >= 0.0
  {
    if rows == [] then 0.0
    else
      var row := rows[|rows| - 1];
      SumCat(rows[..|rows| - 1], c) + (if Listed(row) && row[2] == c then CellAmount(row[3]) else 0.0)
  }

  /** Every listed row's category is among the categories. */
  lemma {:induction false} CategoriesContain(rows: seq<Row>, k: nat)
    requires k < |rows| && Listed(rows[k])
    ensures rows[k][2] in Categories(rows)
  {
    if k < |rows| - 1 {
      CategoriesContain(rows[..|rows| - 1], k);
    }
  }

  /** Only the categories of listed rows are among the categories. */
  lemma {:induction false} CategoriesOnlyListed(rows: seq<Row>, c: string)
    requires c in Categories(rows)
    ensures exists k :: 0 <= k < |rows| && Listed(rows[k]) && rows[k][2] == c
  {
    var prev := rows[..|rows| - 1];
    if c in Categories(prev) {
      CategoriesOnlyListed(prev, c);
      var k :| 0 <= k < |prev| && Listed(prev[k]) && prev[k][2] == c;
      assert rows[k] == prev[k];
    }
  }

  /** Scanning more rows only appends to the categories already seen. */
  lemma {:induction false} CategoriesPrefix(a: seq<Row>, b: seq<Row>)
    ensures |Categories(a)| <= |Categories(a + b)|
    ensures Categories(a) == Categories(a + b)[..|Categories(a)|]
  {
    if b == [] {
      assert a + b == a;
    } else {
      assert (a + b)[..|a + b| - 1] == a + b[..|b| - 1];
      CategoriesPrefix(a, b[..|b| - 1]);
    }
  }

  /** A category with a positive amount was seen. */
  lemma {:induction false} SumCatPositive(rows: seq<Row>, c: string)
    requires SumCat(rows, c) > 0.0
    ensures c in Categories(rows)
  {
    var row := rows[|rows| - 1];
    if SumCat(rows[..|rows| - 1], c) > 0.0 {
      SumCatPositive(rows[..|rows| - 1], c);
    }
  }

  /** A category no listed row carries has amount 0. */
  lemma {:induction false} SumCatUnseen(rows: seq<Row>, c: string)
    requires c !in Categories(rows)
    ensures SumCat(rows, c) == 0.0
  {
    if SumCat(rows, c) > 0.0 {
      SumCatPositive(rows, c);
    }
  }

  /** One entry of the result: `{"Categoria": ..., "Tipo": ..., "Valor": ...}`. */
  datatype Entry = Entry(categoria: string, tipo: string, valor: real)

  const DESPESA: string := "Despesa"
  const GANHO: string := "Ganho"

  /** The entries of one category: its expense total, then its income total, each when positive. */
  function PairEntries(c: string, expenses: seq<Row>, incomes: seq<Row>): (r: seq<Entry>)
    ensures forall i :: 0 <= i < |r| ==> r[i].categoria == c && r[i].valor > 0.0
  {
    var d, g := SumCat(expenses, c), SumCat(incomes, c);
    (if d > 0.0 then [Entry(c, DESPESA, d)] else []) + (if g > 0.0 then [Entry(c, GANHO, g)] else [])
  }

  function Entries(cats: seq<string>, expenses: seq<Row>, incomes: seq<Row>): (r: seq<Entry>)
    ensures forall i :: 0 <= i < |r| ==> r[i].categoria in cats && r[i].valor > 0.0
  {
    if cats == [] then []
    else Entries(cats[..|cats| - 1], expenses, incomes) + PairEntries(cats[|cats| - 1], expenses, incomes)
  }

  /** The list `get_category_breakdown` returns for the rows read from Despesas and Ganhos. */
  function Breakdown(expenses: seq<Row>, incomes: seq<Row>): seq<Entry> {
    Entries(Categories(expenses + incomes), expenses, incomes)
  }

  lemma {:induction false} EntriesMembers(cats: seq<string>, expenses: seq<Row>, incomes: seq<Row>, e: Entry)
    ensures e in Entries(cats, expenses, incomes) <==> e.categoria in cats && e in PairEntries(e.categoria, expenses, incomes)
  {
    if cats != [] {
      EntriesMembers(cats[..|cats| - 1], expenses, incomes, e);
      assert cats == cats[..|cats| - 1] + [cats[|cats| - 1]];
    }
  }

  /**
   * The breakdown holds exactly one entry per (category, type) pair whose total is positive,
   * carrying that total, and nothing else.
   */
  lemma BreakdownEntries(expenses: seq<Row>, incomes: seq<Row>, e: Entry)
    ensures e in Breakdown(expenses, incomes) <==>
      || (e.tipo == DESPESA && e.valor == SumCat(expenses, e.categoria) && e.valor > 0.0)
      || (e.tipo == GANHO && e.valor == SumCat(incomes, e.categoria) && e.valor > 0.0)
  {
    var cats := Categories(expenses + incomes);
    EntriesMembers(cats, expenses, incomes, e);
    var c := e.categoria;
    if SumCat(expenses, c) > 0.0 {
      SumCatPositive(expenses, c);
      CategoriesPrefix(expenses, incomes);
      assert c in cats;
    }
    if SumCat(incomes, c) > 0.0 {
      SumCatPositive(incomes, c);
      CategoriesOnlyListed(incomes, c);
      var k :| 0 <= k < |incomes| && Listed(incomes[k]) && incomes[k][2] == c;
      assert (expenses + incomes)[|expenses| + k] == incomes[k];
      CategoriesContain(expenses + incomes, |expenses| + k);
    }
  }

  /** `a` comes before `b`: an earlier category, or the same one with "Despesa" before "Ganho". */
  predicate Before(cats: seq<string>, a: Entry, b: Entry) {
    || IndexOf(cats, a.categoria) < IndexOf(cats, b.categoria)
    || (a.categoria == b.categoria && a.tipo == DESPESA && b.tipo == GANHO)
  }

  predicate InOrder(cats: seq<string>, r: seq<Entry>) {
    forall i, j :: 0 <= i < j < |r| ==> Before(cats, r[i], r[j])
  }

  lemma PairEntriesInOrder(cats: seq<string>, c: string, expenses: seq<Row>, incomes: seq<Row>)
    ensures InOrder(cats, PairEntries(c, expenses, incomes))
  {
  }

  lemma InOrderConcat(cats: seq<string>, front: seq<Entry>, back: seq<Entry>)
    requires InOrder(cats, front) && InOrder(cats, back)
    requires forall a, b :: a in front && b in back ==> IndexOf(cats, a.categoria) < IndexOf(cats, b.categoria)
    ensures InOrder(cats, front + back)
  {
    var r := front + back;
    forall i, j | 0 <= i < j < |r| ensures Before(cats, r[i], r[j]) {
      if j < |front| {
        assert r[i] == front[i] && r[j] == front[j];
      } else if i < |front| {
        assert r[i] == front[i] && r[j] == back[j - |front|];
        assert r[i] in front && r[j] in back;
      } else {
        assert r[i] == back[i - |front|] && r[j] == back[j - |front|];
      }
    }
  }

  lemma {:induction false} EntriesInOrder(cats: seq<string>, expenses: seq<Row>, incomes: seq<Row>)
    requires Distinct(cats)
    ensures InOrder(cats, Entries(cats, expenses, incomes))
  {
    if cats != [] {
      var init, c := cats[..|cats| - 1], cats[|cats| - 1];
      assert cats == init + [c];
      EntriesInOrder(init, expenses, incomes);
      var front, back := Entries(init, expenses, incomes), PairEntries(c, expenses, incomes);
      assert c !in init;
      IndexOfLast(init, c);
      forall x | x in init ensures IndexOf(cats, x) == IndexOf(init, x) < |init| {
        IndexOfPrefix(init, c, x);
      }
      InOrderLift(init, c, front);
      PairEntriesInOrder(cats, c, expenses, incomes);
      InOrderConcat(cats, front, back);
    }
  }

  /** Appending a category after all the others keeps the entries of the others in order. */
  lemma InOrderLift(init: seq<string>, c: string, r: seq<Entry>)
    requires InOrder(init, r)
    requires forall e :: e in r ==> e.categoria in init
    ensures InOrder(init + [c], r)
  {
    forall x | x in init ensures IndexOf(init + [c], x) == IndexOf(init, x) {
      IndexOfPrefix(init, c, x);
    }
    forall i, j | 0 <= i < j < |r| ensures Before(init + [c], r[i], r[j]) {
      assert Before(init, r[i], r[j]);
      assert r[i] in r && r[j] in r;
    }
  }

  lemma IndexOfPrefix(s: seq<string>, y: string, x: string)
    requires x in s
    ensures IndexOf(s + [y], x) == IndexOf(s, x)
  {
    if s[0] != x {
      assert (s + [y])[1..] == s[1..] + [y];
    }
  }

  lemma IndexOfLast(s: seq<string>, y: string)
    requires y !in s
    ensures IndexOf(s + [y], y) == |s|
  {
    if s != [] {
      assert (s + [y])[1..] == s[1..] + [y];
    }
  }

  /**
   * Order of the breakdown: categories in the order first seen over Despesas then Ganhos, and
   * within a category its "Despesa" entry before its "Ganho" entry.
   */
  lemma BreakdownOrder(expenses: seq<Row>, incomes: seq<Row>)
    ensures InOrder(Categories(expenses + incomes), Breakdown(expenses, incomes))
  {
    EntriesInOrder(Categories(expenses + incomes), expenses, incomes);
  }

  /** The sum of the values of the entries of one type. */
  function SumKind(r: seq<Entry>, kind: string): real {
    if r == [] then 0.0
    else SumKind(r[..|r| - 1], kind) + (if r[|r| - 1].tipo == kind then r[|r| - 1].valor else 0.0)
  }

  lemma {:induction false} SumKindAppend(a: seq<Entry>, b: seq<Entry>, kind: string)
    ensures SumKind(a + b, kind) == SumKind(a, kind) + SumKind(b, kind)
  {
    if b == [] {
      assert a + b == a;
    } else {
      assert (a + b)[..|a + b| - 1] == a + b[..|b| - 1];
      SumKindAppend(a, b[..|b| - 1], kind);
    }
  }

  /** The amounts of the given categories, added up. */
  function SumOverCats(cats: seq<string>, rows: seq<Row>): real {
    if cats == [] then 0.0 else SumOverCats(cats[..|cats| - 1], rows) + SumCat(rows, cats[|cats| - 1])
  }

  lemma PairEntriesSums(c: string, expenses: seq<Row>, incomes: seq<Row>)
    ensures SumKind(PairEntries(c, expenses, incomes), DESPESA) == SumCat(expenses, c)
    ensures SumKind(PairEntries(c, expenses, incomes), GANHO) == SumCat(incomes, c)
  {
    assert DESPESA != GANHO by { assert DESPESA[0] != GANHO[0]; }
    var d, g := SumCat(expenses, c), SumCat(incomes, c);
    var front: seq<Entry> := if d > 0.0 then [Entry(c, DESPESA, d)] else [];
    var back: seq<Entry> := if g > 0.0 then [Entry(c, GANHO, g)] else [];
    SumKindAppend(front, back, DESPESA);
    SumKindAppend(front, back, GANHO);
    if d > 0.0 {
      assert front[..0] == [];
    }
    if g > 0.0 {
      assert back[..0] == [];
    }
  }

  lemma {:induction false} EntriesSums(cats: seq<string>, expenses: seq<Row>, incomes: seq<Row>)
    ensures SumKind(Entries(cats, expenses, incomes), DESPESA) == SumOverCats(cats, expenses)
    ensures SumKind(Entries(cats, expenses, incomes), GANHO) == SumOverCats(cats, incomes)
  {
    if cats != [] {
      var init, c := cats[..|cats| - 1], cats[|cats| - 1];
      EntriesSums(init, expenses, incomes);
      PairEntriesSums(c, expenses, incomes);
      SumKindAppend(Entries(init, expenses, incomes), PairEntries(c, expenses, incomes), DESPESA);
      SumKindAppend(Entries(init, expenses, incomes), PairEntries(c, expenses, incomes), GANHO);
    }
  }

  lemma {:induction false} SumOverCatsEmpty(cats: seq<string>)
    ensures SumOverCats(cats, []) == 0.0
  {
    if cats != [] {
      SumOverCatsEmpty(cats[..|cats| - 1]);
    }
  }

  /** One more row adds its amount to the sum over the categories once, when its category is listed. */
  lemma {:induction false} SumOverCatsStep(cats: seq<string>, rows: seq<Row>, x: Row)
    requires Distinct(cats)
    ensures SumOverCats(cats, rows + [x])
      == SumOverCats(cats, rows) + (if Listed(x) && x[2] in cats then CellAmount(x[3]) else 0.0)
  {
    if cats != [] {
      var init, c := cats[..|cats| - 1], cats[|cats| - 1];
      assert cats == init + [c];
      assert Distinct(init);
      SumOverCatsStep(init, rows, x);
      assert (rows + [x])[..|rows|] == rows;
      if Listed(x) && x[2] in init {
        assert x[2] != c;
      }
    }
  }

  /** Over distinct categories covering every listed row, the category sums add up to the total. */
  lemma {:induction false} SumOverCatsCovers(cats: seq<string>, rows: seq<Row>)
    requires Distinct(cats)
    requires forall k :: 0 <= k < |rows| && Listed(rows[k]) ==> rows[k][2] in cats
    ensures SumOverCats(cats, rows) == SumAmounts(rows)
  {
    if rows == [] {
      SumOverCatsEmpty(cats);
    } else {
      var init, x := rows[..|rows| - 1], rows[|rows| - 1];
      assert rows == init + [x];
      assert forall k :: 0 <= k < |init| ==> init[k] == rows[k];
      SumOverCatsCovers(cats, init);
      SumOverCatsStep(cats, init, x);
      ContributionOfListed(x);
    }
  }

  /**
   * The "Despesa" values of the breakdown add up to `get_summary`'s expense total, and the
   * "Ganho" values to its income total: both folds filter and read rows the same way, and a
   * dropped entry has total 0.
   */
  lemma BreakdownTotals(expenses: seq<Row>, incomes: seq<Row>)
    ensures SumKind(Breakdown(expenses, incomes), DESPESA) == Summarize(expenses, incomes).totalDespesas
    ensures SumKind(Breakdown(expenses, incomes), GANHO) == Summarize(expenses, incomes).totalGanhos
  {
    var all := expenses + incomes;
    var cats := Categories(all);
    EntriesSums(cats, expenses, incomes);
    forall k | 0 <= k < |expenses| && Listed(expenses[k]) ensures expenses[k][2] in cats {
      assert all[k] == expenses[k];
      CategoriesContain(all, k);
    }
    forall k | 0 <= k < |incomes| && Listed(incomes[k]) ensures incomes[k][2] in cats {
      assert all[|expenses| + k] == incomes[k];
      CategoriesContain(all, |expenses| + k);
    }
    SumOverCatsCovers(cats, expenses);
    SumOverCatsCovers(cats, incomes);
  }

  /** A category not seen over `a + b` has amount 0 in both parts. */
  lemma SumCatUnseenSplit(a: seq<Row>, b: seq<Row>, c: string)
    requires c !in Categories(a + b)
    ensures SumCat(a, c) == 0.0 && SumCat(b, c) == 0.0
  {
    CategoriesPrefix(a, b);
    SumCatUnseen(a, c);
    if SumCat(b, c) > 0.0 {
      SumCatPositive(b, c);
      CategoriesOnlyListed(b, c);
      var k :| 0 <= k < |b| && Listed(b[k]) && b[k][2] == c;
      assert (a + b)[|a| + k] == b[k];
      CategoriesContain(a + b, |a| + k);
    }
  }

  /** The category totals `get_category_breakdown` keeps: (Despesa, Ganho) per category seen. */
  ghost predicate Tallied(order: seq<string>, categories: map<string, (real, real)>, expenses: seq<Row>, incomes: seq<Row>) {
    && (forall c :: c in categories <==> c in order)
    && (forall c :: c in categories ==> categories[c] == (SumCat(expenses, c), SumCat(incomes, c)))
  }

  /** The loop of `get_category_breakdown` over the expense rows. */
  method TallyExpenses(expenses: seq<Row>) returns (order: seq<string>, categories: map<string, (real, real)>)
    ensures order == Categories(expenses)
    ensures Tallied(order, categories, expenses, [])
  {
    order, categories := [], map[];
    for k := 0 to |expenses|
      invariant order == Categories(expenses[..k])
      invariant Tallied(order, categories, expenses[..k], [])
    {
      assert expenses[..k + 1] == expenses[..k] + [expenses[k]];
      order, categories := TallyExpenseRow(expenses[..k], expenses[k], order, categories);
    }
    assert expenses[..|expenses|] == expenses;
  }

  /** One pass of the expense loop: the row's amount goes to its category's Despesa total. */
  method TallyExpenseRow(seen: seq<Row>, row: Row, order0: seq<string>, categories0: map<string, (real, real)>)
    returns (order: seq<string>, categories: map<string, (real, real)>)
    requires order0 == Categories(seen) && Tallied(order0, categories0, seen, [])
    ensures order == Categories(seen + [row])
    ensures Tallied(order, categories, seen + [row], [])
  {
    order, categories := order0, categories0;
    CategoriesSnoc(seen, row);
    if |row| >= 4 {
      var category := if |row| > 2 then row[2] else "Outros";
      var amount := if IsNumericCell(row[3]) then CellNumber(row[3]) else 0.0;
      assert category == row[2] && amount == CellAmount(row[3]);
      if category !in categories {
        SumCatUnseen(seen, category);
        TalliedOpen(order, categories, seen, [], category);
        order := order + [category];
        categories := categories[category := (0.0, 0.0)];
      }
      ghost var before := categories;
      categories := categories[category := (categories[category].0 + amount, categories[category].1)];
      TalliedExpenseRow(order, before, categories, seen, row, category, amount);
    } else {
      TalliedSkipRow(order0, categories0, seen, [], row);
    }
  }

  /** The loop of `get_category_breakdown` over the income rows, continuing the expense tally. */
  method TallyIncomes(expenses: seq<Row>, incomes: seq<Row>, order0: seq<string>, categories0: map<string, (real, real)>)
    returns (order: seq<string>, categories: map<string, (real, real)>)
    requires order0 == Categories(expenses) && Tallied(order0, categories0, expenses, [])
    ensures order == Categories(expenses + incomes)
    ensures Tallied(order, categories, expenses, incomes)
  {
    order, categories := order0, categories0;
    assert expenses + incomes[..0] == expenses;
    for k := 0 to |incomes|
      invariant order == Categories(expenses + incomes[..k])
      invariant Tallied(order, categories, expenses, incomes[..k])
    {
      assert incomes[..k + 1] == incomes[..k] + [incomes[k]];
      assert expenses + incomes[..k + 1] == (expenses + incomes[..k]) + [incomes[k]];
      order, categories := TallyIncomeRow(expenses, incomes[..k], incomes[k], order, categories);
    }
    assert incomes[..|incomes|] == incomes;
  }

  /** One pass of the income loop: the row's amount goes to its category's Ganho total. */
  method TallyIncomeRow(expenses: seq<Row>, seen: seq<Row>, row: Row, order0: seq<string>, categories0: map<string, (real, real)>)
    returns (order: seq<string>, categories: map<string, (real, real)>)
    requires order0 == Categories(expenses + seen) && Tallied(order0, categories0, expenses, seen)
    ensures order == Categories((expenses + seen) + [row])
    ensures Tallied(order, categories, expenses, seen + [row])
  {
    order, categories := order0, categories0;
    CategoriesSnoc(expenses + seen, row);
    if |row| >= 4 {
      var category := if |row| > 2 then row[2] else "Outros";
      var amount := if IsNumericCell(row[3]) then CellNumber(row[3]) else 0.0;
      assert category == row[2] && amount == CellAmount(row[3]);
      if category !in categories {
        SumCatUnseenSplit(expenses, seen, category);
        TalliedOpen(order, categories, expenses, seen, category);
        order := order + [category];
        categories := categories[category := (0.0, 0.0)];
      }
      ghost var before := categories;
      categories := categories[category := (categories[category].0, categories[category].1 + amount)];
      TalliedIncomeRow(order, before, categories, expenses, seen, row, category, amount);
    } else {
      TalliedSkipRow(order0, categories0, expenses, seen, row);
    }
  }

  /** A listed expense row adds its amount to the Despesa total of its (already opened) category. */
  lemma TalliedExpenseRow(order: seq<string>, before: map<string, (real, real)>, after: map<string, (real, real)>,
                           seen: seq<Row>, row: Row, c: string, amount: real)
    requires Listed(row) && c == row[2] && amount == CellAmount(row[3]) && c in before
    requires Tallied(order, before, seen, [])
    requires after == before[c := (before[c].0 + amount, before[c].1)]
    ensures Tallied(order, after, seen + [row], [])
  {
    var m := after;
    forall d | d in m
      ensures m[d] == (SumCat(seen + [row], d), SumCat([], d))
    {
      SumCatSnoc(seen, row, d);
    }
  }

  /** A listed income row adds its amount to the Ganho total of its (already opened) category. */
  lemma TalliedIncomeRow(order: seq<string>, before: map<string, (real, real)>, after: map<string, (real, real)>,
                          expenses: seq<Row>, seen: seq<Row>, row: Row, c: string, amount: real)
    requires Listed(row) && c == row[2] && amount == CellAmount(row[3]) && c in before
    requires Tallied(order, before, expenses, seen)
    requires after == before[c := (before[c].0, before[c].1 + amount)]
    ensures Tallied(order, after, expenses, seen + [row])
  {
    var m := after;
    forall d | d in m
      ensures m[d] == (SumCat(expenses, d), SumCat(seen + [row], d))
    {
      SumCatSnoc(seen, row, d);
    }
  }

  /** A category no row has carried yet opens with both totals zero. */
  lemma TalliedOpen(order: seq<string>, categories: map<string, (real, real)>, expenses: seq<Row>, incomes: seq<Row>, c: string)
    requires Tallied(order, categories, expenses, incomes) && c !in categories
    requires SumCat(expenses, c) == 0.0 && SumCat(incomes, c) == 0.0
    ensures Tallied(order + [c], categories[c := (0.0, 0.0)], expenses, incomes)
  {
  }

  /** A row with fewer than four cells changes no total. */
  lemma TalliedSkipRow(order: seq<string>, categories: map<string, (real, real)>, expenses: seq<Row>, seen: seq<Row>, row: Row)
    requires Tallied(order, categories, expenses, seen) && !Listed(row)
    ensures Tallied(order, categories, expenses, seen + [row])
  {
    forall d | d in categories
      ensures categories[d] == (SumCat(expenses, d), SumCat(seen + [row], d))
    {
      SumCatSnoc(seen, row, d);
    }
  }

  lemma CategoriesSnoc(seen: seq<Row>, row: Row)
    ensures Categories(seen + [row])
      == if Listed(row) && row[2] !in Categories(seen) then Categories(seen) + [row[2]] else Categories(seen)
  {
    assert (seen + [row])[..|seen|] == seen;
  }

  lemma SumCatSnoc(seen: seq<Row>, row: Row, c: string)
    ensures SumCat(seen + [row], c) == SumCat(seen, c) + (if Listed(row) && row[2] == c then CellAmount(row[3]) else 0.0)
  {
    assert (seen + [row])[..|seen|] == seen;
  }

  /** The final loop of `get_category_breakdown`: an entry per positive total, Despesa first. */
  method ListEntries(order: seq<string>, categories: map<string, (real, real)>, expenses: seq<Row>, incomes: seq<Row>)
    returns (result: seq<Entry>)
    requires Tallied(order, categories, expenses, incomes)
    ensures result == Entries(order, expenses, incomes)
  {
    result := [];
    for k := 0 to |order|
      invariant result == Entries(order[..k], expenses, incomes)
    {
      assert order[..k + 1][..k] == order[..k];
      var category := order[k];
      var amounts := categories[category];
      if amounts.0 > 0.0 {
        result := result + [Entry(category, DESPESA, amounts.0)];
      }
      if amounts.1 > 0.0 {
        result := result + [Entry(category, GANHO, amounts.1)];
      }
    }
    assert order[..|order|] == order;
  }

  /** The service object: all its calls go to one spreadsheet backend. */
  class GoogleSheetsService {
    const service: Backend

    constructor (service: Backend)
      ensures this.service == service
    {
      this.service := service;
    }

    /**
     * `create_user_spreadsheet`: provisions a spreadsheet titled after the user part of the
     * email; every error propagates.
     */
    method CreateUserSpreadsheet(userEmail: string, failAt: nat) returns (r: Result<SpreadsheetId, Failure>)
      requires service.Valid()
      modifies service
      ensures service.Valid()
      ensures r.Ok? <==> failAt == 0 || failAt > 4
      ensures r.Ok? ==> r.value !in old(service.books)
      ensures r.Ok? ==> r.value == old(service.nextId)
      ensures r.Ok? ==> service.books == old(service.books)[r.value := ProvisionedBook(SpreadsheetTitle(userEmail))]
      ensures failAt == 1 ==> service.books == old(service.books)
      ensures 2 <= failAt <= 4 ==>
        (old(service.nextId) !in old(service.books)
         && service.books == old(service.books)[old(service.nextId) := PartialBook(SpreadsheetTitle(userEmail), failAt)])
    {
      r := Provision(service, SpreadsheetTitle(userEmail), failAt);
    }

    /**
     * `append_transaction`: one row at the end of Despesas for an expense, of Ganhos otherwise.
     * True on success; an HttpError (a missing tab included) gives False and adds nothing; any
     * other error propagates.
     */
    method AppendTransaction(spreadsheetId: SpreadsheetId, transaction: TransactionCreate, now: Date, cal: Calendar, fault: Fault)
      returns (r: Result<bool, Failure>)
      requires service.Valid()
      modifies service
      ensures service.Valid() && service.nextId == old(service.nextId)
      ensures var tab := TabOf(transaction.tipo);
        r == Ok(true) <==> fault == Healthy && old(service.HasTab(spreadsheetId, tab))
      ensures var tab, books := TabOf(transaction.tipo), old(service.books);
        r == Ok(true) ==>
          service.books == books[spreadsheetId := books[spreadsheetId].(tabs := books[spreadsheetId].tabs[tab := books[spreadsheetId].tabs[tab] + [TransactionRow(transaction, now, cal)]])]
      ensures r != Ok(true) ==> service.books == old(service.books)
      ensures r.Err? <==> fault == OtherFault
      ensures r.Err? ==> r.error == OtherError
    {
      var tab := TabOf(transaction.tipo);
      var appended := service.Append(spreadsheetId, tab, TransactionRow(transaction, now, cal), fault);
      match appended
      case Ok(_) => r := Ok(true);
      case Err(HttpError) => r := Ok(false);
      case Err(OtherError) => r := Err(OtherError);
    }

    /**
     * `read_transactions` with its default range `A2:E`: the rows after row 1; an HttpError
     * (a missing tab included) gives [], any other error propagates.
     */
    function ReadTransactions(spreadsheetId: SpreadsheetId, sheetName: string, fault: Fault): (r: Result<seq<Row>, Failure>)
      reads service
      ensures fault == Healthy && service.HasTab(spreadsheetId, sheetName) ==>
        r == Ok(Window(service.books[spreadsheetId].tabs[sheetName], 1))
      ensures fault == HttpFault || (fault == Healthy && !service.HasTab(spreadsheetId, sheetName)) ==> r == Ok([])
      ensures r.Err? <==> fault == OtherFault
      ensures r.Err? ==> r.error == OtherError
    {
      match service.Get(spreadsheetId, sheetName, 1, fault)
      case Ok(rows) => Ok(rows)
      case Err(HttpError) => Ok([])
      case Err(OtherError) => Err(OtherError)
    }

    /** Below the header, reading gives back exactly the rows stored after it. */
    lemma ReadSkipsHeader(spreadsheetId: SpreadsheetId, sheetName: string, rows: seq<Row>)
      requires service.HasTab(spreadsheetId, sheetName)
      requires service.books[spreadsheetId].tabs[sheetName] == [HEADER] + rows
      ensures ReadTransactions(spreadsheetId, sheetName, Healthy) == Ok(Window(rows, 0))
    {
      WindowSkipsHeader(HEADER, rows);
    }

    /** `get_summary`: the totals of the rows read from Despesas and Ganhos. */
    function GetSummary(spreadsheetId: SpreadsheetId, faultExp: Fault, faultInc: Fault): (r: Result<Totals, Failure>)
      reads service
      ensures r.Ok? <==> faultExp != OtherFault && faultInc != OtherFault
      ensures r.Ok? ==> r.value == Summarize(ReadTransactions(spreadsheetId, DESPESAS, faultExp).value,
                                            ReadTransactions(spreadsheetId, GANHOS, faultInc).value)
    {
      var expenses := ReadTransactions(spreadsheetId, DESPESAS, faultExp);
      if expenses.Err? then Err(expenses.error)
      else
        var incomes := ReadTransactions(spreadsheetId, GANHOS, faultInc);
        if incomes.Err? then Err(incomes.error)
        else Ok(Summarize(expenses.value, incomes.value))
    }

    /**
     * `get_category_breakdown`: totals per category and type, filled in a dict in first-seen
     * order, then listed with their positive totals.
     */
    method GetCategoryBreakdown(spreadsheetId: SpreadsheetId, faultExp: Fault, faultInc: Fault)
      returns (r: Result<seq<Entry>, Failure>)
      ensures var e, i := ReadTransactions(spreadsheetId, DESPESAS, faultExp), ReadTransactions(spreadsheetId, GANHOS, faultInc);
        && (e.Err? ==> r == Err(e.error))
        && (e.Ok? && i.Err? ==> r == Err(i.error))
        && (e.Ok? && i.Ok? ==> r == Ok(Breakdown(e.value, i.value)))
    {
      var readExp := ReadTransactions(spreadsheetId, DESPESAS, faultExp);
      if readExp.Err? {
        return Err(readExp.error);
      }
      var readInc := ReadTransactions(spreadsheetId, GANHOS, faultInc);
      if readInc.Err? {
        return Err(readInc.error);
      }
      var expenses, incomes := readExp.value, readInc.value;
      var order, categories := TallyExpenses(expenses);
      order, categories := TallyIncomes(expenses, incomes, order, categories);
      var result := ListEntries(order, categories, expenses, incomes);
      r := Ok(result);
    }
  }
}
