/**
 * `TransactionService` of backend/services/transaction_service.py: validating and saving a
 * draft, decoding the rows of both tabs into transaction records, and the three filters.
 */
module Transactions {
  import opened Wrappers
  import opened Text
  import opened Seqs
  import opened Decimals
  import opened Models
  import opened Sheets
  import opened SheetsService

  /** The check of `_validate_transaction` that fails first. */
  datatype Rejection = MissingDescription | NonPositiveValue | InvalidType | MissingCategory

  /**
   * `_validate_transaction`, first failure first: blank description, amount not positive, type
   * outside the enum, blank category; None when the draft is accepted.
   */
  function ValidateTransaction(t: TransactionCreate): (r: Option<Rejection>)
    ensures r == Some(MissingDescription) <==> IsBlank(t.descricao)
    ensures r == Some(NonPositiveValue) <==> !IsBlank(t.descricao) && t.valor.Value() <= 0.0
    ensures r == Some(MissingCategory) <==> !IsBlank(t.descricao) && t.valor.Value() > 0.0 && IsBlank(t.categoria)
    ensures r.None? <==> !IsBlank(t.descricao) && t.valor.Value() > 0.0 && !IsBlank(t.categoria)
  {
    assert t.tipo in [Expense, Income] by {
      if t.tipo.Expense? { assert t.tipo == Expense; } else { assert t.tipo == Income; }
    }
    if IsBlank(t.descricao) then Some(MissingDescription)
    else if t.valor.Value() <= 0.0 then Some(NonPositiveValue)
    else if t.tipo !in [Expense, Income] then Some(InvalidType)
    else if IsBlank(t.categoria) then Some(MissingCategory)
    else None
  }

  /** The type check cannot fail: the field is typed by the enum. */
  lemma TypeCheckUnreachable(t: TransactionCreate)
    ensures ValidateTransaction(t) != Some(InvalidType)
  {
    assert t.tipo.Expense? || t.tipo.Income?;
  }

  /** `if not transaction.data: transaction.data = datetime.now()` */
  function Stamped(t: TransactionCreate, now: Date): (r: TransactionCreate)
    ensures r.data.Some?
    ensures t.data.Some? ==> r == t
    ensures t.data.None? ==> r == t.(data := Some(now))
  {
    if t.data.None? then t.(data := Some(now)) else t
  }

  /** A dict of `get_all_transactions`: `data`, `descricao`, `categoria`, `valor`, `tipo`. */
  datatype TransactionRecord = TransactionRecord(
    data: string, descricao: string, categoria: string, valor: real, tipo: string)

  /**
   * One row of at least 5 cells as a record of type `tipo`; the first three cells are taken as
   * they are ("" stays ""), the amount is the cell's number when it passes the one-dot digit
   * test and 0 otherwise.
   */
  function DecodeRow(row: Row, tipo: string): (r: TransactionRecord)
    requires |row| >= 5
    ensures r.data == row[0] && r.descricao == row[1] && r.categoria == row[2] && r.tipo == tipo
    ensures IsNumericCell(row[3]) ==> r.valor == CellNumber(row[3])
    ensures !IsNumericCell(row[3]) ==> r.valor == 0.0
  {
    TransactionRecord(
      if row[0] != "" then row[0] else "",
      if row[1] != "" then row[1] else "",
      if row[2] != "" then row[2] else "",
      if row[3] != "" && IsNumericCell(row[3]) then CellNumber(row[3]) else 0.0,
      tipo)
  }

  /** The records of the rows with at least 5 cells, in sheet order. */
  function Decoded(rows: seq<Row>, tipo: string): (r: seq<TransactionRecord>)
    ensures |r| <= |rows|
    ensures forall i :: 0 <= i < |r| ==> r[i].tipo == tipo
  {
    if rows == [] then []
    else
      var row := rows[|rows| - 1];
      Decoded(rows[..|rows| - 1], tipo) + (if |row| >= 5 then [DecodeRow(row, tipo)] else [])
  }

  /** Every complete row is decoded, at the place of its row among the complete ones. */
  lemma DecodedMembers(rows: seq<Row>, tipo: string, k: nat)
    requires k < |rows| && |rows[k]| >= 5
    ensures Decoded(rows, tipo) == Decoded(rows[..k], tipo) + [DecodeRow(rows[k], tipo)] + Decoded(rows[k + 1..], tipo)
    ensures DecodeRow(rows[k], tipo) in Decoded(rows, tipo)
  {
    DecodedSplit(rows, tipo, k);
    DecodedSplit(rows[k..], tipo, 1);
    assert rows[k..][..1] == [] + [rows[k]];
    assert rows[k..][1..] == rows[k + 1..];
    DecodedSnoc([], rows[k], tipo);
    var before := Decoded(rows[..k], tipo);
    assert Decoded(rows, tipo)[|before|] == DecodeRow(rows[k], tipo);
  }

  /** Decoding a split list decodes each part. */
  lemma {:induction false} DecodedSplit(rows: seq<Row>, tipo: string, k: nat)
    requires k <= |rows|
    ensures Decoded(rows, tipo) == Decoded(rows[..k], tipo) + Decoded(rows[k..], tipo)
    decreases |rows|
  {
    if k < |rows| {
      var front, last := rows[..|rows| - 1], rows[|rows| - 1];
      DecodedSplit(front, tipo, k);
      assert front[..k] == rows[..k];
      assert rows[k..] == front[k..] + [last];
      DecodedSnoc(front[k..], last, tipo);
      AppendAssoc(Decoded(rows[..k], tipo), Decoded(front[k..], tipo), if |last| >= 5 then [DecodeRow(last, tipo)] else []);
    } else {
      assert rows[..k] == rows;
      assert rows[k..] == [];
    }
  }

  /** Every record comes from a row with at least 5 cells. */
  lemma {:induction false} DecodedFrom(rows: seq<Row>, tipo: string, i: nat)
    requires i < |Decoded(rows, tipo)|
    ensures exists k :: 0 <= k < |rows| && |rows[k]| >= 5 && Decoded(rows, tipo)[i] == DecodeRow(rows[k], tipo)
  {
    var front := rows[..|rows| - 1];
    if i < |Decoded(front, tipo)| {
      DecodedFrom(front, tipo, i);
      var k :| 0 <= k < |front| && |front[k]| >= 5 && Decoded(front, tipo)[i] == DecodeRow(front[k], tipo);
      assert rows[k] == front[k];
    } else {
      var k := |rows| - 1;
      assert |rows[k]| >= 5 && Decoded(rows, tipo)[i] == DecodeRow(rows[k], tipo);
    }
  }

  /** The transactions of both tabs: every expense row before every income row. */
  function AllTransactions(expenses: seq<Row>, incomes: seq<Row>): (r: seq<TransactionRecord>)
    ensures forall i :: 0 <= i < |r| ==> r[i].tipo == "despesa" || r[i].tipo == "ganho"
    ensures forall i, j :: 0 <= i < j < |r| && r[i].tipo == "ganho" ==> r[j].tipo == "ganho"
  {
    var front, back := Decoded(expenses, "despesa"), Decoded(incomes, "ganho");
    assert forall i :: 0 <= i < |front + back| ==> (front + back)[i] == if i < |front| then front[i] else back[i - |front|];
    front + back
  }

  /**
   * Round trip: the row written for a transaction with a non-negative amount decodes to that
   * transaction's date text, description, category, amount and type value.
   */
  lemma RowRoundTrip(t: TransactionCreate, now: Date, cal: Calendar)
    requires t.valor.mantissa >= 0
    ensures DecodeRow(TransactionRow(t, now, cal), t.tipo.Value())
      == TransactionRecord(cal.isoformat(if t.data.Some? then t.data.value else now),
                           t.descricao, t.categoria, t.valor.Value(), t.tipo.Value())
  {
    DecimalTextRoundTrip(t.valor);
  }

  /** A transaction appended below the header is listed last among those of its type. */
  lemma AppendedIsListed(expenses: seq<Row>, incomes: seq<Row>, t: TransactionCreate, now: Date, cal: Calendar)
    requires |expenses| >= 1 && |incomes| >= 1 && t.valor.mantissa >= 0
    ensures var row, rec := TransactionRow(t, now, cal), DecodeRow(TransactionRow(t, now, cal), t.tipo.Value());
      && (t.tipo == Expense ==>
            AllTransactions(Window(expenses + [row], 1), Window(incomes, 1))
              == Decoded(Window(expenses, 1), "despesa") + [rec] + Decoded(Window(incomes, 1), "ganho"))
      && (t.tipo == Income ==>
            AllTransactions(Window(expenses, 1), Window(incomes + [row], 1))
              == AllTransactions(Window(expenses, 1), Window(incomes, 1)) + [rec])
  {
    var row := TransactionRow(t, now, cal);
    var rec := DecodeRow(row, t.tipo.Value());
    if t.tipo == Expense {
      WindowAppend(expenses, 1, row);
      DecodedSnoc(Window(expenses, 1), row, "despesa");
      assert Decoded(Window(expenses + [row], 1), "despesa") == Decoded(Window(expenses, 1), "despesa") + [rec];
    } else {
      WindowAppend(incomes, 1, row);
      DecodedSnoc(Window(incomes, 1), row, "ganho");
      var front, back := Decoded(Window(expenses, 1), "despesa"), Decoded(Window(incomes, 1), "ganho");
      assert Decoded(Window(incomes + [row], 1), "ganho") == back + [rec];
      assert AllTransactions(Window(expenses, 1), Window(incomes + [row], 1)) == front + (back + [rec]);
      AppendAssoc(front, back, [rec]);
    }
  }

  /** Decoding one more row adds its record when it has at least 5 cells. */
  lemma DecodedSnoc(rows: seq<Row>, row: Row, tipo: string)
    ensures Decoded(rows + [row], tipo) == Decoded(rows, tipo) + (if |row| >= 5 then [DecodeRow(row, tipo)] else [])
  {
    assert (rows + [row])[..|rows|] == rows;
  }

  // ---------------------------------------------------------------------------------------
  // Filters

  /** The test of the category filter. */
  function CategoryTest(category: string): TransactionRecord -> bool {
    (t: TransactionRecord) => Lower(t.categoria) == Lower(category)
  }

  /** The test of the type filter. */
  function TypeTest(transType: TransactionType): TransactionRecord -> bool {
    (t: TransactionRecord) => t.tipo == transType.Value()
  }

  /** `[t for t in all if t["categoria"].lower() == category.lower()]` */
  function ByCategory(all: seq<TransactionRecord>, category: string): (r: seq<TransactionRecord>)
    ensures IsSubsequence(r, all)
    ensures forall t :: t in r <==> t in all && Lower(t.categoria) == Lower(category)
    ensures forall t :: multiset(r)[t] == if Lower(t.categoria) == Lower(category) then multiset(all)[t] else 0
  {
    FilterIsSubsequence(all, CategoryTest(category));
    forall t
      ensures t in Filter(all, CategoryTest(category)) <==> t in all && CategoryTest(category)(t)
      ensures multiset(Filter(all, CategoryTest(category)))[t] == if CategoryTest(category)(t) then multiset(all)[t] else 0
    {
      FilterMembers(all, CategoryTest(category), t);
      FilterCounts(all, CategoryTest(category), t);
    }
    Filter(all, CategoryTest(category))
  }

  /** `[t for t in all if t["tipo"] == trans_type.value]` */
  function ByType(all: seq<TransactionRecord>, transType: TransactionType): (r: seq<TransactionRecord>)
    ensures IsSubsequence(r, all)
    ensures forall t :: t in r <==> t in all && t.tipo == transType.Value()
    ensures forall t :: multiset(r)[t] == if t.tipo == transType.Value() then multiset(all)[t] else 0
  {
    FilterIsSubsequence(all, TypeTest(transType));
    forall t
      ensures t in Filter(all, TypeTest(transType)) <==> t in all && TypeTest(transType)(t)
      ensures multiset(Filter(all, TypeTest(transType)))[t] == if TypeTest(transType)(t) then multiset(all)[t] else 0
    {
      FilterMembers(all, TypeTest(transType), t);
      FilterCounts(all, TypeTest(transType), t);
    }
    Filter(all, TypeTest(transType))
  }

  /**
   * On the list read from the spreadsheet the type filter gives back each tab's records, so the
   * expense and income results together are exactly the full list.
   */
  lemma ByTypePartitions(expenses: seq<Row>, incomes: seq<Row>)
    ensures ByType(AllTransactions(expenses, incomes), Expense) == Decoded(expenses, "despesa")
    ensures ByType(AllTransactions(expenses, incomes), Income) == Decoded(incomes, "ganho")
    ensures ByType(AllTransactions(expenses, incomes), Expense) + ByType(AllTransactions(expenses, incomes), Income)
      == AllTransactions(expenses, incomes)
  {
    var front, back := Decoded(expenses, "despesa"), Decoded(incomes, "ganho");
    var isExpense, isIncome := TypeTest(Expense), TypeTest(Income);
    assert "despesa" != "ganho" by { assert "despesa"[0] != "ganho"[0]; }
    FilterAppend(front, back, isExpense);
    FilterAppend(front, back, isIncome);
    FilterAll(front, isExpense);
    FilterNone(back, isExpense);
    FilterNone(front, isIncome);
    FilterAll(back, isIncome);
    assert front + [] == front;
    assert [] + back == back;
  }

  /** `_parse_date`: ISO format with "Z" read as "+00:00", else `%Y-%m-%d`, else None. */
  function ParseDate(s: string, cal: Calendar): (r: Option<Date>)
    ensures cal.fromIsoformat(ReplaceChar(s, 'Z', "+00:00")).Some? ==> r == cal.fromIsoformat(ReplaceChar(s, 'Z', "+00:00"))
    ensures cal.fromIsoformat(ReplaceChar(s, 'Z', "+00:00")).None? ==> r == cal.strptimeYmd(s)
  {
    match cal.fromIsoformat(ReplaceChar(s, 'Z', "+00:00"))
    case Some(d) => Some(d)
    case None => cal.strptimeYmd(s)
  }

  /**
   * Whether `get_transactions_by_date_range` keeps a record: its date is non-empty, parses,
   * and `start <= d <= end` holds, each comparison being between dates of the same kind
   * (the TypeError of mixing naive and aware dates drops the record).
   */
  predicate InRange(t: TransactionRecord, start: Date, end: Date, cal: Calendar) {
    && t.data != ""
    && ParseDate(t.data, cal).Some?
    && var d := ParseDate(t.data, cal).value;
       && Comparable(start, d) && start.stamp <= d.stamp
       && Comparable(d, end) && d.stamp <= end.stamp
  }

  /** The test of the date filter. */
  function RangeTest(start: Date, end: Date, cal: Calendar): TransactionRecord -> bool {
    (t: TransactionRecord) => InRange(t, start, end, cal)
  }

  /** The loop of `get_all_transactions` over the rows of one tab. */
  method DecodeRows(rows: seq<Row>, tipo: string) returns (records: seq<TransactionRecord>)
    ensures records == Decoded(rows, tipo)
  {
    records := [];
    for k := 0 to |rows|
      invariant records == Decoded(rows[..k], tipo)
    {
      assert rows[..k + 1][..k] == rows[..k];
      var row := rows[k];
      if |row| >= 5 {
        records := records + [DecodeRow(row, tipo)];
      }
    }
    assert rows[..|rows|] == rows;
  }

  /**
   * The loop of `get_transactions_by_date_range`: a record is kept when its date is non-empty,
   * parses, and both comparisons are possible and hold; any other record is skipped.
   */
  method FilterInRange(all: seq<TransactionRecord>, start: Date, end: Date, cal: Calendar)
    returns (filtered: seq<TransactionRecord>)
    ensures filtered == Filter(all, RangeTest(start, end, cal))
    ensures IsSubsequence(filtered, all)
    ensures forall t :: t in filtered <==> t in all && InRange(t, start, end, cal)
    ensures forall t :: multiset(filtered)[t] == if InRange(t, start, end, cal) then multiset(all)[t] else 0
  {
    var keep := RangeTest(start, end, cal);
    filtered := [];
    for k := 0 to |all|
      invariant filtered == Filter(all[..k], keep)
    {
      var t := all[k];
      assert all[..k + 1] == all[..k] + [t];
      RangeStep(all[..k], t, start, end, cal);
      if t.data != "" {
        var parsed := ParseDate(t.data, cal);
        if parsed.Some? && Comparable(start, parsed.value) && start.stamp <= parsed.value.stamp {
          if Comparable(parsed.value, end) && parsed.value.stamp <= end.stamp {
            filtered := filtered + [t];
          }
        }
      }
    }
    assert all[..|all|] == all;
    RangeFilterFacts(all, start, end, cal);
  }

  /** One more record extends the date filter by that record exactly when it is in range. */
  lemma RangeStep(seen: seq<TransactionRecord>, t: TransactionRecord, start: Date, end: Date, cal: Calendar)
    ensures Filter(seen + [t], RangeTest(start, end, cal))
      == Filter(seen, RangeTest(start, end, cal)) + (if InRange(t, start, end, cal) then [t] else [])
  {
    var keep := RangeTest(start, end, cal);
    FilterAppend(seen, [t], keep);
    assert Filter([t], keep) == (if keep(t) then [t] else []) + Filter([t][1..], keep);
  }

  lemma RangeFilterFacts(all: seq<TransactionRecord>, start: Date, end: Date, cal: Calendar)
    ensures IsSubsequence(Filter(all, RangeTest(start, end, cal)), all)
    ensures forall t :: t in Filter(all, RangeTest(start, end, cal)) <==> t in all && InRange(t, start, end, cal)
    ensures forall t ::
      multiset(Filter(all, RangeTest(start, end, cal)))[t] == if InRange(t, start, end, cal) then multiset(all)[t] else 0
  {
    var keep := RangeTest(start, end, cal);
    FilterIsSubsequence(all, keep);
    forall t
      ensures t in Filter(all, keep) <==> t in all && keep(t)
      ensures multiset(Filter(all, keep))[t] == if keep(t) then multiset(all)[t] else 0
    {
      FilterMembers(all, keep, t);
      FilterCounts(all, keep, t);
    }
  }

  /** The service bound to one spreadsheet. */
  class TransactionService {
    const spreadsheetId: SpreadsheetId
    const sheetsService: GoogleSheetsService

    constructor (spreadsheetId: SpreadsheetId, sheetsService: GoogleSheetsService)
      ensures this.spreadsheetId == spreadsheetId && this.sheetsService == sheetsService
    {
      this.spreadsheetId := spreadsheetId;
      this.sheetsService := sheetsService;
    }

    /**
     * `create_transaction`: stamps a missing date with now on the caller's object (returned as
     * `stamped`), even when validation then fails; an invalid draft gives False without any
     * remote call; otherwise the append's result, with any exception turned into False.
     */
    method CreateTransaction(transaction: TransactionCreate, now: Date, cal: Calendar, fault: Fault)
      returns (ok: bool, stamped: TransactionCreate)
      requires sheetsService.service.Valid()
      modifies sheetsService.service
      ensures sheetsService.service.Valid()
      ensures stamped == Stamped(transaction, now)
      ensures ValidateTransaction(transaction).Some? ==> !ok && sheetsService.service.books == old(sheetsService.service.books)
      ensures ok <==>
        (ValidateTransaction(transaction).None? && fault == Healthy
         && old(sheetsService.service.HasTab(spreadsheetId, TabOf(transaction.tipo))))
      ensures var tab, books := TabOf(transaction.tipo), old(sheetsService.service.books);
        ok ==>
          sheetsService.service.books == books[spreadsheetId := books[spreadsheetId].(tabs := books[spreadsheetId].tabs[tab := books[spreadsheetId].tabs[tab] + [TransactionRow(stamped, now, cal)]])]
      ensures !ok ==> sheetsService.service.books == old(sheetsService.service.books)
    {
      stamped := Stamped(transaction, now);
      if ValidateTransaction(stamped).Some? {
        return false, stamped;
      }
      var success := sheetsService.AppendTransaction(spreadsheetId, stamped, now, cal, fault);
      ok := success == Ok(true);
    }

    /** `get_all_transactions`: the records of both tabs, or [] when a read raises. */
    method GetAllTransactions(faultExp: Fault, faultInc: Fault) returns (r: seq<TransactionRecord>)
      ensures var e, i := sheetsService.ReadTransactions(spreadsheetId, DESPESAS, faultExp),
                          sheetsService.ReadTransactions(spreadsheetId, GANHOS, faultInc);
        r == if e.Err? || i.Err? then [] else AllTransactions(e.value, i.value)
    {
      var readExp := sheetsService.ReadTransactions(spreadsheetId, DESPESAS, faultExp);
      var readInc := sheetsService.ReadTransactions(spreadsheetId, GANHOS, faultInc);
      if readExp.Err? || readInc.Err? {
        return [];
      }
      var expenses := DecodeRows(readExp.value, "despesa");
      var incomes := DecodeRows(readInc.value, "ganho");
      r := expenses + incomes;
    }

    /** `get_transactions_by_category` */
    method GetTransactionsByCategory(category: string, faultExp: Fault, faultInc: Fault) returns (r: seq<TransactionRecord>)
      ensures var e, i := sheetsService.ReadTransactions(spreadsheetId, DESPESAS, faultExp),
                          sheetsService.ReadTransactions(spreadsheetId, GANHOS, faultInc);
        r == ByCategory(if e.Err? || i.Err? then [] else AllTransactions(e.value, i.value), category)
    {
      var all := GetAllTransactions(faultExp, faultInc);
      r := ByCategory(all, category);
    }

    /** `get_transactions_by_type` */
    method GetTransactionsByType(transType: TransactionType, faultExp: Fault, faultInc: Fault) returns (r: seq<TransactionRecord>)
      ensures var e, i := sheetsService.ReadTransactions(spreadsheetId, DESPESAS, faultExp),
                          sheetsService.ReadTransactions(spreadsheetId, GANHOS, faultInc);
        r == ByType(if e.Err? || i.Err? then [] else AllTransactions(e.value, i.value), transType)
    {
      var all := GetAllTransactions(faultExp, faultInc);
      r := ByType(all, transType);
    }

    /** `get_transactions_by_date_range`: the records in range, in their order. */
    method GetTransactionsByDateRange(start: Date, end: Date, cal: Calendar, faultExp: Fault, faultInc: Fault)
      returns (r: seq<TransactionRecord>)
      ensures var e, i := sheetsService.ReadTransactions(spreadsheetId, DESPESAS, faultExp),
                          sheetsService.ReadTransactions(spreadsheetId, GANHOS, faultInc);
        var all := if e.Err? || i.Err? then [] else AllTransactions(e.value, i.value);
        r == Filter(all, RangeTest(start, end, cal))
    {
      var all := GetAllTransactions(faultExp, faultInc);
      r := FilterInRange(all, start, end, cal);
    }
  }
}
