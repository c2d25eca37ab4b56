/**
 * The remote spreadsheet store, in memory: each spreadsheet maps tab names to rows, a row is a
 * list of text cells. The methods are the five remote calls the core issues (create, batch add
 * of tabs, update of row 1, append, get); each takes the transport fault of that call.
 */
module Sheets {
  import opened Wrappers

  type Row = seq<string>

  /** Spreadsheet ids are handed out by the store; they are numbered here. */
  type SpreadsheetId = nat

  datatype Book = Book(title: string, tabs: map<string, seq<Row>>)

  /** What happens on the wire for one remote call. */
  datatype Fault = Healthy | HttpFault | OtherFault

  /** The exception a failed remote call raises: `HttpError` or any other. */
  datatype Failure = HttpError | OtherError

  const DESPESAS: string := "Despesas"
  const GANHOS: string := "Ganhos"
  const RESUMO: string := "Resumo"

  /** Row 1 of the two transaction tabs. */
  const HEADER: Row := ["Data", "Descrição", "Categoria", "Valor", "Tipo"]

  /** The exception a faulty call raises; a missing spreadsheet or tab is an HttpError too. */
  function FailureOf(fault: Fault): Failure
    requires fault != Healthy
  {
    if fault == HttpFault then HttpError else OtherError
  }

  /** The cells of columns A to E. */
  function ColumnsAE(row: Row): (r: Row)
    ensures |r| == if |row| <= 5 then |row| else 5
    ensures r == row[..|r|]
  {
    if |row| <= 5 then row else row[..5]
  }

  /** The rows of a range `A<skip + 1>:E`: the rows after the first `skip`, columns A to E. */
  function Window(rows: seq<Row>, skip: nat): (r: seq<Row>)
    ensures |r| == if |rows| <= skip then 0 else |rows| - skip
    ensures forall i :: 0 <= i < |r| ==> r[i] == ColumnsAE(rows[skip + i])
  {
    if |rows| <= skip then [] else seq(|rows| - skip, i requires 0 <= i < |rows| - skip => ColumnsAE(rows[skip + i]))
  }

  /** Appending a row after the skipped rows appends its A to E cells to the window. */
  lemma WindowAppend(rows: seq<Row>, skip: nat, row: Row)
    requires skip <= |rows|
    ensures Window(rows + [row], skip) == Window(rows, skip) + [ColumnsAE(row)]
  {
    var l, r := Window(rows + [row], skip), Window(rows, skip) + [ColumnsAE(row)];
    assert |l| == |r|;
    forall i | 0 <= i < |l| ensures l[i] == r[i] {
      if i < |rows| - skip {
        assert (rows + [row])[skip + i] == rows[skip + i];
      }
    }
  }

  class Backend {
    var books: map<SpreadsheetId, Book>
    var nextId: SpreadsheetId

    /** Every id in use was handed out before `nextId`. */
    ghost predicate Valid()
      reads this
    {
      forall id :: id in books ==> id < nextId
    }

    constructor ()
      ensures Valid() && books == map[]
    {
      books := map[];
      nextId := 0;
    }

    predicate HasTab(id: SpreadsheetId, tab: string)
      reads this
    {
      id in books && tab in books[id].tabs
    }

    /** `spreadsheets().create`: a new, empty spreadsheet under a fresh id. */
    method Create(title: string, fault: Fault) returns (r: Result<SpreadsheetId, Failure>)
      requires Valid()
      modifies this
      ensures Valid()
      ensures fault == Healthy ==> r == Ok(old(nextId)) && old(nextId) !in old(books) && nextId == old(nextId) + 1
      ensures fault == Healthy ==> books == old(books)[old(nextId) := Book(title, map[])]
      ensures fault != Healthy ==> r == Err(FailureOf(fault)) && books == old(books) && nextId == old(nextId)
    {
      if fault != Healthy {
        return Err(FailureOf(fault));
      }
      var id := nextId;
      books := books[id := Book(title, map[])];
      nextId := nextId + 1;
      r := Ok(id);
    }

    /**
     * `spreadsheets().batchUpdate` with one `addSheet` request per name. The batch is atomic:
     * it fails as a whole when the spreadsheet is missing or a name is taken or repeated.
     */
    method AddSheets(id: SpreadsheetId, names: seq<string>, fault: Fault) returns (r: Result<(), Failure>)
      requires Valid()
      modifies this
      ensures Valid() && nextId == old(nextId)
      ensures r.Ok? <==>
        (fault == Healthy && id in old(books)
         && (forall i :: 0 <= i < |names| ==> names[i] !in old(books)[id].tabs)
         && (forall i, j :: 0 <= i < j < |names| ==> names[i] != names[j]))
      ensures r.Ok? ==> id in books && books == old(books)[id := old(books)[id].(tabs := books[id].tabs)]
      ensures r.Ok? ==> books[id].tabs.Keys == old(books)[id].tabs.Keys + set i | 0 <= i < |names| :: names[i]
      ensures r.Ok? ==> forall t :: t in old(books)[id].tabs ==> books[id].tabs[t] == old(books)[id].tabs[t]
      ensures r.Ok? ==> forall i :: 0 <= i < |names| ==> books[id].tabs[names[i]] == []
      ensures r.Err? ==> books == old(books)
    {
      if fault != Healthy {
        return Err(FailureOf(fault));
      }
      if id !in books
        || (exists i :: 0 <= i < |names| && names[i] in books[id].tabs)
        || (exists i, j :: 0 <= i < j < |names| && names[i] == names[j])
      {
        return Err(HttpError);
      }
      var tabs := books[id].tabs;
      var k := 0;
      while k < |names|
        invariant 0 <= k <= |names|
        invariant tabs.Keys == books[id].tabs.Keys + set i | 0 <= i < k :: names[i]
        invariant forall t :: t in books[id].tabs ==> tabs[t] == books[id].tabs[t]
        invariant forall i :: 0 <= i < k ==> tabs[names[i]] == []
      {
        tabs := tabs[names[k] := []];
        k := k + 1;
      }
      books := books[id := books[id].(tabs := tabs)];
      r := Ok(());
    }

    /** `values().update` of range `<tab>!A1:E1`: row 1 of the tab becomes `row`. */
    method UpdateFirstRow(id: SpreadsheetId, tab: string, row: Row, fault: Fault) returns (r: Result<(), Failure>)
      requires Valid()
      modifies this
      ensures Valid() && nextId == old(nextId)
      ensures r.Ok? <==> fault == Healthy && old(HasTab(id, tab))
      ensures r.Ok? ==> var rows := old(books)[id].tabs[tab];
        books == old(books)[id := old(books)[id].(tabs := old(books)[id].tabs[tab := [row] + (if rows == [] then [] else rows[1..])])]
      ensures r.Err? ==> books == old(books)
    {
      if fault != Healthy {
        return Err(FailureOf(fault));
      }
      if !HasTab(id, tab) {
        return Err(HttpError);
      }
      var rows := books[id].tabs[tab];
      books := books[id := books[id].(tabs := books[id].tabs[tab := [row] + (if rows == [] then [] else rows[1..])])];
      r := Ok(());
    }

    /** `values().append` to `<tab>!A:E` with INSERT_ROWS: one row after the last one. */
    method Append(id: SpreadsheetId, tab: string, row: Row, fault: Fault) returns (r: Result<(), Failure>)
      requires Valid()
      modifies this
      ensures Valid() && nextId == old(nextId)
      ensures r.Ok? <==> fault == Healthy && old(HasTab(id, tab))
      ensures r.Ok? ==> books == old(books)[id := old(books)[id].(tabs := old(books)[id].tabs[tab := old(books)[id].tabs[tab] + [row]])]
      ensures r.Err? ==> books == old(books)
      ensures r.Err? && fault == Healthy ==> r.error == HttpError
      ensures fault != Healthy ==> r == Err(FailureOf(fault))
    {
      if fault != Healthy {
        return Err(FailureOf(fault));
      }
      if !HasTab(id, tab) {
        return Err(HttpError);
      }
      books := books[id := books[id].(tabs := books[id].tabs[tab := books[id].tabs[tab] + [row]])];
      r := Ok(());
    }

    /** `values().get` of range `<tab>!A<skip + 1>:E`; an empty range has no `values`, i.e. []. */
    function Get(id: SpreadsheetId, tab: string, skip: nat, fault: Fault): (r: Result<seq<Row>, Failure>)
      reads this
      ensures r.Ok? <==> fault == Healthy && HasTab(id, tab)
      ensures r.Ok? ==> r.value == Window(books[id].tabs[tab], skip)
      ensures r.Err? && fault == Healthy ==> r.error == HttpError
    {
      if fault != Healthy then Err(FailureOf(fault))
      else if !HasTab(id, tab) then Err(HttpError)
      else Ok(Window(books[id].tabs[tab], skip))
    }
  }

  /** What a freshly provisioned spreadsheet holds. */
  function ProvisionedBook(title: string): Book {
    Book(title, map[DESPESAS := [HEADER], GANHOS := [HEADER], RESUMO := []])
  }

  /**
   * The provisioning sequence both spreadsheet clients run: create the spreadsheet, add the
   * three tabs in one batch, then write the header into Despesas and Ganhos, in that order.
   * `failAt` = k >= 1 makes the k-th of these four remote calls raise; errors propagate with no
   * rollback, so a failure after the first call leaves a partly provisioned spreadsheet.
   */
  method Provision(service: Backend, title: string, failAt: nat) returns (r: Result<SpreadsheetId, Failure>)
    requires service.Valid()
    modifies service
    ensures service.Valid()
    ensures r.Ok? <==> failAt == 0 || failAt > 4
    ensures r.Ok? ==> r.value == old(service.nextId) && r.value !in old(service.books)
    ensures r.Ok? ==> service.books == old(service.books)[r.value := ProvisionedBook(title)]
    ensures failAt == 1 ==> service.books == old(service.books)
    ensures 2 <= failAt <= 4 ==>
      (old(service.nextId) !in old(service.books)
       && service.books == old(service.books)[old(service.nextId) := PartialBook(title, failAt)])
  {
    var created := service.Create(title, if failAt == 1 then OtherFault else Healthy);
    if created.Err? {
      return Err(created.error);
    }
    var id := created.value;
    var added := service.AddSheets(id, [DESPESAS, GANHOS, RESUMO], if failAt == 2 then OtherFault else Healthy);
    if added.Err? {
      return Err(added.error);
    }
    ghost var names := [DESPESAS, GANHOS, RESUMO];
    assert (set i | 0 <= i < |names| :: names[i]) == {DESPESAS, GANHOS, RESUMO} by {
      assert names[0] == DESPESAS && names[1] == GANHOS && names[2] == RESUMO;
    }
    assert service.books[id].tabs == map[DESPESAS := [], GANHOS := [], RESUMO := []] by {
      assert names[0] == DESPESAS && names[1] == GANHOS && names[2] == RESUMO;
    }
    var headerTabs := [DESPESAS, GANHOS];
    for k := 0 to 2
      invariant service.Valid() && service.nextId == old(service.nextId) + 1
      invariant service.books == old(service.books)[id := PartialBook(title, 3 + k)]
      invariant !(3 <= failAt < 3 + k)
    {
      var written := service.UpdateFirstRow(id, headerTabs[k], HEADER, if failAt == 3 + k then OtherFault else Healthy);
      if written.Err? {
        return Err(written.error);
      }
      HeaderWritten(title, k, headerTabs[k]);
    }
    r := Ok(id);
  }

  /** Writing the header of tab `k` of [Despesas, Ganhos] takes one partial book to the next. */
  lemma HeaderWritten(title: string, k: nat, tab: string)
    requires k < 2 && tab == [DESPESAS, GANHOS][k]
    ensures tab in PartialBook(title, 3 + k).tabs && PartialBook(title, 3 + k).tabs[tab] == []
    ensures PartialBook(title, 4 + k)
      == PartialBook(title, 3 + k).(tabs := PartialBook(title, 3 + k).tabs[tab := [HEADER] + []])
  {
    assert [HEADER] + [] == [HEADER];
    if k == 0 {
      assert tab == DESPESAS;
    } else {
      assert tab == GANHOS;
    }
  }

  /** The spreadsheet left behind when call `failAt` of the provisioning sequence raises. */
  function PartialBook(title: string, failAt: nat): Book
    requires 2 <= failAt <= 5
  {
    if failAt == 2 then Book(title, map[])
    else if failAt == 3 then Book(title, map[DESPESAS := [], GANHOS := [], RESUMO := []])
    else if failAt == 4 then Book(title, map[DESPESAS := [HEADER], GANHOS := [], RESUMO := []])
    else ProvisionedBook(title)
  }
}
