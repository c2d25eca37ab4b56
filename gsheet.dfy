/**
 * The legacy spreadsheet helpers of backend/legacy/gsheet.py: provisioning, raw append and read
 * of a tab, and saving an untyped transaction dict. Every error is re-raised to the caller.
 */
module LegacySheets {
  import opened Wrappers
  import opened Text
  import opened Decimals
  import opened PyValues
  import opened Sheets

  /** `create_user_sheet`: the shared provisioning sequence; the new id, or the first error. */
  method CreateUserSheet(service: Backend, title: string, failAt: nat) returns (r: Result<SpreadsheetId, Failure>)
    requires service.Valid()
    modifies service
    ensures service.Valid()
    ensures r.Ok? <==> failAt == 0 || failAt > 4
    ensures r.Ok? ==> r.value !in old(service.books)
    ensures r.Ok? ==> r.value == old(service.nextId)
    ensures r.Ok? ==> service.books == old(service.books)[r.value := ProvisionedBook(title)]
    ensures failAt == 1 ==> service.books == old(service.books)
    ensures 2 <= failAt <= 4 ==>
      (old(service.nextId) !in old(service.books)
       && service.books == old(service.books)[old(service.nextId) := PartialBook(title, failAt)])
  {
    r := Provision(service, title, failAt);
  }

  /**
   * The text a JSON value is stored as in a cell: `null` leaves the cell empty, booleans and
   * numbers are written out; a list or an object is refused by the remote end.
   */
  function CellText(v: Value): (r: Option<string>)
    ensures r.None? <==> v.Compound?
    ensures v.Str? ==> r == Some(v.s)
    ensures v.Null? ==> r == Some("")
    ensures v.Float? && v.d.mantissa >= 0 ==> r.Some? && CellAmount(r.value) == v.d.Value()
  {
    match v
    case Null => Some("")
    case Bool(b) => Some(if b then "TRUE" else "FALSE")
    case Int(i) => Some(DecimalText(Decimal(i, 0)))
    case Float(d) =>
      if d.mantissa >= 0 then DecimalTextRoundTrip(d); Some(DecimalText(d))
      else Some(DecimalText(d))
    case Str(s) => Some(s)
    case Compound(_) => None
  }

  /** The cells of a list of values, or None when one of them cannot be stored. */
  function CellsOf(values: seq<Value>): (r: Option<Row>)
    ensures r.Some? <==> forall i :: 0 <= i < |values| ==> !values[i].Compound?
    ensures r.Some? ==>
      (|r.value| == |values| && forall i :: 0 <= i < |values| ==> Some(r.value[i]) == CellText(values[i]))
  {
    if values == [] then Some([])
    else
      match (CellText(values[0]), CellsOf(values[1..]))
      case (Some(c), Some(cs)) => Some([c] + cs)
      case _ => None
  }

  /**
   * `append_row`: one row after the last row of the tab. A value the remote end refuses, a
   * missing tab and a transport error all raise; nothing is caught.
   */
  method AppendRow(service: Backend, id: SpreadsheetId, tab: string, values: seq<Value>, fault: Fault)
    returns (r: Result<(), Failure>)
    requires service.Valid()
    modifies service
    ensures service.Valid() && service.nextId == old(service.nextId)
    ensures r.Ok? <==> fault == Healthy && old(service.HasTab(id, tab)) && CellsOf(values).Some?
    ensures r.Ok? ==> var rows := old(service.books)[id].tabs[tab];
      service.books == old(service.books)[id := old(service.books)[id].(tabs := old(service.books)[id].tabs[tab := rows + [CellsOf(values).value]])]
    ensures r.Err? ==> service.books == old(service.books)
    ensures fault != Healthy ==> r == Err(FailureOf(fault))
  {
    if fault != Healthy {
      return Err(FailureOf(fault));
    }
    var cells := CellsOf(values);
    if cells.None? {
      return Err(HttpError);
    }
    r := service.Append(id, tab, cells.value, fault);
  }

  /** `read_range` with its default range `A:E`: every row of the tab, header included. */
  function ReadRange(service: Backend, id: SpreadsheetId, tab: string, fault: Fault): (r: Result<seq<Row>, Failure>)
    reads service
    ensures r.Ok? <==> fault == Healthy && service.HasTab(id, tab)
    ensures r.Ok? ==> var rows := service.books[id].tabs[tab];
      |r.value| == |rows| && forall i :: 0 <= i < |rows| ==> r.value[i] == ColumnsAE(rows[i])
    ensures fault != Healthy ==> r == Err(FailureOf(fault))
  {
    service.Get(id, tab, 0, fault)
  }

  /** Reading a freshly provisioned spreadsheet gives the header row of each transaction tab. */
  lemma ReadRangeAfterProvision(service: Backend, id: SpreadsheetId, title: string)
    requires id in service.books && service.books[id] == ProvisionedBook(title)
    ensures ReadRange(service, id, DESPESAS, Healthy) == Ok([HEADER])
    ensures ReadRange(service, id, GANHOS, Healthy) == Ok([HEADER])
    ensures ReadRange(service, id, RESUMO, Healthy) == Ok([])
  {
    var w := Window([HEADER], 0);
    assert |w| == 1 && w[0] == ColumnsAE(HEADER) == HEADER;
    assert w == [HEADER];
  }

  /** What `salvar_no_google_sheets` raises of its own, before any remote call. */
  datatype SaveError = Raised(exception: Exception) | Remote(failure: Failure)

  /** `"Despesas" if tipo.lower() == "despesa" else "Ganhos"`. */
  function TabFor(tipo: string): (r: string)
    ensures r == DESPESAS || r == GANHOS
    ensures r == DESPESAS <==> Lower(tipo) == "despesa"
  {
    if Lower(tipo) == "despesa" then DESPESAS else GANHOS
  }

  /**
   * The tab and the values `salvar_no_google_sheets` appends: `transacao["tipo"]` raises
   * KeyError when absent and AttributeError when it is not text; the other fields are taken
   * with `get`, unvalidated, in the order data, descricao, categoria, valor, capitalised tipo.
   */
  function SavedRow(transacao: map<string, Value>): (r: Result<(string, seq<Value>), Exception>)
    ensures "tipo" !in transacao ==> r == Err(KeyError("tipo"))
    ensures "tipo" in transacao && !transacao["tipo"].Str? ==> r == Err(AttributeError)
    ensures r.Ok? <==> "tipo" in transacao && transacao["tipo"].Str?
    ensures r.Ok? ==> var tipo := transacao["tipo"].s;
      && r.value.0 == TabFor(tipo)
      && r.value.1 == [Get(transacao, "data"), Get(transacao, "descricao"), Get(transacao, "categoria"),
                       Get(transacao, "valor"), Str(Capitalize(tipo))]
  {
    if "tipo" !in transacao then Err(KeyError("tipo"))
    else
      match transacao["tipo"]
      case Str(tipo) =>
        Ok((TabFor(tipo), [Get(transacao, "data"), Get(transacao, "descricao"), Get(transacao, "categoria"),
                           Get(transacao, "valor"), Str(Capitalize(tipo))]))
      case _ => Err(AttributeError)
  }

  /** `salvar_no_google_sheets`: appends the saved row; whatever goes wrong is re-raised. */
  method SalvarNoGoogleSheets(service: Backend, id: SpreadsheetId, email: string, transacao: map<string, Value>, fault: Fault)
    returns (r: Result<(), SaveError>)
    requires service.Valid()
    modifies service
    ensures service.Valid() && service.nextId == old(service.nextId)
    ensures SavedRow(transacao).Err? ==> r == Err(Raised(SavedRow(transacao).error)) && service.books == old(service.books)
    ensures SavedRow(transacao).Ok? ==> var (tab, values) := SavedRow(transacao).value;
      && (r.Ok? <==> fault == Healthy && old(service.HasTab(id, tab)) && CellsOf(values).Some?)
      && (r.Ok? ==> service.books == old(service.books)[id := old(service.books)[id].(tabs := old(service.books)[id].tabs[tab := old(service.books)[id].tabs[tab] + [CellsOf(values).value]])])
      && (r.Err? ==> r.error.Remote? && service.books == old(service.books))
  {
    var saved := SavedRow(transacao);
    if saved.Err? {
      return Err(Raised(saved.error));
    }
    var (tab, values) := saved.value;
    var appended := AppendRow(service, id, tab, values, fault);
    if appended.Err? {
      return Err(Remote(appended.error));
    }
    r := Ok(());
  }
}
