/** The invoice list route (`GET /api/invoices`): the signed-in user's
    `invoices` rows, newest first, reshaped so that `id` is the invoice
    number. */
module InvoicesRoute {
  import opened Common

  /** The selected columns of an `invoices` row (`created_at` in milliseconds). */
  datatype DbRow = DbRow(invoiceNum: string, createdAt: int, pdfUrl: Option<string>,
                         customerEmail: Option<string>, total: Option<real>)

  /** One entry of the response's `invoices` array. */
  datatype Invoice = Invoice(id: string, email: Option<string>, total: real, createdAt: int, pdfUrl: Option<string>)

  /** What the query gives: an error, `data: null`, or the rows in the order
      the store returned them (`order('created_at', { ascending: false })`). */
  datatype QueryReply = QueryError(message: string) | NoData | Rows(rows: seq<DbRow>)

  datatype ListResponse = Failure(status: int, error: string) | Listed(invoices: seq<Invoice>)

  /** The shape of one row: `id` is `invoice_num`, `email` is `customer_email ?? null`,
      `total` is `Number(total ?? 0)`. */
  function ToInvoice(row: DbRow): (inv: Invoice)
    ensures inv.id == row.invoiceNum
    ensures inv.email == row.customerEmail
    ensures inv.total == (if row.total.Some? then row.total.value else 0.0)
    ensures inv.createdAt == row.createdAt && inv.pdfUrl == row.pdfUrl
  {
    Invoice(row.invoiceNum, row.customerEmail, if row.total.Some? then row.total.value else 0.0,
            row.createdAt, row.pdfUrl)
  }

  /** `(data ?? []).map(...)`. */
  function ToInvoices(rows: seq<DbRow>): (out: seq<Invoice>)
    ensures |out| == |rows|
    ensures forall i :: 0 <= i < |rows| ==> out[i] == ToInvoice(rows[i])
  {
    if rows == [] then [] else [ToInvoice(rows[0])] + ToInvoices(rows[1..])
  }

  /** Creation times that never increase: the order of `.order('created_at', { ascending: false })`. */
  predicate NewestFirst(times: seq<int>) {
    forall i, j :: 0 <= i < j < |times| ==> times[i] >= times[j]
  }

  function RowTimes(rows: seq<DbRow>): (times: seq<int>)
    ensures |times| == |rows| && forall i :: 0 <= i < |rows| ==> times[i] == rows[i].createdAt
  {
    seq(|rows|, i requires 0 <= i < |rows| => rows[i].createdAt)
  }

  function InvoiceTimes(invs: seq<Invoice>): (times: seq<int>)
    ensures |times| == |invs| && forall i :: 0 <= i < |invs| ==> times[i] == invs[i].createdAt
  {
    seq(|invs|, i requires 0 <= i < |invs| => invs[i].createdAt)
  }

  /** The reshaping keeps the store's newest-first order. */
  lemma OrderKept(rows: seq<DbRow>)
    requires NewestFirst(RowTimes(rows))
    ensures NewestFirst(InvoiceTimes(ToInvoices(rows)))
  {
    assert InvoiceTimes(ToInvoices(rows)) == RowTimes(rows);
  }

  /** The reshaping loses no invoice number: entry `i` names row `i`'s invoice. */
  lemma {:induction false} InvoiceNumbersKept(rows: seq<DbRow>)
    ensures forall inv :: inv in ToInvoices(rows) ==> exists r :: r in rows && r.invoiceNum == inv.id
  {
    var out := ToInvoices(rows);
    forall inv | inv in out
      ensures exists r :: r in rows && r.invoiceNum == inv.id
    {
      var i :| 0 <= i < |out| && out[i] == inv;
      assert rows[i] in rows;
    }
  }

  /** `GET /api/invoices`. */
  function Get(session: Session, reply: QueryReply): (r: ListResponse)
    ensures session.SessionError? ==> r == Failure(500, session.message)
    ensures session.NoSession? ==> r == Failure(401, "Unauthorized")
    ensures session.User? && reply.QueryError? ==> r == Failure(500, reply.message)
    ensures session.User? && reply.NoData? ==> r == Listed([])
    ensures session.User? && reply.Rows? ==>
              r.Listed? && |r.invoices| == |reply.rows|
              && forall i :: 0 <= i < |reply.rows| ==> r.invoices[i] == ToInvoice(reply.rows[i])
  {
    match session
    case SessionError(message) => Failure(500, message)
    case NoSession => Failure(401, "Unauthorized")
    case User(_, _) =>
      match reply
      case QueryError(message) => Failure(500, message)
      case NoData => Listed([])
      case Rows(rows) => Listed(ToInvoices(rows))
  }
}
