/** The signed status callback from the document workflow
    (`POST /api/status-callback`): the raw body is authenticated with an
    HMAC-SHA256 tag over `timestamp + "." + body` within a five-minute window,
    then the matching `invoices` row gets the new status and PDF link. */
module StatusCallback {
  import opened Common

  /** Half-width of the freshness window, in seconds. */
  const FreshnessSeconds := 300

  /** Result of `Number(ts)`: a finite number, or NaN / ±Infinity. */
  datatype NumberValue = Finite(value: real) | NonFinite

  /** `Number.isFinite(tsNum) && Math.abs(now - tsNum) <= 300`. */
  predicate Fresh(tsNum: NumberValue, nowSeconds: int) {
    tsNum.Finite? && -FreshnessSeconds as real <= nowSeconds as real - tsNum.value <= FreshnessSeconds as real
  }

  /** `verifyHmac` either throws (no signing secret) or answers. */
  datatype Verdict = MissingSecret | Verdict(ok: bool)

  /** The text the tag is computed over. */
  function SignedText(ts: string, rawBody: string): string {
    ts + "." + rawBody
  }

  /** `verifyHmac` at instant `nowMs`. `toNumber` is `Number`, `hmac` is
      HMAC-SHA256 in hex and `hexBytes` is `Buffer.from(_, "hex")`. The tag
      comparison is `timingSafeEqual`, which throws on a length mismatch; that
      exception is caught and read as `false`, so the comparison is byte-sequence
      equality. */
  function VerifyHmac(tsHeader: Option<string>, sigHeader: Option<string>, secret: Option<string>,
                      nowMs: int, rawBody: string,
                      toNumber: string -> NumberValue, hmac: (string, string) -> string,
                      hexBytes: string -> seq<bv8>): (v: Verdict)
    ensures v.MissingSecret? <==> !Truthy(secret)
    ensures v == Verdict(true) <==>
              var ts := OrElse(tsHeader, Some("")).value;
              var sig := OrElse(sigHeader, Some("")).value;
              && Truthy(secret)
              && Fresh(toNumber(ts), nowMs / 1000)
              && hexBytes(sig) == hexBytes(hmac(secret.value, SignedText(ts, rawBody)))
  {
    var ts := OrElse(tsHeader, Some("")).value;
    var sig := OrElse(sigHeader, Some("")).value;
    if !Truthy(secret) then MissingSecret
    else
      var now := nowMs / 1000;
      var tsNum := toNumber(ts);
      if !tsNum.Finite? || Abs(now as real - tsNum.value) > FreshnessSeconds as real then Verdict(false)
      else
        var expected := hmac(secret.value, SignedText(ts, rawBody));
        var a := hexBytes(sig);
        var b := hexBytes(expected);
        Verdict(|a| == |b| && a == b)
  }

  function Abs(x: real): (r: real)
    ensures r >= 0.0 && (r == x || r == -x)
  {
    if x < 0.0 then -x else x
  }

  /** A callback signed with the shared secret over exactly the bytes received,
      with a timestamp at most 300 seconds away from the server's clock, is
      accepted; the boundary of 300 seconds itself is inside the window. */
  lemma SignedCallbackVerifies(ts: string, secret: string, nowMs: int, rawBody: string,
                               toNumber: string -> NumberValue, hmac: (string, string) -> string,
                               hexBytes: string -> seq<bv8>)
    requires secret != ""
    requires toNumber(ts).Finite? && Abs((nowMs / 1000) as real - toNumber(ts).value) <= 300.0
    ensures VerifyHmac(Some(ts), Some(hmac(secret, SignedText(ts, rawBody))), Some(secret), nowMs, rawBody,
                       toNumber, hmac, hexBytes) == Verdict(true)
  {
  }

  /** A timestamp more than 300 seconds away is refused whatever the signature. */
  lemma StaleCallbackRefused(ts: string, sig: Option<string>, secret: string, nowMs: int, rawBody: string,
                             toNumber: string -> NumberValue, hmac: (string, string) -> string,
                             hexBytes: string -> seq<bv8>)
    requires secret != ""
    requires toNumber(ts).Finite? && Abs((nowMs / 1000) as real - toNumber(ts).value) > 300.0
    ensures VerifyHmac(Some(ts), sig, Some(secret), nowMs, rawBody, toNumber, hmac, hexBytes) == Verdict(false)
  {
  }

  // ---------------------------------------------------------------------------
  // The invoices row update

  /** The fields of the callback's JSON body that the handler reads. */
  datatype CallbackJson = CallbackJson(id: Option<string>, invoiceId: Option<string>,
                                       status: Option<string>, pdfUrl: Option<string>)

  /** The columns of an `invoices` row; `status`, `pdf_url` and `updated_at`
      are the ones the callback writes. */
  datatype InvoiceRow = InvoiceRow(userId: string, invoiceNum: string, status: string,
                                   pdfUrl: Option<string>, updatedAt: int)

  /** `id = payload.id || payload.invoiceId`, `status = String(payload.status || "").toLowerCase()`,
      `pdfUrl = payload.pdfUrl ?? null`. */
  datatype Fields = Fields(id: Option<string>, status: string, pdfUrl: Option<string>)

  function Extract(p: CallbackJson): (f: Fields)
    ensures Truthy(p.id) ==> f.id == p.id
    ensures !Truthy(p.id) ==> f.id == p.invoiceId
    ensures f.status == "" <==> !Truthy(p.status)
    ensures Truthy(p.status) ==> f.status == ToLower(p.status.value)
    ensures f.pdfUrl == p.pdfUrl
  {
    Fields(OrElse(p.id, p.invoiceId), ToLower(OrElse(p.status, Some("")).value), p.pdfUrl)
  }

  /** `update({ status, pdf_url, updated_at }).eq("id", id)`: only the row with
      that id changes, and only in those three columns; no row is inserted. */
  function ApplyStatus(rows: map<string, InvoiceRow>, id: string, status: string,
                       pdfUrl: Option<string>, now: int): (r: map<string, InvoiceRow>)
    ensures r.Keys == rows.Keys
    ensures forall k :: k in rows && k != id ==> r[k] == rows[k]
    ensures id in rows ==> r[id] == rows[id].(status := status, pdfUrl := pdfUrl, updatedAt := now)
  {
    if id in rows then rows[id := rows[id].(status := status, pdfUrl := pdfUrl, updatedAt := now)] else rows
  }

  /** Repeating a callback leaves the same status and PDF link; only `updated_at` moves. */
  lemma RepeatedCallbackIdempotent(rows: map<string, InvoiceRow>, id: string, status: string,
                                   pdfUrl: Option<string>, t1: int, t2: int)
    ensures var once := ApplyStatus(rows, id, status, pdfUrl, t1);
            var twice := ApplyStatus(once, id, status, pdfUrl, t2);
            && twice.Keys == once.Keys
            && forall k :: k in twice ==> twice[k] == once[k].(updatedAt := twice[k].updatedAt)
  {
  }

  /** Nothing orders statuses: a later callback overwrites a terminal one. */
  lemma LaterCallbackOverwrites(rows: map<string, InvoiceRow>, id: string, url: string, t1: int, t2: int)
    requires id in rows
    ensures var sent := ApplyStatus(rows, id, "sent", Some(url), t1);
            var back := ApplyStatus(sent, id, "queued", None, t2);
            back[id].status == "queued" && back[id].pdfUrl.None?
  {
  }

  datatype Response =
    | Crash                                  // uncaught exception: 500 from the framework
    | Bad(code: int, error: string)
    | Accepted(id: string, status: string)   // 200 { ok: true, id, status }

  class InvoiceTable {
    var rows: map<string, InvoiceRow>

    constructor(rows0: map<string, InvoiceRow>)
      ensures rows == rows0
    {
      rows := rows0;
    }

    /** `POST /api/status-callback`. `parse` is `JSON.parse`; `supabaseConfigured`
        says whether both Supabase settings are present; `updateError` is the
        store's error on the update, if any. */
    method Post(raw: string, tsHeader: Option<string>, sigHeader: Option<string>, secret: Option<string>,
                nowMs: int, toNumber: string -> NumberValue, hmac: (string, string) -> string,
                hexBytes: string -> seq<bv8>, parse: string -> Parsed<CallbackJson>,
                supabaseConfigured: bool, updateError: Option<string>)
      returns (res: Response)
      modifies this
      ensures var v := VerifyHmac(tsHeader, sigHeader, secret, nowMs, raw, toNumber, hmac, hexBytes);
              && (v.MissingSecret? ==> res == Crash)
              && (v == Verdict(false) ==> res == Bad(401, "bad signature"))
              && (v == Verdict(true) && parse(raw).Invalid? ==> res == Bad(400, "invalid json"))
              && (v == Verdict(true) && parse(raw).Null? ==> res == Crash)
      ensures res.Accepted? ==>
                && VerifyHmac(tsHeader, sigHeader, secret, nowMs, raw, toNumber, hmac, hexBytes) == Verdict(true)
                && parse(raw).Obj?
                && var f := Extract(parse(raw).value);
                   && f.id == Some(res.id) && res.id != "" && f.status == res.status && res.status != ""
                   && supabaseConfigured && updateError.None?
                   && rows == ApplyStatus(old(rows), res.id, res.status, f.pdfUrl, nowMs)
      ensures !res.Accepted? ==> rows == old(rows)
      ensures parse(raw).Obj? && VerifyHmac(tsHeader, sigHeader, secret, nowMs, raw, toNumber, hmac, hexBytes) == Verdict(true) ==>
                var f := Extract(parse(raw).value);
                && (!Truthy(f.id) ==> res == Bad(400, "missing id"))
                && (Truthy(f.id) && f.status == "" ==> res == Bad(400, "missing status"))
                && (Truthy(f.id) && f.status != "" && !supabaseConfigured ==> res == Bad(500, "server misconfigured"))
                && (Truthy(f.id) && f.status != "" && supabaseConfigured && updateError.Some? ==>
                      res == Bad(500, updateError.value))
                && (Truthy(f.id) && f.status != "" && supabaseConfigured && updateError.None? ==>
                      res == Accepted(f.id.value, f.status))
    {
      var verdict := VerifyHmac(tsHeader, sigHeader, secret, nowMs, raw, toNumber, hmac, hexBytes);
      if verdict.MissingSecret? {
        return Crash;
      }
      if !verdict.ok {
        return Bad(401, "bad signature");
      }
      var payload := parse(raw);
      if payload.Invalid? {
        return Bad(400, "invalid json");
      }
      if payload.Null? {
        return Crash;
      }
      var f := Extract(payload.value);
      if !Truthy(f.id) {
        return Bad(400, "missing id");
      }
      if f.status == "" {
        return Bad(400, "missing status");
      }
      if !supabaseConfigured {
        return Bad(500, "server misconfigured");
      }
      if updateError.Some? {
        return Bad(500, updateError.value);
      }
      rows := ApplyStatus(rows, f.id.value, f.status, f.pdfUrl, nowMs);
      res := Accepted(f.id.value, f.status);
    }
  }
}
