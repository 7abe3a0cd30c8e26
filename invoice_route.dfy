/** The invoice submission route (`POST /api/invoice`): normalise the posted
    invoice, validate it, check the caller's quota against the trailing 24-hour
    and 30-day usage windows, record one usage row, sign the outgoing body with
    HMAC-SHA256 and send it to the document workflow, then write a history row. */
module InvoiceRoute {
  import opened Common

  const DayMs: int := 24 * 60 * 60 * 1000
  const MonthMs: int := 30 * DayMs

  // ---------------------------------------------------------------------------
  // Payload normalisation

  /** A JSON field read for a number: absent, `null`, or a number. */
  datatype JsNumber = Undefined | Null | Number(value: real)

  /** A JSON object with string fields (business, customer, totals, meta). */
  type Fields = map<string, string>

  datatype RawItem = RawItem(
    description: Option<string>,
    quantity: JsNumber, qty: JsNumber,
    unitPrice: JsNumber, price: JsNumber,
    vatRate: JsNumber)

  /** `raw.items`: something that is not an array, or an array of items. */
  datatype RawItems = NotArray | Array(elems: seq<RawItem>)

  datatype RawPayload = RawPayload(
    business: Option<Fields>,
    customer: Option<Fields>,
    customerEmail: Option<string>,
    items: RawItems,
    totals: Option<Fields>,
    meta: Option<Fields>,
    vatRate: JsNumber)

  datatype Item = Item(description: string, quantity: real, unitPrice: real, vatRate: Option<real>)

  datatype Payload = Payload(
    business: Fields,
    customer: Fields,
    customerEmail: string,
    items: seq<Item>,
    vatRate: Option<real>,
    totals: Fields,
    meta: Fields)

  /** `a ?? b ?? 0` followed by `Number(...)`. */
  function NumberOr(a: JsNumber, b: JsNumber): (r: real)
    ensures a.Number? ==> r == a.value
    ensures !a.Number? && b.Number? ==> r == b.value
    ensures !a.Number? && !b.Number? ==> r == 0.0
  {
    match a
    case Number(v) => v
    case _ => if b.Number? then b.value else 0.0
  }

  /** `x !== undefined ? Number(x) : undefined`; `Number(null)` is 0. */
  function DefinedNumber(x: JsNumber): (r: Option<real>)
    ensures x.Undefined? <==> r.None?
    ensures x.Null? ==> r == Some(0.0)
    ensures x.Number? ==> r == Some(x.value)
  {
    match x
    case Undefined => None
    case Null => Some(0.0)
    case Number(v) => Some(v)
  }

  /** `obj || {}` for a JSON object field (every object is truthy). */
  function ObjectOrEmpty(f: Option<Fields>): Fields {
    if f.Some? then f.value else map[]
  }

  function NormalizeItem(it: RawItem): Item {
    Item(if it.description.Some? then it.description.value else "",
         NumberOr(it.quantity, it.qty),
         NumberOr(it.unitPrice, it.price),
         DefinedNumber(it.vatRate))
  }

  /** The customer e-mail: `raw.customerEmail || customer.email || ''`. */
  function CustomerEmail(raw: RawPayload): (e: string)
    ensures Truthy(raw.customerEmail) ==> e == raw.customerEmail.value
    ensures !Truthy(raw.customerEmail) && raw.customer.Some? && "email" in raw.customer.value
            ==> e == raw.customer.value["email"]
    ensures e != "" ==> Truthy(raw.customerEmail)
                        || (raw.customer.Some? && "email" in raw.customer.value)
  {
    var customer := ObjectOrEmpty(raw.customer);
    if Truthy(raw.customerEmail) then raw.customerEmail.value
    else if "email" in customer then customer["email"]
    else ""
  }

  function NormalizePayload(raw: RawPayload): (p: Payload)
    ensures raw.items.NotArray? ==> p.items == []
    ensures raw.items.Array? ==> |p.items| == |raw.items.elems|
    ensures raw.items.Array? ==>
              forall i :: 0 <= i < |p.items| ==> p.items[i] == NormalizeItem(raw.items.elems[i])
    ensures p.customerEmail == CustomerEmail(raw)
    ensures raw.vatRate.Undefined? <==> p.vatRate.None?
  {
    var items := if raw.items.Array? then raw.items.elems else [];
    Payload(ObjectOrEmpty(raw.business),
            ObjectOrEmpty(raw.customer),
            CustomerEmail(raw),
            seq(|items|, i requires 0 <= i < |items| => NormalizeItem(items[i])),
            DefinedNumber(raw.vatRate),
            ObjectOrEmpty(raw.totals),
            ObjectOrEmpty(raw.meta))
  }

  /** Each normalised item takes its quantity from `quantity`, else `qty`, else 0,
      and its unit price from `unitPrice`, else `price`, else 0. */
  lemma NormalizedItemFallbacks(raw: RawPayload, i: int)
    requires raw.items.Array? && 0 <= i < |raw.items.elems|
    ensures var it := raw.items.elems[i];
            var out := NormalizePayload(raw).items[i];
            && out.quantity == (if it.quantity.Number? then it.quantity.value
                                else if it.qty.Number? then it.qty.value else 0.0)
            && out.unitPrice == (if it.unitPrice.Number? then it.unitPrice.value
                                 else if it.price.Number? then it.price.value else 0.0)
            && out.description == (if it.description.Some? then it.description.value else "")
  {
  }

  // ---------------------------------------------------------------------------
  // E-mail check: /^[^@\s]+@[^@\s]+\.[^@\s]+$/

  /** The character class `[^@\s]`. */
  predicate EmailChar(c: char) {
    c != '@' && !IsJsSpace(c)
  }

  /** One way the regular expression can match `s`: the `@` at index `at`, the
      escaped `.` at index `dot`, every other character in `[^@\s]`, and each of
      the three runs non-empty. */
  predicate EmailSplit(s: string, at: int, dot: int) {
    && 0 < at && at + 1 < dot && dot + 1 < |s|
    && s[at] == '@' && s[dot] == '.'
    && forall k | 0 <= k < |s| && k != at :: EmailChar(s[k])
  }

  /** `s.match(/^[^@\s]+@[^@\s]+\.[^@\s]+$/)` succeeds. */
  predicate EmailRegex(s: string) {
    exists at, dot | 0 <= at < |s| && 0 <= dot < |s| :: EmailSplit(s, at, dot)
  }

  function CountOf(s: string, c: char): (n: nat)
    ensures n <= |s|
  {
    if s == [] then 0 else (if s[0] == c then 1 else 0) + CountOf(s[1..], c)
  }

  /** Index of the first `c` in `s`, or `|s|` when there is none. */
  function IndexOf(s: string, c: char): (i: nat)
    ensures i <= |s|
    ensures i < |s| ==> s[i] == c
    ensures forall k :: 0 <= k < i ==> s[k] != c
  {
    if s == [] then 0 else if s[0] == c then 0 else 1 + IndexOf(s[1..], c)
  }

  /** The shape the check accepts, stated as counts: no white space, exactly one
      `@`, a non-empty local part, and a `.` after the `@` that is neither the
      first nor the last character of the domain. */
  predicate EmailShape(s: string) {
    && (forall k | 0 <= k < |s| :: !IsJsSpace(s[k]))
    && CountOf(s, '@') == 1
    && 0 < IndexOf(s, '@')
    && exists d | IndexOf(s, '@') + 1 < d < |s| - 1 :: s[d] == '.'
  }

  lemma {:induction false} SoleOccurrence(s: string, c: char, at: int)
    requires 0 <= at < |s| && s[at] == c
    requires forall k | 0 <= k < |s| && k != at :: s[k] != c
    ensures CountOf(s, c) == 1 && IndexOf(s, c) == at
  {
    if at == 0 {
      NoOccurrence(s[1..], c);
    } else {
      SoleOccurrence(s[1..], c, at - 1);
    }
  }

  lemma {:induction false} NoOccurrence(s: string, c: char)
    requires forall k | 0 <= k < |s| :: s[k] != c
    ensures CountOf(s, c) == 0
  {
    if s != [] {
      NoOccurrence(s[1..], c);
    }
  }

  lemma {:induction false} CountOneIsSole(s: string, c: char)
    requires CountOf(s, c) == 1
    ensures IndexOf(s, c) < |s|
    ensures forall k | 0 <= k < |s| && k != IndexOf(s, c) :: s[k] != c
  {
    if s[0] == c {
      CountZeroIsAbsent(s[1..], c);
    } else {
      CountOneIsSole(s[1..], c);
      forall k | 0 <= k < |s| && k != IndexOf(s, c) ensures s[k] != c {
        if k > 0 { assert s[k] == s[1..][k - 1]; }
      }
    }
  }

  lemma {:induction false} CountZeroIsAbsent(s: string, c: char)
    requires CountOf(s, c) == 0
    ensures forall k | 0 <= k < |s| :: s[k] != c
  {
    if s != [] {
      CountZeroIsAbsent(s[1..], c);
      forall k | 0 <= k < |s| ensures s[k] != c {
        if k > 0 { assert s[k] == s[1..][k - 1]; }
      }
    }
  }

  /** The regular expression accepts exactly the strings of `EmailShape`. */
  lemma EmailRegexIffShape(s: string)
    ensures EmailRegex(s) <==> EmailShape(s)
  {
    if EmailRegex(s) {
      var at, dot :| 0 <= at < |s| && 0 <= dot < |s| && EmailSplit(s, at, dot);
      SoleOccurrence(s, '@', at);
      assert IndexOf(s, '@') + 1 < dot < |s| - 1 && s[dot] == '.';
    }
    if EmailShape(s) {
      CountOneIsSole(s, '@');
      var at := IndexOf(s, '@');
      var dot :| at + 1 < dot < |s| - 1 && s[dot] == '.';
      assert EmailSplit(s, at, dot);
    }
  }

  // ---------------------------------------------------------------------------
  // Tier limits and usage windows

  datatype Limits = Limits(daily: nat, monthly: nat)

  const FreeLimits := Limits(3, 10)

  /** Quota of a tier name from the user's `app_metadata`; the comparison is
      exact, so only the lower-case names "standard" and "pro" raise the limits. */
  function LimitsForTier(tier: string): (l: Limits)
    ensures tier == "standard" <==> l == Limits(25, 200)
    ensures tier == "pro" <==> l == Limits(100, 1000)
    ensures tier != "standard" && tier != "pro" <==> l == FreeLimits
    ensures FreeLimits.daily <= l.daily && FreeLimits.monthly <= l.monthly
    ensures l.daily < l.monthly
  {
    if tier == "standard" then Limits(25, 200)
    else if tier == "pro" then Limits(100, 1000)
    else FreeLimits
  }

  /** Tier sent along with the invoice: `app_metadata.tier || 'free'`. */
  function TierOf(metaTier: Option<string>): (t: string)
    ensures t != ""
    ensures Truthy(metaTier) ==> t == metaTier.value
  {
    if Truthy(metaTier) then metaTier.value else "free"
  }

  datatype Usage = Usage(daily: nat, monthly: nat)

  /** `getUsage` over the `usage` table (`user`, `created_at`): the rows of the
      trailing 24 hours and of the trailing 30 days before `now`. */
  function GetUsage(rows: seq<OwnedRow>, user: string, now: int): (u: Usage)
    ensures u.daily <= u.monthly
    ensures u.daily == CountSince(rows, user, now - DayMs)
    ensures u.monthly == CountSince(rows, user, now - MonthMs)
  {
    CountSinceAntitone(rows, user, now - MonthMs, now - DayMs);
    Usage(CountSince(rows, user, now - DayMs), CountSince(rows, user, now - MonthMs))
  }

  /** The two quota checks; the daily one is tested first. */
  function CheckQuota(u: Usage, lim: Limits): (r: Option<string>)
    ensures r.None? <==> u.daily < lim.daily && u.monthly < lim.monthly
    ensures r == Some("Daily limit reached") <==> u.daily >= lim.daily
    ensures r == Some("Monthly limit reached") <==> u.daily < lim.daily && u.monthly >= lim.monthly
  {
    if u.daily >= lim.daily then Some("Daily limit reached")
    else if u.monthly >= lim.monthly then Some("Monthly limit reached")
    else None
  }

  // ---------------------------------------------------------------------------
  // The request pipeline

  datatype Config = Config(supabaseUrl: string, serviceKey: string, n8nUrl: string, signSecret: string)

  /** The value of `stage` when the handler returns. */
  datatype Stage = Env | AuthGetUser | ParseJson | Normalize | QuotaFetch | UsageInsert | N8nFetch | Done

  datatype Response =
    | Fail(status: int, stage: Stage, error: string)
    | BadGateway(upstreamStatus: int, detail: string)     // 502: the workflow answered non-2xx
    | Sent(jobId: Option<string>)                          // 200

  /** Outcome of everything up to the quota check, which only reads the store. */
  datatype Admission = Rejected(response: Response) | Admitted(userId: string, tier: string, payload: Payload)

  /** A thrown `Error` is reported as `JSON.stringify(e)`, which is `{}`. */
  const ThrownError := "{}"

  /** All four settings are present. */
  predicate Configured(cfg: Config) {
    cfg.supabaseUrl != "" && cfg.serviceKey != "" && cfg.n8nUrl != "" && cfg.signSecret != ""
  }

  /** The two validation checks of a normalised payload. */
  predicate Checked(p: Payload) {
    EmailRegex(p.customerEmail) && |p.items| > 0
  }

  /** Steps 1 to 5 of the handler: configuration, authentication, parsing,
      validation, usage windows and limits. Each check answers in the order
      of the handler; validation comes before the usage reads, and the daily
      limit is checked before the monthly one. */
  function Admit(cfg: Config, auth: Session, body: Parsed<RawPayload>, rows: seq<OwnedRow>, now: int,
                 dailyReply: CountReply, monthlyReply: CountReply): (a: Admission)
    ensures a.Rejected? ==> a.response.Fail?
    // the rejections before the store is read, in order
    ensures cfg.supabaseUrl == "" || cfg.serviceKey == "" ==>
              a == Rejected(Fail(500, Env, "Supabase not configured"))
    ensures cfg.supabaseUrl != "" && cfg.serviceKey != "" && (cfg.n8nUrl == "" || cfg.signSecret == "") ==>
              a == Rejected(Fail(500, Env, "n8n not configured"))
    ensures Configured(cfg) && auth.SessionError? ==> a == Rejected(Fail(500, AuthGetUser, auth.message))
    ensures Configured(cfg) && auth.NoSession? ==> a == Rejected(Fail(401, AuthGetUser, "Unauthorized"))
    ensures Configured(cfg) && auth.User? && body.Invalid? ==> a == Rejected(Fail(400, ParseJson, "Invalid JSON"))
    ensures Configured(cfg) && auth.User? && body.Null? ==> a == Rejected(Fail(500, Normalize, ThrownError))
    ensures Configured(cfg) && auth.User? && body.Obj? && !EmailRegex(NormalizePayload(body.value).customerEmail) ==>
              a == Rejected(Fail(400, Normalize, "Invalid customerEmail"))
    ensures Configured(cfg) && auth.User? && body.Obj? && EmailRegex(NormalizePayload(body.value).customerEmail)
            && NormalizePayload(body.value).items == [] ==>
              a == Rejected(Fail(400, Normalize, "No items provided"))
    // a valid request: a failed count is a 500, otherwise the quota decides
    ensures Configured(cfg) && auth.User? && body.Obj? && Checked(NormalizePayload(body.value))
            && (dailyReply.CountFailed? || monthlyReply.CountFailed?) ==>
              a == Rejected(Fail(500, QuotaFetch, ThrownError))
    ensures Configured(cfg) && auth.User? && body.Obj? && Checked(NormalizePayload(body.value))
            && !dailyReply.CountFailed? && !monthlyReply.CountFailed? ==>
              var quota := CheckQuota(Usage(CountValue(dailyReply, rows, auth.id, now - DayMs),
                                            CountValue(monthlyReply, rows, auth.id, now - MonthMs)),
                                      LimitsForTier(TierOf(auth.metaTier)));
              a == if quota.Some? then Rejected(Fail(429, QuotaFetch, quota.value))
                   else Admitted(auth.id, TierOf(auth.metaTier), NormalizePayload(body.value))
    ensures a.Admitted? ==>
              && cfg.supabaseUrl != "" && cfg.serviceKey != ""
              && cfg.n8nUrl != "" && cfg.signSecret != ""
              && auth.User? && a.userId == auth.id
              && a.tier == TierOf(auth.metaTier)
              && body.Obj? && a.payload == NormalizePayload(body.value)
              && EmailRegex(a.payload.customerEmail) && |a.payload.items| > 0
              && !dailyReply.CountFailed? && !monthlyReply.CountFailed?
    ensures a.Admitted? && dailyReply.CountExact? ==>
              CountSince(rows, a.userId, now - DayMs) < LimitsForTier(a.tier).daily
    ensures a.Admitted? && monthlyReply.CountExact? ==>
              CountSince(rows, a.userId, now - MonthMs) < LimitsForTier(a.tier).monthly
    ensures a.Rejected? && a.response.status == 429 ==>
              auth.User? && !dailyReply.CountFailed? && !monthlyReply.CountFailed?
  {
    if cfg.supabaseUrl == "" || cfg.serviceKey == "" then Rejected(Fail(500, Env, "Supabase not configured"))
    else if cfg.n8nUrl == "" || cfg.signSecret == "" then Rejected(Fail(500, Env, "n8n not configured"))
    else match auth
      case SessionError(m) => Rejected(Fail(500, AuthGetUser, m))
      case NoSession => Rejected(Fail(401, AuthGetUser, "Unauthorized"))
      case User(uid, metaTier) =>
        match body
        case Invalid => Rejected(Fail(400, ParseJson, "Invalid JSON"))
        case Null => Rejected(Fail(500, Normalize, ThrownError))
        case Obj(raw) =>
          var norm := NormalizePayload(raw);
          if !EmailRegex(norm.customerEmail) then Rejected(Fail(400, Normalize, "Invalid customerEmail"))
          else if |norm.items| == 0 then Rejected(Fail(400, Normalize, "No items provided"))
          else if dailyReply.CountFailed? || monthlyReply.CountFailed? then Rejected(Fail(500, QuotaFetch, ThrownError))
          else
            var usage := Usage(CountValue(dailyReply, rows, uid, now - DayMs),
                               CountValue(monthlyReply, rows, uid, now - MonthMs));
            var tier := TierOf(metaTier);
            match CheckQuota(usage, LimitsForTier(tier))
            case Some(msg) => Rejected(Fail(429, QuotaFetch, msg))
            case None => Admitted(uid, tier, norm)
  }

  /** With exact counts, a valid request from a user with at least the daily
      limit of usage rows in the trailing 24 hours gets 429 "Daily limit
      reached", whatever the monthly count; under the daily limit, one with at
      least the monthly limit in the trailing 30 days gets "Monthly limit
      reached"; under both it is admitted. */
  lemma QuotaDecidesAdmission(cfg: Config, uid: string, metaTier: Option<string>, raw: RawPayload,
                              rows: seq<OwnedRow>, now: int)
    requires Configured(cfg) && Checked(NormalizePayload(raw))
    ensures var a := Admit(cfg, User(uid, metaTier), Obj(raw), rows, now, CountExact, CountExact);
            var lim := LimitsForTier(TierOf(metaTier));
            var u := GetUsage(rows, uid, now);
            && (u.daily >= lim.daily ==> a == Rejected(Fail(429, QuotaFetch, "Daily limit reached")))
            && (u.daily < lim.daily && u.monthly >= lim.monthly ==>
                  a == Rejected(Fail(429, QuotaFetch, "Monthly limit reached")))
            && (u.daily < lim.daily && u.monthly < lim.monthly ==>
                  a == Admitted(uid, TierOf(metaTier), NormalizePayload(raw)))
  {
  }

  /** A request whose e-mail or items are invalid gets its 400 whatever the usage
      table holds and whatever the counting queries would answer. */
  lemma ValidationPrecedesQuota(cfg: Config, auth: Session, raw: RawPayload, now: int,
                                rows1: seq<OwnedRow>, d1: CountReply, m1: CountReply,
                                rows2: seq<OwnedRow>, d2: CountReply, m2: CountReply)
    requires cfg.supabaseUrl != "" && cfg.serviceKey != "" && cfg.n8nUrl != "" && cfg.signSecret != ""
    requires auth.User?
    requires !EmailRegex(NormalizePayload(raw).customerEmail) || NormalizePayload(raw).items == []
    ensures Admit(cfg, auth, Obj(raw), rows1, now, d1, m1) == Admit(cfg, auth, Obj(raw), rows2, now, d2, m2)
    ensures Admit(cfg, auth, Obj(raw), rows1, now, d1, m1).response.status == 400
  {
  }

  /** When the counts are exact, the usage row written for an admitted request
      keeps both trailing windows within the tier's limits. */
  lemma {:induction false} AdmittedStaysWithinLimits(cfg: Config, auth: Session, body: Parsed<RawPayload>,
                                                     rows: seq<OwnedRow>, now: int)
    requires Admit(cfg, auth, body, rows, now, CountExact, CountExact).Admitted?
    ensures var a := Admit(cfg, auth, body, rows, now, CountExact, CountExact);
            var after := rows + [OwnedRow(a.userId, now)];
            && CountSince(after, a.userId, now - DayMs) <= LimitsForTier(a.tier).daily
            && CountSince(after, a.userId, now - MonthMs) <= LimitsForTier(a.tier).monthly
  {
    var a := Admit(cfg, auth, body, rows, now, CountExact, CountExact);
    CountSinceAppend(rows, OwnedRow(a.userId, now), a.userId, now - DayMs);
    CountSinceAppend(rows, OwnedRow(a.userId, now), a.userId, now - MonthMs);
  }

  /** The invoice handed to the workflow: `{ ...norm, userId, tier }`. */
  datatype OutInvoice = OutInvoice(payload: Payload, userId: string, tier: string)

  /** A request handed to `fetch`: URL, body, and the `x-hmac-signature` header. */
  datatype SignedRequest = SignedRequest(url: string, body: string, signature: string)

  /** What `fetch` gave: a thrown error, or a reply with its status and text
      (a failed text read gives ""). */
  datatype FetchOutcome = FetchThrows | Replied(status: int, text: string)

  /** The workflow's JSON reply, as far as the handler reads it. */
  datatype ReplyJson = ReplyJson(jobId: Option<string>)

  /** One row of the `invoices` history table. */
  datatype HistoryRow = HistoryRow(userId: string, invoiceNum: string, customer: Fields,
                                   business: Fields, totals: Fields, createdAt: int)

  /** `norm.meta.invoiceNumber || ''`. */
  function InvoiceNumber(p: Payload): string {
    if "invoiceNumber" in p.meta then p.meta["invoiceNumber"] else ""
  }

  /** `n8nJson?.jobId ?? null`, where an empty reply and unparsable text give `null`. */
  function ReplyJobId(text: string, parse: string -> Option<ReplyJson>): (id: Option<string>)
    ensures text == "" ==> id.None?
    ensures text != "" && parse(text).None? ==> id.None?
    ensures text != "" && parse(text).Some? ==> id == parse(text).value.jobId
    ensures id.Some? ==> parse(text).Some? && parse(text).value.jobId == id
  {
    if text == "" then None
    else match parse(text)
      case None => None
      case Some(j) => j.jobId
  }

  /** The store the handler writes to, and the requests it has handed to `fetch`. */
  class Backend {
    var usage: seq<OwnedRow>
    var invoices: seq<HistoryRow>
    var outbox: seq<SignedRequest>

    constructor(usage0: seq<OwnedRow>, invoices0: seq<HistoryRow>)
      ensures usage == usage0 && invoices == invoices0 && outbox == []
    {
      usage := usage0;
      invoices := invoices0;
      outbox := [];
    }

    /** `POST /api/invoice`. The store replies, the insert errors (as
        `JSON.stringify` renders them) and the workflow's answer are parameters; `hmac(secret, text)` is HMAC-SHA256 in
        hex and `stringify` is `JSON.stringify({ invoice })`. */
    method Post(cfg: Config, auth: Session, body: Parsed<RawPayload>, now: int,
                dailyReply: CountReply, monthlyReply: CountReply,
                userInsertError: Option<string>, userIdInsertError: Option<string>,
                fetch: FetchOutcome, parseReply: string -> Option<ReplyJson>,
                historyInsertFails: bool,
                hmac: (string, string) -> string, stringify: OutInvoice -> string)
      returns (res: Response)
      modifies this
      // Rejected before any write: nothing changes and nothing is sent.
      ensures var a := Admit(cfg, auth, body, old(usage), now, dailyReply, monthlyReply);
              a.Rejected? ==>
                res == a.response && usage == old(usage)
                && invoices == old(invoices) && outbox == old(outbox)
      // Both usage inserts failed: a 500 and still nothing changes.
      ensures var a := Admit(cfg, auth, body, old(usage), now, dailyReply, monthlyReply);
              a.Admitted? && userInsertError.Some? && userIdInsertError.Some? ==>
                res == Fail(500, UsageInsert, "usage insert failed: " + userIdInsertError.value)
                && usage == old(usage) && invoices == old(invoices) && outbox == old(outbox)
      // Otherwise exactly one usage row is kept, whatever the dispatch does, and
      // exactly one request is sent whose signature is the HMAC of its own body.
      ensures var a := Admit(cfg, auth, body, old(usage), now, dailyReply, monthlyReply);
              a.Admitted? && (userInsertError.None? || userIdInsertError.None?) ==>
                var outBody := stringify(OutInvoice(a.payload, a.userId, a.tier));
                && usage == old(usage) + [OwnedRow(a.userId, now)]
                && outbox == old(outbox) + [SignedRequest(cfg.n8nUrl, outBody, hmac(cfg.signSecret, outBody))]
                && (fetch.FetchThrows? ==> res == Fail(500, N8nFetch, ThrownError) && invoices == old(invoices))
                && (fetch.Replied? && !(200 <= fetch.status < 300) ==>
                      res == BadGateway(fetch.status, fetch.text) && invoices == old(invoices))
                && (fetch.Replied? && 200 <= fetch.status < 300 ==>
                      && res == Sent(ReplyJobId(fetch.text, parseReply))
                      && invoices == old(invoices)
                           + (if historyInsertFails then []
                              else [HistoryRow(a.userId, InvoiceNumber(a.payload), a.payload.customer,
                                               a.payload.business, a.payload.totals, now)]))
      ensures res.Sent? || res.BadGateway? ==> |usage| == |old(usage)| + 1
    {
      // 1) to 5): configuration, auth, parse, validation, quota
      var admission := Admit(cfg, auth, body, usage, now, dailyReply, monthlyReply);
      if admission.Rejected? {
        return admission.response;
      }
      var Admitted(userId, tier, norm) := admission;

      // 6) record usage, retrying with the other user column
      var stage := UsageInsert;
      var insErr := userInsertError;
      if insErr.Some? {
        insErr := userIdInsertError;
      }
      if insErr.Some? {
        return Fail(500, stage, "usage insert failed: " + insErr.value);
      }
      usage := usage + [OwnedRow(userId, now)];

      // 7) prepare and sign
      var outBody := stringify(OutInvoice(norm, userId, tier));
      var signature := hmac(cfg.signSecret, outBody);

      // 8) send
      stage := N8nFetch;
      outbox := outbox + [SignedRequest(cfg.n8nUrl, outBody, signature)];
      if fetch.FetchThrows? {
        return Fail(500, stage, ThrownError);
      }
      var jobId := ReplyJobId(fetch.text, parseReply);
      if !(200 <= fetch.status < 300) {
        return BadGateway(fetch.status, fetch.text);
      }

      // 9) history row; a failed insert is only logged
      if !historyInsertFails {
        invoices := invoices + [HistoryRow(userId, InvoiceNumber(norm), norm.customer,
                                           norm.business, norm.totals, now)];
      }

      // 10) done
      res := Sent(jobId);
    }
  }
}
