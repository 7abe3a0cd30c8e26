/** Shared vocabulary of the route handlers: optional values, the outcome of a
    JSON parse, the reply of a counting query, and the handful of JavaScript
    string operations the handlers use (`toLowerCase`, `includes`, `trim`). */
module Common {

  datatype Option<T> = None | Some(value: T)

  /** JavaScript truthiness of an optional string: `undefined`, `null` and `""` are falsy. */
  predicate Truthy(s: Option<string>) {
    s.Some? && s.value != ""
  }

  /** `a || b` on optional strings. */
  function OrElse(a: Option<string>, b: Option<string>): (r: Option<string>)
    ensures Truthy(a) ==> r == a
    ensures !Truthy(a) ==> r == b
  {
    if Truthy(a) then a else b
  }

  /** What `req.json()` / `JSON.parse` gives: a parse error, the JSON literal
      `null` (destructuring it throws a TypeError), or a value. */
  datatype Parsed<T> = Invalid | Null | Obj(value: T)

  /** `auth.getUser()`: an error, no session, or a user with its `app_metadata.tier`. */
  datatype Session = SessionError(message: string) | NoSession | User(id: string, metaTier: Option<string>)

  /** The two columns a counting query looks at: the owning user and `created_at`
      (timestamps are milliseconds since 1970-01-01T00:00:00Z). */
  datatype OwnedRow = OwnedRow(owner: string, createdAt: int)

  /** Number of rows of `owner` with `created_at >= since`. */
  function CountSince(rows: seq<OwnedRow>, owner: string, since: int): (n: nat)
    ensures n <= |rows|
  {
    if rows == [] then 0
    else CountSince(rows[..|rows| - 1], owner, since)
         + (if rows[|rows| - 1].owner == owner && rows[|rows| - 1].createdAt >= since then 1 else 0)
  }

  /** A later window start never counts more rows. */
  lemma {:induction false} CountSinceAntitone(rows: seq<OwnedRow>, owner: string, a: int, b: int)
    requires a <= b
    ensures CountSince(rows, owner, b) <= CountSince(rows, owner, a)
  {
    if rows != [] {
      CountSinceAntitone(rows[..|rows| - 1], owner, a, b);
    }
  }

  /** Appending a row adds one to exactly the counts that include it. */
  lemma CountSinceAppend(rows: seq<OwnedRow>, row: OwnedRow, owner: string, since: int)
    ensures CountSince(rows + [row], owner, since)
            == CountSince(rows, owner, since) + (if row.owner == owner && row.createdAt >= since then 1 else 0)
  {
    assert (rows + [row])[..|rows|] == rows;
  }

  /** Reply of a Supabase `select(..., { head: true, count: 'exact' })`:
      an error, a missing count (`null`), or the exact number of matching rows. */
  datatype CountReply = CountFailed(message: string) | CountMissing | CountExact

  /** The count a handler uses: the exact count, or 0 for a missing one (`count ?? 0`). */
  function CountValue(reply: CountReply, rows: seq<OwnedRow>, owner: string, since: int): (n: nat)
    requires !reply.CountFailed?
    ensures reply.CountExact? ==> n == CountSince(rows, owner, since)
    ensures reply.CountMissing? ==> n == 0
  {
    if reply.CountExact? then CountSince(rows, owner, since) else 0
  }

  /** The characters matched by `\s` in a JavaScript regular expression and
      removed by `String.prototype.trim`. */
  predicate IsJsSpace(c: char) {
    c == '\t' || c == '\n' || c == '\U{000B}' || c == '\U{000C}' || c == '\r' || c == ' '
    || c == '\U{00A0}' || c == '\U{1680}' || ('\U{2000}' <= c <= '\U{200A}')
    || c == '\U{2028}' || c == '\U{2029}' || c == '\U{202F}' || c == '\U{205F}'
    || c == '\U{3000}' || c == '\U{FEFF}'
  }

  /** `toLowerCase` on the ASCII letters. */
  function LowerChar(c: char): (r: char)
    ensures 'A' <= c <= 'Z' ==> r as int == c as int + 32
    ensures !('A' <= c <= 'Z') ==> r == c
  {
    if 'A' <= c <= 'Z' then (c as int + 32) as char else c
  }

  function ToLower(s: string): (r: string)
    ensures |r| == |s|
    ensures forall i :: 0 <= i < |s| ==> r[i] == LowerChar(s[i])
  {
    seq(|s|, i requires 0 <= i < |s| => LowerChar(s[i]))
  }

  /** `s.includes(sub)`: some window of `s` equals `sub` (the empty string is in every string). */
  predicate Contains(s: string, sub: string) {
    exists i | 0 <= i <= |s| - |sub| :: OccursAt(s, sub, i)
  }

  /** `sub` stands in `s` starting at index `i`. */
  predicate OccursAt(s: string, sub: string, i: int) {
    0 <= i <= |s| - |sub| && s[i..i + |sub|] == sub
  }

  /** Number of leading characters of `s` that are white space. */
  function LeadingSpace(s: string): (n: nat)
    ensures n <= |s|
    ensures forall i :: 0 <= i < n ==> IsJsSpace(s[i])
    ensures n < |s| ==> !IsJsSpace(s[n])
  {
    if s == [] || !IsJsSpace(s[0]) then 0 else 1 + LeadingSpace(s[1..])
  }

  /** Number of trailing characters of `s` that are white space. */
  function TrailingSpace(s: string): (n: nat)
    ensures n <= |s|
    ensures forall i :: |s| - n <= i < |s| ==> IsJsSpace(s[i])
    ensures n < |s| ==> !IsJsSpace(s[|s| - 1 - n])
  {
    if s == [] || !IsJsSpace(s[|s| - 1]) then 0 else 1 + TrailingSpace(s[..|s| - 1])
  }

  /** `s.trim()`: the longest infix that neither starts nor ends with white space. */
  function Trim(s: string): (r: string)
    ensures r == [] || (!IsJsSpace(r[0]) && !IsJsSpace(r[|r| - 1]))
    ensures exists i, j | 0 <= i <= j <= |s| ::
              && r == s[i..j]
              && (forall k :: 0 <= k < i ==> IsJsSpace(s[k]))
              && (forall k :: j <= k < |s| ==> IsJsSpace(s[k]))
    ensures (forall k :: 0 <= k < |s| ==> IsJsSpace(s[k])) <==> r == []
  {
    var a := LeadingSpace(s);
    var b := TrailingSpace(s[a..]);
    assert a < |s| ==> b < |s| - a;
    assert forall k :: |s| - b <= k < |s| ==> s[k] == s[a..][k - a];
    s[a..|s| - b]
  }
}
