/** The dashboard's invoice table: the search box filters the loaded
    invoices by number or customer address, the sort menu orders a copy of
    them, and the table shows the first `page * 12` rows with a Next button
    while more remain. */
module Dashboard {
  import opened Common
  import opened InvoicesRoute

  const PageSize := 12

  /** The four orders of the sort menu. */
  datatype SortKey = DateDesc | DateAsc | AmountDesc | AmountAsc

  /** `q.trim().toLowerCase()`. */
  function Query(q: string): (query: string)
    ensures |query| <= |q|
    ensures |query| == |Trim(q)| && forall k :: 0 <= k < |query| ==> query[k] == LowerChar(Trim(q)[k])
    ensures query == "" <==> forall k :: 0 <= k < |q| ==> IsJsSpace(q[k])
  {
    ToLower(Trim(q))
  }

  /** `r.id.toLowerCase().includes(query) || (r.email ?? '').toLowerCase().includes(query)`. */
  predicate Matches(r: Invoice, query: string) {
    Contains(ToLower(r.id), query) || Contains(ToLower(if r.email.Some? then r.email.value else ""), query)
  }

  /** The rows `keep` accepts, in their loaded order (`Array.filter`). */
  function Filter(rows: seq<Invoice>, keep: Invoice -> bool): (r: seq<Invoice>)
    ensures |r| <= |rows|
    ensures forall x :: multiset(r)[x] == if keep(x) then multiset(rows)[x] else 0
  {
    if rows == [] then []
    else
      var init := rows[..|rows| - 1];
      var last := rows[|rows| - 1];
      assert rows == init + [last];
      assert multiset(rows) == multiset(init) + multiset{last};
      var rest := Filter(init, keep);
      if keep(last) then
        assert multiset(rest + [last]) == multiset(rest) + multiset{last};
        rest + [last]
      else rest
  }

  /** The rows kept by the search, in their loaded order. */
  function Select(rows: seq<Invoice>, query: string): (r: seq<Invoice>)
    ensures |r| <= |rows|
    ensures forall x :: x in r ==> x in rows && Matches(x, query)
    ensures forall x :: x in rows && Matches(x, query) ==> x in r
    ensures forall x :: multiset(r)[x] == if Matches(x, query) then multiset(rows)[x] else 0
  {
    var r := Filter(rows, x => Matches(x, query));
    SelectedMembers(r, rows, query);
    r
  }

  /** Counting each row as the search does settles which rows are kept. */
  lemma SelectedMembers(r: seq<Invoice>, rows: seq<Invoice>, query: string)
    requires forall x :: multiset(r)[x] == if Matches(x, query) then multiset(rows)[x] else 0
    ensures forall x :: x in r ==> x in rows && Matches(x, query)
    ensures forall x :: x in rows && Matches(x, query) ==> x in r
  {
    forall x | x in r
      ensures x in rows && Matches(x, query)
    {
      assert multiset(r)[x] > 0;
    }
    forall x | x in rows && Matches(x, query)
      ensures x in r
    {
      assert multiset(rows)[x] > 0;
    }
  }

  /** The search step of `filtered`: an empty query keeps every row. */
  function Search(rows: seq<Invoice>, q: string): (r: seq<Invoice>)
    ensures Query(q) == "" ==> r == rows
    ensures Query(q) != "" ==> r == Select(rows, Query(q))
  {
    var query := Query(q);
    if query == "" then rows else Select(rows, query)
  }

  /** The number the comparator subtracts: the time or the total, negated for
      the descending orders, so that every order sorts `Rank` ascending
      (`+new Date(b) - +new Date(a)` is `Rank(a) - Rank(b)` for `DateDesc`). */
  function Rank(r: Invoice, key: SortKey): real {
    match key
    case DateDesc => -(r.createdAt as real)
    case DateAsc => r.createdAt as real
    case AmountDesc => -r.total
    case AmountAsc => r.total
  }

  predicate Sorted(rows: seq<Invoice>, key: SortKey) {
    forall i, j :: 0 <= i < j < |rows| ==> Rank(rows[i], key) <= Rank(rows[j], key)
  }

  /** Place `x` after every row that does not rank strictly after it. */
  function Insert(x: Invoice, s: seq<Invoice>, key: SortKey): (r: seq<Invoice>)
    ensures multiset(r) == multiset(s) + multiset{x}
  {
    if s == [] then [x]
    else if Rank(x, key) < Rank(s[0], key) then [x] + s
    else
      assert s == [s[0]] + s[1..];
      [s[0]] + Insert(x, s[1..], key)
  }

  /** Inserting into a sorted sequence leaves it sorted. */
  lemma {:induction false} InsertKeepsSorted(x: Invoice, s: seq<Invoice>, key: SortKey)
    requires Sorted(s, key)
    ensures Sorted(Insert(x, s, key), key)
  {
    if s != [] && Rank(s[0], key) <= Rank(x, key) {
      var tail := Insert(x, s[1..], key);
      InsertKeepsSorted(x, s[1..], key);
      forall k | 0 <= k < |tail|
        ensures Rank(s[0], key) <= Rank(tail[k], key)
      {
        assert tail[k] in multiset(tail);
        if tail[k] != x {
          assert tail[k] in multiset(s[1..]);
          var j :| 0 <= j < |s[1..]| && s[1..][j] == tail[k];
          assert s[j + 1] == tail[k];
        }
      }
      var r := [s[0]] + tail;
      assert r == Insert(x, s, key);
      forall i, j | 0 <= i < j < |r|
        ensures Rank(r[i], key) <= Rank(r[j], key)
      {
        if i > 0 {
          assert r[i] == tail[i - 1] && r[j] == tail[j - 1];
        } else {
          assert r[j] == tail[j - 1];
        }
      }
    }
  }

  /** `[...rows].sort(cmp)`: a sorted permutation of the rows; equal ranks
      keep their loaded order. */
  function SortRows(rows: seq<Invoice>, key: SortKey): (r: seq<Invoice>)
    ensures multiset(r) == multiset(rows)
    ensures Sorted(r, key)
  {
    if rows == [] then []
    else
      assert rows == rows[..|rows| - 1] + [rows[|rows| - 1]];
      var sorted := SortRows(rows[..|rows| - 1], key);
      InsertKeepsSorted(rows[|rows| - 1], sorted, key);
      Insert(rows[|rows| - 1], sorted, key)
  }

  /** The `filtered` memo. */
  function Filtered(invoices: seq<Invoice>, q: string, key: SortKey): (r: seq<Invoice>)
    ensures Sorted(r, key)
    ensures multiset(r) == multiset(Search(invoices, q))
  {
    SortRows(Search(invoices, q), key)
  }

  /** Exactly the matching rows are listed, each as often as it was loaded. */
  lemma FilteredKeepsExactlyMatches(invoices: seq<Invoice>, q: string, key: SortKey, x: Invoice)
    requires Query(q) != ""
    ensures x in Filtered(invoices, q, key) <==> x in invoices && Matches(x, Query(q))
    ensures multiset(Filtered(invoices, q, key))[x] == if Matches(x, Query(q)) then multiset(invoices)[x] else 0
  {
    assert x in Filtered(invoices, q, key) <==> x in multiset(Filtered(invoices, q, key));
  }

  /** The two orders on one key are each other's reverse, up to ties. */
  lemma OppositeOrders(a: Invoice, b: Invoice)
    ensures Rank(a, DateDesc) <= Rank(b, DateDesc) <==> Rank(b, DateAsc) <= Rank(a, DateAsc)
    ensures Rank(a, AmountDesc) <= Rank(b, AmountDesc) <==> Rank(b, AmountAsc) <= Rank(a, AmountAsc)
  {
  }

  /** `filtered.slice(0, page * pageSize)`. */
  function Visible(filtered: seq<Invoice>, page: nat): (v: seq<Invoice>)
    ensures |v| == if |filtered| < page * PageSize then |filtered| else page * PageSize
    ensures v == filtered[..|v|]
  {
    if |filtered| <= page * PageSize then filtered else filtered[..page * PageSize]
  }

  /** `filtered.length > page * pageSize ? page + 1 : null`. */
  function NextPage(n: nat, page: nat): (p: Option<nat>)
    ensures p.Some? <==> n > page * PageSize
    ensures p.Some? ==> p.value == page + 1
  {
    if n > page * PageSize then Some(page + 1) else None
  }

  /** Next is offered exactly when rows are hidden, and following it shows
      twelve more (or all that remain). */
  lemma {:induction false} NextShowsMore(filtered: seq<Invoice>, page: nat)
    ensures NextPage(|filtered|, page).Some? <==> |Visible(filtered, page)| < |filtered|
    ensures NextPage(|filtered|, page).Some? ==>
              && Visible(filtered, page) < Visible(filtered, page + 1)
              && |Visible(filtered, page + 1)| - |Visible(filtered, page)| ==
                   (if |filtered| < (page + 1) * PageSize then |filtered| - page * PageSize else PageSize)
  {
    if NextPage(|filtered|, page).Some? {
      var v := Visible(filtered, page);
      var w := Visible(filtered, page + 1);
      assert v == w[..|v|];
    }
  }

  /** The status pill of a row; the Download link shows with "Ready". */
  function Pill(r: Invoice): (shown: string)
    ensures shown == "Ready" <==> Truthy(r.pdfUrl)
    ensures shown == "Ready" || shown == "Pending"
  {
    if Truthy(r.pdfUrl) then "Ready" else "Pending"
  }

  /** The search box, sort menu and pager. */
  datatype View = View(q: string, key: SortKey, page: nat)

  const Initial := View("", DateDesc, 1)

  datatype Input = EditQuery(text: string) | ChooseSort(key: SortKey) | ClickNext

  /** The handlers: typing resets the page to 1, choosing an order keeps the
      page, Next goes one page on. */
  function OnInput(v: View, i: Input): (w: View)
    ensures i.EditQuery? ==> w == View(i.text, v.key, 1)
    ensures i.ChooseSort? ==> w == v.(key := i.key)
    ensures i.ClickNext? ==> w == v.(page := v.page + 1)
  {
    match i
    case EditQuery(text) => View(text, v.key, 1)
    case ChooseSort(key) => v.(key := key)
    case ClickNext => v.(page := v.page + 1)
  }

  /** The table the user sees for a view of the loaded invoices. */
  function Shown(invoices: seq<Invoice>, v: View): (rows: seq<Invoice>)
    ensures |rows| <= |invoices|
    ensures Sorted(rows, v.key)
    ensures forall x :: x in rows ==> x in invoices
  {
    var f := Filtered(invoices, v.q, v.key);
    assert |f| == |multiset(f)| == |multiset(Search(invoices, v.q))| == |Search(invoices, v.q)|;
    var s := Visible(f, v.page);
    assert forall x :: x in s ==> x in f;
    assert forall x :: x in f ==> x in multiset(Search(invoices, v.q));
    assert forall i, j :: 0 <= i < j < |s| ==> s[i] == f[i] && s[j] == f[j];
    s
  }

  /** After typing a new search, at most the first twelve matches show. */
  lemma {:induction false} EditShowsFirstPage(invoices: seq<Invoice>, v: View, text: string)
    ensures |Shown(invoices, OnInput(v, EditQuery(text)))| <= PageSize
  {
    var w := OnInput(v, EditQuery(text));
    assert w.page == 1;
    var f := Filtered(invoices, w.q, w.key);
    assert |Visible(f, 1)| <= PageSize;
  }
}
