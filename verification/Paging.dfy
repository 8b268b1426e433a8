/** Keyset pagination composed with the browser's page collector: the server answers each page from the
    table as it is at that moment, the browser follows cursors until the empty one. */
module Paging {
  import opened Actions
  import opened Order
  import ControlPlane

  /** A strict total order on row keys, the ORDER BY of a listing. */
  ghost predicate StrictOrder<K(!new)>(lt: (K, K) -> bool) {
    && (forall a :: !lt(a, a))
    && (forall a, b :: lt(a, b) || a == b || lt(b, a))
    && (forall a, b, c :: lt(a, b) && lt(b, c) ==> lt(a, c))
  }

  ghost predicate Sorted<K(!new)>(lt: (K, K) -> bool, s: seq<K>) {
    forall i, j :: 0 <= i < j < |s| ==> lt(s[i], s[j])
  }

  predicate Beyond<K>(lt: (K, K) -> bool, cursor: Option<K>, k: K) {
    cursor.None? || lt(cursor.value, k)
  }

  /** The rows of an ordered index that the WHERE clause keeps. */
  function Where<K>(lt: (K, K) -> bool, index: seq<K>, cursor: Option<K>): seq<K> {
    if index == [] then []
    else if Beyond(lt, cursor, index[0]) then [index[0]] + Where(lt, index[1..], cursor)
    else Where(lt, index[1..], cursor)
  }

  function Take<K>(rows: seq<K>, n: nat): seq<K> {
    if |rows| <= n then rows else rows[..n]
  }

  const DEFAULT_PAGE_SIZE := 50

  function PageSize(requested: int): (n: nat)
    ensures n >= 1 && (requested > 0 ==> n == requested) && (requested <= 0 ==> n == 50)
  {
    if requested <= 0 then DEFAULT_PAGE_SIZE else requested
  }

  /** One row too many was fetched exactly when there is a next page. */
  function Paginate<K>(rows: seq<K>, limit: nat, token: K -> string): (seq<K>, string)
    requires limit >= 1
  {
    if |rows| <= limit then (rows, "") else (rows[..limit], token(rows[limit - 1]))
  }

  /** The server's answer to one page request. */
  function LoadPage<K>(lt: (K, K) -> bool, token: K -> string, position: string -> Option<K>,
                       index: seq<K>, pageToken: string, limit: nat): (seq<K>, string)
    requires limit >= 1
  {
    Paginate(Take(Where(lt, index, position(pageToken)), limit + 1), limit, token)
  }

  /** Cursors name their row and never look like the end of the listing, and the empty one precedes all rows. */
  ghost predicate Codec<K(!new)>(lt: (K, K) -> bool, token: K -> string, position: string -> Option<K>, index: seq<K>) {
    forall k :: k in index ==> token(k) != "" && position(token(k)) == Some(k) && Beyond(lt, position(""), k)
  }

  // ---------------------------------------------------------------- one page

  lemma {:induction false} WhereMembers<K(!new)>(lt: (K, K) -> bool, index: seq<K>, cursor: Option<K>)
    requires StrictOrder(lt) && Sorted(lt, index)
    ensures Sorted(lt, Where(lt, index, cursor))
    ensures forall k :: k in Where(lt, index, cursor) <==> k in index && Beyond(lt, cursor, k)
  {
    if index != [] {
      WhereMembers(lt, index[1..], cursor);
      forall k | k in index[1..] ensures lt(index[0], k) {
        var i :| 0 <= i < |index[1..]| && index[1..][i] == k;
        assert index[i + 1] == k;
      }
      assert index == [index[0]] + index[1..];
    }
  }

  /** Where a cursor stands on a row of the index, the clause keeps exactly the rows after it. */
  lemma {:induction false} WhereIsSuffix<K(!new)>(lt: (K, K) -> bool, index: seq<K>, i: nat)
    requires StrictOrder(lt) && Sorted(lt, index) && i < |index|
    ensures Where(lt, index, Some(index[i])) == index[i + 1..]
    decreases |index|
  {
    if i == 0 {
      WhereAll(lt, index[1..], Some(index[0]));
    } else {
      WhereIsSuffix(lt, index[1..], i - 1);
      assert lt(index[0], index[i]);
      assert index[1..][i..] == index[i + 1..];
    }
  }

  lemma {:induction false} WhereAll<K(!new)>(lt: (K, K) -> bool, index: seq<K>, cursor: Option<K>)
    requires forall k :: k in index ==> Beyond(lt, cursor, k)
    ensures Where(lt, index, cursor) == index
  {
    if index != [] {
      WhereAll(lt, index[1..], cursor);
      assert index == [index[0]] + index[1..];
    }
  }

  ghost predicate SplitsAt<K(!new)>(lt: (K, K) -> bool, rows: seq<K>, n: nat) {
    n < |rows| && forall k :: k in rows ==> k in rows[..n + 1] || lt(rows[n], k)
  }

  lemma SortedSplits<K(!new)>(lt: (K, K) -> bool, rows: seq<K>, n: nat)
    requires Sorted(lt, rows) && n < |rows|
    ensures SplitsAt(lt, rows, n)
  {
    forall k | k in rows ensures k in rows[..n + 1] || lt(rows[n], k) {
      var i :| 0 <= i < |rows| && rows[i] == k;
      if i <= n { assert rows[..n + 1][i] == k; }
    }
  }

  /** What one page promises: rows of the table beyond the cursor, in order, and none of them skipped. */
  lemma PageIsExact<K(!new)>(lt: (K, K) -> bool, token: K -> string, position: string -> Option<K>,
                             index: seq<K>, pageToken: string, limit: nat)
    requires StrictOrder(lt) && Sorted(lt, index) && Codec(lt, token, position, index) && limit >= 1
    ensures var (items, next) := LoadPage(lt, token, position, index, pageToken, limit);
      && Sorted(lt, items)
      && (forall k :: k in items ==> k in index && Beyond(lt, position(pageToken), k))
      && (next == "" ==> forall k :: k in index && Beyond(lt, position(pageToken), k) ==> k in items)
      && (next != "" ==>
            && |items| == limit && next == token(items[limit - 1])
            && forall k :: k in index && Beyond(lt, position(pageToken), k) ==> k in items || lt(items[limit - 1], k))
  {
    var cursor := position(pageToken);
    var rows := Where(lt, index, cursor);
    WhereMembers(lt, index, cursor);
    if |rows| > limit {
      SortedSplits(lt, rows, limit - 1);
      assert Take(rows, limit + 1)[..limit] == rows[..limit];
      assert rows[limit - 1] in rows;
    }
  }

  // ---------------------------------------------------------------- all pages

  /** `Unfinished` stands for a collection that has not yet seen the empty cursor. */
  datatype Collection<K> = Collected(items: seq<K>, pages: nat) | Unfinished(items: seq<K>) | RepeatedCursor

  ghost predicate Tables<K(!new)>(lt: (K, K) -> bool, token: K -> string, position: string -> Option<K>,
                           tables: seq<seq<K>>) {
    forall t :: 0 <= t < |tables| ==> Sorted(lt, tables[t]) && Codec(lt, token, position, tables[t])
  }

  ghost predicate PresentThroughout<K(!new)>(tables: seq<seq<K>>, n: nat, k: K)
    requires n <= |tables|
  {
    forall t :: 0 <= t < n ==> k in tables[t]
  }

  /** After `n` pages: the items are in order and come from the tables, the cursor stands on the last of
      them, earlier cursors stand strictly before it, and no lasting row up to it was missed. */
  ghost predicate Progress<K(!new)>(
    lt: (K, K) -> bool, token: K -> string, position: string -> Option<K>, tables: seq<seq<K>>, n: nat,
    items: seq<K>, seen: set<string>, pageToken: string)
    requires n <= |tables|
  {
    && Sorted(lt, items)
    && (forall k :: k in items ==> FromTables(tables, n, k))
    && (if n == 0 then items == [] && pageToken == "" && seen == {}
        else |items| > 0 && pageToken == token(items[|items| - 1])
             && position(pageToken) == Some(items[|items| - 1]) && pageToken != "")
    && (forall s :: s in seen ==> s == "" || (position(s).Some? && n > 0 && lt(position(s).value, items[|items| - 1])))
    && (forall k :: n > 0 && PresentThroughout(tables, n, k) ==> k in items || lt(items[|items| - 1], k))
  }

  ghost predicate FromTables<K(!new)>(tables: seq<seq<K>>, n: nat, k: K)
    requires n <= |tables|
  {
    exists t :: 0 <= t < n && k in tables[t]
  }

  lemma NotRepeated<K(!new)>(lt: (K, K) -> bool, token: K -> string, position: string -> Option<K>, tables: seq<seq<K>>,
                             n: nat, items: seq<K>, seen: set<string>, pageToken: string)
    requires StrictOrder(lt) && n <= |tables| && Progress(lt, token, position, tables, n, items, seen, pageToken)
    ensures pageToken !in seen
  {
  }

  lemma SortedConcat<K(!new)>(lt: (K, K) -> bool, a: seq<K>, b: seq<K>)
    requires StrictOrder(lt) && Sorted(lt, a) && Sorted(lt, b)
    requires a != [] ==> forall k :: k in b ==> lt(a[|a| - 1], k)
    ensures Sorted(lt, a + b)
  {
    forall i, j | 0 <= i < j < |a + b| ensures lt((a + b)[i], (a + b)[j]) {
      if i < |a| <= j {
        assert b[j - |a|] in b;
        if i < |a| - 1 { assert lt(a[i], a[|a| - 1]); }
      }
    }
  }

  /** One more page: everything collected stays in order, and no lasting row is skipped. */
  lemma OnePage<K(!new)>(lt: (K, K) -> bool, token: K -> string, position: string -> Option<K>, tables: seq<seq<K>>,
                         n: nat, items: seq<K>, seen: set<string>, pageToken: string, limit: nat)
    requires StrictOrder(lt) && n < |tables| && Tables(lt, token, position, tables) && limit >= 1
    requires Progress(lt, token, position, tables, n, items, seen, pageToken)
    ensures var (page, next) := LoadPage(lt, token, position, tables[n], pageToken, limit);
      && Sorted(lt, items + page)
      && (forall k :: k in items + page ==> FromTables(tables, n + 1, k))
      && (next == "" ==> forall k :: PresentThroughout(tables, n + 1, k) ==> k in items + page)
      && (next != "" ==> Progress(lt, token, position, tables, n + 1, items + page, seen + {pageToken}, next))
  {
    hide LoadPage;
    var (page, next) := LoadPage(lt, token, position, tables[n], pageToken, limit);
    PageIsExact(lt, token, position, tables[n], pageToken, limit);
    SortedConcat(lt, items, page);
    forall k | k in items + page ensures FromTables(tables, n + 1, k) {
      if k in items {
        var t :| 0 <= t < n && k in tables[t];
        assert 0 <= t < n + 1;
      } else {
        assert k in tables[n];
      }
    }
    forall k | PresentThroughout(tables, n + 1, k)
      ensures k in items || (k in tables[n] && Beyond(lt, position(pageToken), k))
    {
      assert PresentThroughout(tables, n, k);
      assert k in tables[n];
    }
    if next != "" {
      var all := items + page;
      assert all[|all| - 1] == page[limit - 1];
      assert page[limit - 1] in page;
      SeenBelow(lt, position, items, seen, pageToken, page[limit - 1], n);
    }
  }

  lemma SeenBelow<K(!new)>(lt: (K, K) -> bool, position: string -> Option<K>, items: seq<K>, seen: set<string>,
                           pageToken: string, last: K, n: nat)
    requires StrictOrder(lt) && (n == 0 ==> pageToken == "" && seen == {})
    requires n > 0 ==> |items| > 0 && position(pageToken) == Some(items[|items| - 1]) && lt(items[|items| - 1], last)
    requires forall s :: s in seen ==>
      s == "" || (position(s).Some? && n > 0 && lt(position(s).value, items[|items| - 1]))
    ensures forall s :: s in seen + {pageToken} ==> s == "" || (position(s).Some? && lt(position(s).value, last))
  {
  }

  /** The collector. The n-th page is answered from `tables[n]`; rows may come and go between pages. */
  method CollectPages<K(!new)>(
      lt: (K, K) -> bool, token: K -> string, position: string -> Option<K>, tables: seq<seq<K>>, limit: nat)
    returns (r: Collection<K>)
    requires StrictOrder(lt) && Tables(lt, token, position, tables) && limit >= 1
    ensures !r.RepeatedCursor?
    ensures Sorted(lt, r.items) && forall k :: k in r.items ==> FromTables(tables, |tables|, k)
    ensures r.Collected? ==> r.pages <= |tables| && forall k :: PresentThroughout(tables, r.pages, k) ==> k in r.items
    ensures Static(tables) && PagesNeeded(|tables[0]|, limit) <= |tables| ==>
      r.Collected? && r.items == tables[0] && r.pages == PagesNeeded(|tables[0]|, limit)
  {
    var items: seq<K> := [];
    var seen: set<string> := {};
    var pageToken := "";
    var n := 0;
    while n < |tables|
      invariant 0 <= n <= |tables| && Progress(lt, token, position, tables, n, items, seen, pageToken)
      invariant Static(tables) ==> StaticProgress(tables[0], n, limit, items)
    {
      hide Progress, LoadPage, Tables, Sorted, StaticProgress, FromTables, PresentThroughout;
      NotRepeated(lt, token, position, tables, n, items, seen, pageToken);
      if pageToken in seen { return RepeatedCursor; }
      OnePage(lt, token, position, tables, n, items, seen, pageToken, limit);
      var page := LoadPage(lt, token, position, tables[n], pageToken, limit);
      if Static(tables) { StaticPage(lt, token, position, tables, n, items, seen, pageToken, limit); }
      seen := seen + {pageToken};
      items := items + page.0;
      pageToken := page.1;
      n := n + 1;
      if pageToken == "" {
        FromAllTables(tables, n, items);
        return Collected(items, n);
      }
    }
    r := Unfinished(items);
  }

  // ---------------------------------------------------------------- a table nobody changes

  ghost predicate Static<K(!new)>(tables: seq<seq<K>>) {
    |tables| > 0 && forall t :: 0 <= t < |tables| ==> tables[t] == tables[0]
  }

  function PagesNeeded(rows: nat, limit: nat): (p: nat)
    requires limit >= 1
    ensures 1 <= p <= rows + 1
  {
    if rows <= limit then 1 else 1 + PagesNeeded(rows - limit, limit)
  }

  /** The page count is the row count divided by the page size, rounded up, and one for an empty table. */
  lemma {:induction false} PagesNeededIsCeiling(rows: nat, limit: nat)
    requires limit >= 1
    ensures rows <= PagesNeeded(rows, limit) * limit
    ensures rows > 0 ==> (PagesNeeded(rows, limit) - 1) * limit < rows
    decreases rows
  {
    if rows > limit {
      PagesNeededIsCeiling(rows - limit, limit);
      var p := PagesNeeded(rows - limit, limit);
      assert (1 + p) * limit == limit + p * limit;
      assert p * limit == limit + (p - 1) * limit;
    }
  }

  ghost predicate StaticProgress<K(!new)>(table: seq<K>, n: nat, limit: nat, items: seq<K>)
    requires limit >= 1
  {
    && |items| <= |table| && items == table[..|items|]
    && PagesNeeded(|table|, limit) == n + PagesNeeded(|table| - |items|, limit)
  }

  lemma FromAllTables<K(!new)>(tables: seq<seq<K>>, n: nat, items: seq<K>)
    requires n <= |tables| && forall k :: k in items ==> FromTables(tables, n, k)
    ensures forall k :: k in items ==> FromTables(tables, |tables|, k)
  {
    forall k | k in items ensures FromTables(tables, |tables|, k) {
      var t :| 0 <= t < n && k in tables[t];
      assert 0 <= t < |tables|;
    }
  }

  lemma StaticPage<K(!new)>(lt: (K, K) -> bool, token: K -> string, position: string -> Option<K>, tables: seq<seq<K>>,
                            n: nat, items: seq<K>, seen: set<string>, pageToken: string, limit: nat)
    requires StrictOrder(lt) && n < |tables| && Tables(lt, token, position, tables) && limit >= 1 && Static(tables)
    requires Progress(lt, token, position, tables, n, items, seen, pageToken)
    requires StaticProgress(tables[0], n, limit, items)
    ensures var (page, next) := LoadPage(lt, token, position, tables[n], pageToken, limit);
      && (next == "" ==> items + page == tables[0] && n + 1 == PagesNeeded(|tables[0]|, limit))
      && (next != "" ==> StaticProgress(tables[0], n + 1, limit, items + page))
  {
    var table := tables[0];
    var rest := table[|items|..];
    assert Codec(lt, token, position, table);
    RestOfTable(lt, table, position(pageToken), items);
    var (page, next) := LoadPage(lt, token, position, tables[n], pageToken, limit);
    if |rest| > limit {
      assert page == rest[..limit];
      assert rest[limit - 1] in table;
      assert items + page == table[..|items| + limit];
    }
  }

  lemma RestOfTable<K(!new)>(lt: (K, K) -> bool, table: seq<K>, cursor: Option<K>, items: seq<K>)
    requires StrictOrder(lt) && Sorted(lt, table) && |items| <= |table| && items == table[..|items|]
    requires items == [] ==> forall k :: k in table ==> Beyond(lt, cursor, k)
    requires items != [] ==> cursor == Some(items[|items| - 1])
    ensures Where(lt, table, cursor) == table[|items|..]
  {
    if items == [] {
      WhereAll(lt, table, cursor);
    } else {
      assert items[|items| - 1] == table[|items| - 1];
      WhereIsSuffix(lt, table, |items| - 1);
    }
  }

  // ---------------------------------------------------------------- the listings

  /** Listings ordered by their text key; the cursor is the key itself. */
  lemma ByKeyIsOrdered()
    ensures StrictOrder(Less)
  {
    forall a ensures !Less(a, a) { LessIrreflexive(a); }
    forall a, b ensures Less(a, b) || a == b || Less(b, a) { LessTotal(a, b); }
    forall a, b, c | Less(a, b) && Less(b, c) ensures Less(a, c) { LessTransitive(a, b, c); }
  }

  lemma ByKeyHasCursors(index: seq<string>)
    requires "" !in index
    ensures Codec(Less, k => k, t => Some(t), index)
  {
  }

  /** Audit events, newest identifier first; the listing starts from a text above every identifier. */
  lemma AuditHasCursors(index: seq<string>)
    requires forall k :: k in index ==> k != "" && Less(k, "~")
    ensures StrictOrder((a, b) => Less(b, a))
    ensures Codec((a, b) => Less(b, a), k => k, t => Some(if t == "" then "~" else t), index)
  {
    ByKeyIsOrdered();
  }

  /** Execution results, newest first, ties broken by run identifier. */
  predicate Newer(a: (int, string), b: (int, string)) {
    b.0 < a.0 || (b.0 == a.0 && Less(b.1, a.1))
  }

  lemma NewestFirstIsOrdered()
    ensures StrictOrder(Newer)
    ensures forall a, b :: Newer(a, b) ==> a.0 >= b.0
    ensures forall a: (int, string), b: (int, string) :: a.0 > b.0 ==> Newer(a, b)
    ensures forall a: (int, string), b: (int, string) :: a.0 == b.0 ==> (Newer(a, b) <==> Less(b.1, a.1))
  {
    ByKeyIsOrdered();
  }

  /** The foreign codecs a page token goes through: RFC 3339 time stamps and unpadded base64url
      (section 5 of RFC 4648), together with the strict ULID check. */
  datatype Codecs = Codecs(
    format: int -> string, parse: string -> Option<int>,
    encode: string -> string, decode: string -> Option<string>, isUlid: string -> bool)

  predicate OneLine(s: string) {
    '\n' !in s
  }

  ghost predicate Faithful(c: Codecs) {
    FaithfulTimes(c.format, c.parse) && FaithfulText(c.encode, c.decode)
  }

  /** Time stamps survive within the years 1 to 9999, the only ones the server accepts results for. */
  ghost predicate FaithfulTimes(format: int -> string, parse: string -> Option<int>) {
    forall t :: ControlPlane.ValidTimestamp(t) ==> parse(format(t)) == Some(t) && OneLine(format(t))
  }

  ghost predicate FaithfulText(encode: string -> string, decode: string -> Option<string>) {
    encode("") == "" && forall s :: decode(encode(s)) == Some(s)
  }

  /** The text before and after the first newline. */
  function SplitAtNewline(s: string): Option<(string, string)> {
    if s == "" then None
    else if s[0] == '\n' then Some(("", s[1..]))
    else
      var rest := SplitAtNewline(s[1..]);
      if rest.None? then None else Some(([s[0]] + rest.value.0, rest.value.1))
  }

  function ExecutionToken(c: Codecs, key: (int, string)): string {
    c.encode(c.format(key.0) + "\n" + key.1)
  }

  datatype Parsed = Start | At(key: (int, string)) | Invalid

  function ParseExecutionToken(c: Codecs, value: string): Parsed {
    if value == "" then Start
    else if c.decode(value).None? then Invalid
    else
      var parts := SplitAtNewline(c.decode(value).value);
      if parts.None? || c.parse(parts.value.0).None? || !c.isUlid(parts.value.1) then Invalid
      else At((c.parse(parts.value.0).value, parts.value.1))
  }

  lemma {:induction false} SplitRoundTrip(a: string, b: string)
    requires '\n' !in a
    ensures SplitAtNewline(a + "\n" + b) == Some((a, b))
  {
    var s := a + "\n" + b;
    if a == "" {
      assert s[1..] == b;
    } else {
      assert a[0] in a;
      forall x | x in a[1..] ensures x in a {}
      assert s[1..] == a[1..] + "\n" + b;
      SplitRoundTrip(a[1..], b);
      assert [a[0]] + a[1..] == a;
    }
  }

  /** The composite cursor survives its trip through the browser, and is never mistaken for the start. */
  lemma ExecutionTokenRoundTrip(c: Codecs, key: (int, string))
    requires Faithful(c) && ControlPlane.ValidTimestamp(key.0) && c.isUlid(key.1)
    ensures ExecutionToken(c, key) != "" && ParseExecutionToken(c, ExecutionToken(c, key)) == At(key)
  {
    var text := c.format(key.0) + "\n" + key.1;
    TimeRoundTrip(c.format, c.parse, key.0);
    SplitRoundTrip(c.format(key.0), key.1);
    TextRoundTrip(c.encode, c.decode, text);
  }

  lemma TimeRoundTrip(format: int -> string, parse: string -> Option<int>, t: int)
    requires FaithfulTimes(format, parse) && ControlPlane.ValidTimestamp(t)
    ensures parse(format(t)) == Some(t) && OneLine(format(t))
  {
  }

  lemma TextRoundTrip(encode: string -> string, decode: string -> Option<string>, s: string)
    requires FaithfulText(encode, decode)
    ensures decode(encode(s)) == Some(s) && (s != "" ==> encode(s) != "")
  {
    assert decode(encode("")) == Some("");
  }

  /** What the server takes for a cursor: the empty token is the start, and a token stands at a row exactly
      if it decodes to a time, a newline and a run identifier; everything else is refused. */
  lemma ParsedTokens(c: Codecs, value: string, time: string, run: string)
    ensures ParseExecutionToken(c, value) == Start <==> value == ""
    ensures value != "" && c.decode(value) == Some(time + "\n" + run) && OneLine(time) ==>
      ParseExecutionToken(c, value) ==
      if c.parse(time).Some? && c.isUlid(run) then At((c.parse(time).value, run)) else Invalid
    ensures value != "" && (c.decode(value).None? || OneLine(c.decode(value).value)) ==>
      ParseExecutionToken(c, value) == Invalid
  {
    if OneLine(time) { SplitRoundTrip(time, run); }
    if c.decode(value).Some? && OneLine(c.decode(value).value) { NothingToSplit(c.decode(value).value); }
  }

  lemma {:induction false} NothingToSplit(s: string)
    requires OneLine(s)
    ensures SplitAtNewline(s).None?
  {
    if s != "" {
      assert s[0] in s;
      forall x | x in s[1..] ensures x in s {}
      NothingToSplit(s[1..]);
    }
  }

  function ExecutionPosition(c: Codecs, pageToken: string): Option<(int, string)> {
    match ParseExecutionToken(c, pageToken)
    case At(key) => Some(key)
    case _ => None
  }

  /** So the execution listing meets what the collector needs. */
  lemma ExecutionsHaveCursors(c: Codecs, index: seq<(int, string)>)
    requires Faithful(c) && forall k :: k in index ==> ControlPlane.ValidTimestamp(k.0) && c.isUlid(k.1)
    ensures Codec(Newer, k => ExecutionToken(c, k), t => ExecutionPosition(c, t), index)
  {
    forall k | k in index ensures ExecutionToken(c, k) != "" && ExecutionPosition(c, ExecutionToken(c, k)) == Some(k) {
      ExecutionTokenRoundTrip(c, k);
    }
  }
}
