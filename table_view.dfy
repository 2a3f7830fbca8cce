/**
 * The derived view of the list hooks (`useLeadQuoteTable`, `useUserTable`):
 * the search filter, the column comparators, `Array.prototype.slice`
 * pagination, the page count, and the selection, sort and row-update rules
 * the handlers apply.
 */
module TableView {
  import opened Wrappers
  import opened Strings
  import opened Values
  import opened Seqs

  const RowsPerPage: nat := 10

  // Search filter

  /** Some non-nullish field's string form contains the query, ignoring case. */
  predicate RowMatches(row: Record, query: string) {
    exists k :: k in row && !IsNullish(row[k]) && Contains(ToLower(ToStr(row[k])), ToLower(query))
  }

  function FilterRows(rows: seq<Record>, query: string): (r: seq<Record>)
    ensures forall row :: row in r ==> row in rows && RowMatches(row, query)
    ensures forall row :: row in rows && RowMatches(row, query) ==> row in r
  {
    var p := (row: Record) => RowMatches(row, query);
    forall row | row in rows && RowMatches(row, query)
      ensures row in Filter(rows, p)
    {
      FilterKeeps(rows, p, row);
    }
    Filter(rows, p)
  }

  /**
   * With an empty query a row is shown exactly when it has a non-nullish
   * field: a row whose every field is null or undefined never shows.
   */
  lemma EmptyQueryKeepsNonEmptyRows(row: Record)
    ensures RowMatches(row, "") <==> exists k :: k in row && !IsNullish(row[k])
  {
    if exists k :: k in row && !IsNullish(row[k]) {
      var k :| k in row && !IsNullish(row[k]);
      assert Contains(ToLower(ToStr(row[k])), ToLower(""));
    }
  }

  // Comparators

  /** `localeCompare` taken as a total preorder on strings. */
  ghost predicate IsStringOrder(lc: (string, string) -> int) {
    (forall a, b :: lc(a, b) >= 0 ==> lc(b, a) <= 0)
    && (forall a, b, c :: lc(a, b) <= 0 && lc(b, c) <= 0 ==> lc(a, c) <= 0)
  }

  /** The lead table's comparator: strings by lc, numbers by difference, everything else equal. */
  function LeadCompare(a: Record, b: Record, key: string, desc: bool, lc: (string, string) -> int): int {
    var x := SortValue(a, key);
    var y := SortValue(b, key);
    if x.Str? && y.Str? then (if desc then lc(y.s, x.s) else lc(x.s, y.s))
    else if x.Num? && y.Num? then (if desc then y.n - x.n else x.n - y.n)
    else 0
  }

  /**
   * The user table's comparator: the two date columns become timestamps,
   * which are numbers, and only two strings are ever ordered.
   */
  function UserCompare(a: Record, b: Record, key: string, desc: bool, lc: (string, string) -> int): int {
    var x := SortValue(a, key);
    var y := SortValue(b, key);
    if key == "created_at" || key == "updated_at" then 0
    else if x.Str? && y.Str? then (if desc then lc(y.s, x.s) else lc(x.s, y.s))
    else 0
  }

  /** The value a row sorts by: nullish reads as "". */
  function SortValue(row: Record, key: string): Val {
    Coalesce(Get(row, key), Str(""))
  }

  /** The sort value as text (only meaningful when it is a string). */
  function SortText(row: Record, key: string): string {
    if SortValue(row, key).Str? then SortValue(row, key).s else ""
  }

  /** The sort value as a number (only meaningful when it is one). */
  function SortNumber(row: Record, key: string): int {
    if SortValue(row, key).Num? then SortValue(row, key).n else 0
  }

  function LeadSort(rows: seq<Record>, key: string, desc: bool, lc: (string, string) -> int): seq<Record> {
    SortBy(rows, (a, b) => LeadCompare(a, b, key, desc, lc))
  }

  function UserSort(rows: seq<Record>, key: string, desc: bool, lc: (string, string) -> int): seq<Record> {
    SortBy(rows, (a, b) => UserCompare(a, b, key, desc, lc))
  }

  /** The elements of a sorted sequence come from the input. */
  lemma SortedFromInput<T>(rows: seq<T>, cmp: (T, T) -> int)
    ensures forall i :: 0 <= i < |SortBy(rows, cmp)| ==> SortBy(rows, cmp)[i] in rows
  {
    var r := SortBy(rows, cmp);
    forall i | 0 <= i < |r|
      ensures r[i] in rows
    {
      assert r[i] in multiset(r);
    }
  }

  /** A string column of the lead table comes out in lc order, reversed when descending. */
  lemma LeadSortOrdersStrings(rows: seq<Record>, key: string, desc: bool, lc: (string, string) -> int)
    requires IsStringOrder(lc)
    requires forall i :: 0 <= i < |rows| ==> SortValue(rows[i], key).Str?
    ensures var r := LeadSort(rows, key, desc, lc);
            forall i, j :: 0 <= i < j < |r| ==>
              (if desc then lc(SortText(r[j], key), SortText(r[i], key))
               else lc(SortText(r[i], key), SortText(r[j], key))) <= 0
  {
    var cmp := (a, b) => LeadCompare(a, b, key, desc, lc);
    assert forall a :: a in rows ==> SortValue(a, key).Str?;
    SortByOrdered(rows, cmp);
    SortedFromInput(rows, cmp);
  }

  /** A number column of the lead table comes out ascending, or descending when desc is set. */
  lemma LeadSortOrdersNumbers(rows: seq<Record>, key: string, desc: bool, lc: (string, string) -> int)
    requires forall i :: 0 <= i < |rows| ==> SortValue(rows[i], key).Num?
    ensures var r := LeadSort(rows, key, desc, lc);
            forall i, j :: 0 <= i < j < |r| ==>
              if desc then SortNumber(r[i], key) >= SortNumber(r[j], key)
              else SortNumber(r[i], key) <= SortNumber(r[j], key)
  {
    var cmp := (a, b) => LeadCompare(a, b, key, desc, lc);
    assert forall a :: a in rows ==> SortValue(a, key).Num?;
    SortByOrdered(rows, cmp);
    SortedFromInput(rows, cmp);
  }

  /** Sorting users by either date column leaves the filtered order as it was. */
  lemma UserSortByDateKeepsOrder(rows: seq<Record>, key: string, desc: bool, lc: (string, string) -> int)
    requires key == "created_at" || key == "updated_at"
    ensures UserSort(rows, key, desc, lc) == rows
  {
    SortByNeutral(rows, (a, b) => UserCompare(a, b, key, desc, lc));
  }

  /** Sorting users by a column that holds no string (ids, numbers) leaves the order as it was. */
  lemma UserSortWithoutStringsKeepsOrder(rows: seq<Record>, key: string, desc: bool, lc: (string, string) -> int)
    requires forall i :: 0 <= i < |rows| ==> !SortValue(rows[i], key).Str?
    ensures UserSort(rows, key, desc, lc) == rows
  {
    assert forall a :: a in rows ==> !SortValue(a, key).Str?;
    SortByNeutral(rows, (a, b) => UserCompare(a, b, key, desc, lc));
  }

  /** A column of strings in the user table is ordered by lc, like the lead table. */
  lemma UserSortOrdersStrings(rows: seq<Record>, key: string, desc: bool, lc: (string, string) -> int)
    requires IsStringOrder(lc)
    requires key != "created_at" && key != "updated_at"
    requires forall i :: 0 <= i < |rows| ==> SortValue(rows[i], key).Str?
    ensures var r := UserSort(rows, key, desc, lc);
            forall i, j :: 0 <= i < j < |r| ==>
              (if desc then lc(SortText(r[j], key), SortText(r[i], key))
               else lc(SortText(r[i], key), SortText(r[j], key))) <= 0
  {
    var cmp := (a, b) => UserCompare(a, b, key, desc, lc);
    assert forall a :: a in rows ==> SortValue(a, key).Str?;
    SortByOrdered(rows, cmp);
    SortedFromInput(rows, cmp);
  }

  // Pagination

  /** `s.slice(start, end)`: negative bounds count from the end, both are clamped. */
  function JsSlice<T>(s: seq<T>, start: int, end: int): (r: seq<T>)
    ensures |r| <= |s|
  {
    var lo := if start < 0 then Max(|s| + start, 0) else Min(start, |s|);
    var hi := if end < 0 then Max(|s| + end, 0) else Min(end, |s|);
    if lo < hi then s[lo..hi] else []
  }

  function Min(a: int, b: int): int { if a < b then a else b }
  function Max(a: int, b: int): int { if a < b then b else a }

  /** `sorted.slice((page - 1) * rowsPerPage, page * rowsPerPage)`. */
  function Page<T>(s: seq<T>, page: int): (r: seq<T>)
    ensures |r| <= RowsPerPage
    ensures page >= 1 ==> r == s[Min((page - 1) * RowsPerPage, |s|)..Min(page * RowsPerPage, |s|)]
  {
    JsSlice(s, (page - 1) * RowsPerPage, page * RowsPerPage)
  }

  /** `Math.ceil(n / rowsPerPage)`. */
  function TotalPages(n: nat): (r: nat)
    ensures r * RowsPerPage >= n
    ensures n > 0 ==> (r - 1) * RowsPerPage < n
    ensures n == 0 ==> r == 0
  {
    (n + RowsPerPage - 1) / RowsPerPage
  }

  /** Pages 1 through k laid end to end. */
  function PagesUpTo<T>(s: seq<T>, k: nat): seq<T> {
    if k == 0 then [] else PagesUpTo(s, k - 1) + Page(s, k)
  }

  lemma {:induction false} PagesUpToPrefix<T>(s: seq<T>, k: nat)
    ensures PagesUpTo(s, k) == s[..Min(k * RowsPerPage, |s|)]
  {
    if k > 0 {
      PagesUpToPrefix(s, k - 1);
      var a := Min((k - 1) * RowsPerPage, |s|);
      var b := Min(k * RowsPerPage, |s|);
      assert s[..a] + s[a..b] == s[..b];
    }
  }

  /** The pages 1..totalPages show every row exactly once, in sorted order. */
  lemma PagesCoverRows<T>(s: seq<T>)
    ensures PagesUpTo(s, TotalPages(|s|)) == s
  {
    PagesUpToPrefix(s, TotalPages(|s|));
  }

  /** A page past the last one is empty. */
  lemma PageBeyondLastIsEmpty<T>(s: seq<T>, page: int)
    requires page > TotalPages(|s|)
    ensures Page(s, page) == []
  {
  }

  // Sorting state

  /** `handleSort(key)`: the same column flips the direction; a new column sorts ascending. */
  function NextSort(sortBy: string, sortDesc: bool, key: string): (r: (string, bool))
    ensures r.0 == key
    ensures r.1 == (sortBy == key && !sortDesc)
  {
    if sortBy == key then (sortBy, !sortDesc) else (key, false)
  }

  /** Sorting by the current column twice restores the direction; a new column twice ends descending. */
  lemma NextSortTwice(sortBy: string, sortDesc: bool, key: string)
    ensures var s1 := NextSort(sortBy, sortDesc, key);
            var s2 := NextSort(s1.0, s1.1, key);
            s2 == (key, if sortBy == key then sortDesc else true)
  {
  }

  // Selection

  /** `toggleSelect(id)`: drops every copy of id if present, appends it otherwise. */
  function ToggleSelect(sel: seq<Val>, id: Val): (r: seq<Val>)
    ensures id in r <==> id !in sel
    ensures forall x :: x != id ==> (x in r <==> x in sel)
  {
    var p := (x: Val) => x != id;
    if id in sel then
      forall x | x != id && x in sel
        ensures x in Filter(sel, p)
      {
        FilterKeeps(sel, p, x);
      }
      Filter(sel, p)
    else sel + [id]
  }

  /** Toggling an id that was not selected, twice, restores the selection exactly. */
  lemma ToggleSelectTwice(sel: seq<Val>, id: Val)
    requires id !in sel
    ensures ToggleSelect(ToggleSelect(sel, id), id) == sel
  {
    var p := (x: Val) => x != id;
    FilterConcat(sel, [id], p);
    FilterAll(sel, p);
    assert Filter([id], p) == [];
  }

  /** The ids a page would select: `paginatedData.map(row => row.id)`. */
  function PageIds(page: seq<Record>): (r: seq<Val>)
    ensures |r| == |page|
    ensures forall i :: 0 <= i < |page| ==> r[i] == Get(page[i], "id")
  {
    if page == [] then [] else [Get(page[0], "id")] + PageIds(page[1..])
  }

  /** `toggleSelectAll` of the lead table: compares only the counts. */
  function LeadToggleAll(sel: seq<Val>, page: seq<Record>): (r: seq<Val>)
    ensures |sel| == |page| ==> r == []
    ensures |sel| != |page| ==> r == PageIds(page)
  {
    if |sel| == |page| then [] else PageIds(page)
  }

  /** `toggleSelectAll` of the user table: as the lead table, but rows without an id are skipped. */
  function UserToggleAll(sel: seq<Val>, page: seq<Record>): (r: seq<Val>)
    ensures |sel| == |page| ==> r == []
    ensures |sel| != |page| ==> forall x :: x in r <==> x != Undefined && x in PageIds(page)
  {
    var p := (x: Val) => x != Undefined;
    if |sel| == |page| then []
    else
      forall x | x != Undefined && x in PageIds(page)
        ensures x in Filter(PageIds(page), p)
      {
        FilterKeeps(PageIds(page), p, x);
      }
      Filter(PageIds(page), p)
  }

  /** Select-all twice on the same page clears the selection unless the first call already cleared it. */
  lemma LeadToggleAllTwice(sel: seq<Val>, page: seq<Record>)
    requires |sel| != |page|
    ensures LeadToggleAll(LeadToggleAll(sel, page), page) == []
  {
  }

  /** The same for users, provided every row on the page has an id. */
  lemma UserToggleAllTwice(sel: seq<Val>, page: seq<Record>)
    requires |sel| != |page|
    requires forall i :: 0 <= i < |page| ==> Get(page[i], "id") != Undefined
    ensures UserToggleAll(UserToggleAll(sel, page), page) == []
  {
    var ids := PageIds(page);
    FilterAll(ids, (x: Val) => x != Undefined);
  }

  /**
   * Because only the counts are compared, a selection of another row's id
   * that happens to have the page's length makes select-all clear instead of select.
   */
  lemma ToggleAllCountsOnly()
    ensures LeadToggleAll([Num(7)], [map["id" := Num(3)]]) == []
  {
  }

  // Row updates

  /** `rows.filter(row => !selectedIds.includes(row.id))`. */
  function RemoveSelected(rows: seq<Record>, sel: seq<Val>): (r: seq<Record>)
    ensures forall row :: row in r <==> row in rows && Get(row, "id") !in sel
  {
    var p := (row: Record) => Get(row, "id") !in sel;
    forall row | row in rows && Get(row, "id") !in sel
      ensures row in Filter(rows, p)
    {
      FilterKeeps(rows, p, row);
    }
    Filter(rows, p)
  }

  /** `rows.map(row => row.id === u.id ? {...row, ...u} : row)`. */
  function MergeById(rows: seq<Record>, u: Record): (r: seq<Record>)
    ensures |r| == |rows|
    ensures forall i :: 0 <= i < |rows| && Get(rows[i], "id") != Get(u, "id") ==> r[i] == rows[i]
    ensures forall i :: 0 <= i < |rows| && Get(rows[i], "id") == Get(u, "id") ==>
              r[i].Keys == rows[i].Keys + u.Keys
              && (forall k :: k in u ==> r[i][k] == u[k])
              && (forall k :: k in rows[i] && k !in u ==> r[i][k] == rows[i][k])
  {
    MapWhere(rows, (row: Record) => Get(row, "id") == Get(u, "id"), (row: Record) => row + u)
  }

  /** The leads a fetch keeps: `lead.lead_status === 'Quotations'`. */
  predicate IsQuotation(row: Record) {
    Get(row, "lead_status") == Str("Quotations")
  }
}
