/**
 * The admin user listing (src/app/api/admin/users/route.ts): authorisation, the
 * clamped page and page size, the requested row range, the email search and the page count.
 */
module AdminUsers {
  import opened Wrappers
  import opened Strings

  const MIN_LIMIT := 10
  const MAX_LIMIT := 50

  function Max(a: int, b: int): int { if a >= b then a else b }
  function Min(a: int, b: int): int { if a <= b then a else b }

  /** `Math.max(1, parseInt(page || "1"))`; `None` is an absent or empty parameter. */
  function Page(param: Option<int>): (page: int)
    ensures page >= 1
    ensures param.None? ==> page == 1
    ensures param.Some? && param.value >= 1 ==> page == param.value
  {
    Max(1, param.GetOr(1))
  }

  /** `Math.min(50, Math.max(10, parseInt(limit || "10")))`. */
  function Limit(param: Option<int>): (limit: int)
    ensures MIN_LIMIT <= limit <= MAX_LIMIT
    ensures param.None? ==> limit == MIN_LIMIT
    ensures param.Some? && MIN_LIMIT <= param.value <= MAX_LIMIT ==> limit == param.value
  {
    Min(MAX_LIMIT, Max(MIN_LIMIT, param.GetOr(10)))
  }

  /** `searchParams.get("search")?.trim() || ""`. */
  function Search(param: Option<string>): (search: string)
    ensures search == "" || NoSpaceAtEnds(search)
  {
    if param.None? then "" else Trim(param.value)
  }

  /** `Math.ceil(total / limit)`. */
  function TotalPages(total: nat, limit: int): (pages: nat)
    requires limit > 0
    ensures total == 0 ==> pages == 0
    ensures total > 0 ==> (pages - 1) * limit < total <= pages * limit
  {
    var pages := (total + limit - 1) / limit;
    var rest := (total + limit - 1) % limit;
    assert total + limit - 1 == pages * limit + rest && 0 <= rest < limit;
    assert (pages - 1) * limit == pages * limit - limit;
    pages
  }

  /** `offset = (page - 1) * limit` and `.range(offset, offset + limit - 1)`: `limit` positions from the page's first. */
  function RequestedRange(page: int, limit: int): (r: (int, int))
    requires page >= 1 && limit >= 1
    ensures r.0 == (page - 1) * limit && r.0 >= 0
    ensures r.1 - r.0 + 1 == limit
  {
    var offset := (page - 1) * limit;
    assert offset >= 0 by {
      assert page - 1 >= 0;
    }
    (offset, offset + limit - 1)
  }

  /** A listed row: only what the filter and the answer need. */
  datatype UserRow = UserRow(id: string, email: string)

  /** `ilike("email", "%search%")`: a case-insensitive substring match; an empty search matches all. */
  predicate MatchesSearch(row: UserRow, search: string) {
    search == "" || Contains(ToLower(row.email), ToLower(search))
  }

  function Filtered(rows: seq<UserRow>, search: string): (r: seq<UserRow>)
    ensures |r| <= |rows|
    ensures forall x :: x in r <==> x in rows && MatchesSearch(x, search)
  {
    if rows == [] then []
    else (if MatchesSearch(rows[0], search) then [rows[0]] else []) + Filtered(rows[1..], search)
  }

  datatype ListReply =
    | Forbidden403
    | QueryFailed500(error: string)
    | Listing(users: seq<UserRow>, total: nat, page: int, limit: int, totalPages: nat)

  /**
   * `GET`. `role` is the session user's role (`None` without a session or user), `rows`
   * the table in `created_at` descending order, `queryError` a failure of the query.
   */
  function ListUsers(role: Option<string>, pageParam: Option<int>, limitParam: Option<int>, searchParam: Option<string>,
                     rows: seq<UserRow>, queryError: Option<string>): (r: ListReply)
    ensures role != Some("admin") ==> r == Forbidden403
    ensures role == Some("admin") ==>
              if queryError.Some? then r == QueryFailed500(queryError.value) else r.Listing?
    ensures r.Listing? ==> |r.users| == Min(r.limit, Max(0, r.total - (r.page - 1) * r.limit))
    ensures r.Listing? ==>
              && r.page == Page(pageParam) && r.limit == Limit(limitParam)
              && r.total == |Filtered(rows, Search(searchParam))|
              && |r.users| <= r.limit
              && (r.users != [] ==> 0 <= (r.page - 1) * r.limit && (r.page - 1) * r.limit + |r.users| <= r.total)
              && (forall i :: 0 <= i < |r.users| ==>
                    r.users[i] == Filtered(rows, Search(searchParam))[(r.page - 1) * r.limit + i])
              && r.totalPages == TotalPages(r.total, r.limit)
  {
    if role != Some("admin") then Forbidden403
    else
      var page := Page(pageParam);
      var limit := Limit(limitParam);
      var search := Search(searchParam);
      var (from, to) := RequestedRange(page, limit);
      if queryError.Some? then QueryFailed500(queryError.value)
      else
        var matching := Filtered(rows, search);
        var users := RangeOf(matching, from, to);
        Listing(users, |matching|, page, limit, TotalPages(|matching|, limit))
  }

  /** `.range(from, to)`: the rows at positions `from` through `to`, both included, as far as they exist. */
  function RangeOf(rows: seq<UserRow>, from: int, to: int): (r: seq<UserRow>)
    requires 0 <= from
    ensures |r| <= to - from + 1 || r == []
    ensures |r| == Max(0, Min(|rows|, to + 1) - from)
    ensures r != [] ==> from + |r| <= |rows|
    ensures forall i :: 0 <= i < |r| ==> r[i] == rows[from + i]
  {
    if from >= |rows| || to < from then []
    else rows[from..Min(|rows|, to + 1)]
  }

  lemma DivBounds(i: nat, limit: int)
    requires limit > 0
    ensures 0 <= i / limit
    ensures (i / limit) * limit <= i < (i / limit) * limit + limit
  {
    assert i == (i / limit) * limit + i % limit;
  }

  lemma MulMonotone(a: int, b: int, limit: int)
    requires limit > 0 && a <= b
    ensures a * limit <= b * limit
  {
    assert b * limit - a * limit == (b - a) * limit;
  }

  /** Page `p` of the listing shows matching rows `(p-1)*limit` onward; every matching row is on a page between 1 and `totalPages`. */
  lemma PagesCoverMatches(rows: seq<UserRow>, search: string, limit: int, i: nat)
    requires MIN_LIMIT <= limit <= MAX_LIMIT
    requires i < |Filtered(rows, search)|
    ensures var p := i / limit + 1;
            var m := Filtered(rows, search);
            && 1 <= p <= TotalPages(|m|, limit)
            && m[i] in RangeOf(m, (p - 1) * limit, (p - 1) * limit + limit - 1)
  {
    var m := Filtered(rows, search);
    var q := i / limit;
    PageOfIndex(i, |m|, limit);
    assert (q + 1 - 1) * limit == q * limit;
    InRange(m, q * limit, limit, i);
  }

  /** Position `i` of `total` rows falls on page `i / limit + 1`, which is within `1..TotalPages(total, limit)`. */
  lemma PageOfIndex(i: nat, total: nat, limit: int)
    requires limit > 0 && i < total
    ensures 1 <= i / limit + 1 <= TotalPages(total, limit)
    ensures 0 <= (i / limit) * limit <= i < (i / limit) * limit + limit
  {
    var q := i / limit;
    DivBounds(i, limit);
    var pages := TotalPages(total, limit);
    if q + 1 > pages {
      MulMonotone(pages, q, limit);
    }
  }

  lemma InRange(m: seq<UserRow>, from: int, limit: int, i: nat)
    requires 0 <= from <= i < from + limit && i < |m|
    ensures m[i] in RangeOf(m, from, from + limit - 1)
  {
    var r := RangeOf(m, from, from + limit - 1);
    assert r[i - from] == m[i];
  }
}
