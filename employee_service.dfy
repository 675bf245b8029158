/**
 * The employee data-access functions: the list query with its total-count
 * fallback chain, the next-id rule of create, and the single-call requests for
 * one record. The backend is represented by its replies, each either a value
 * or the error message the HTTP client rejects with.
 */
module EmployeeService {
  import opened Wrappers
  import opened JsText
  import opened EmployeeTypes

  /** The parameter names the service sends. */
  datatype Key = NameLike | EmailLike | DepartmentKey | SortKey | OrderKey | PageKey | LimitKey

  /** The name a key has on the wire. */
  function KeyText(k: Key): string {
    match k
    case NameLike => "name_like"
    case EmailLike => "email_like"
    case DepartmentKey => "department"
    case SortKey => "_sort"
    case OrderKey => "_order"
    case PageKey => "_page"
    case LimitKey => "_limit"
  }

  /** A query string as the ordered list of its name/value pairs (`URLSearchParams`). */
  type Query = seq<(Key, string)>

  /** `URLSearchParams.get(k)`: the value of the first pair named `k`. */
  function Get(q: Query, k: Key): Option<string> {
    if q == [] then None
    else if q[0].0 == k then Some(q[0].1)
    else Get(q[1..], k)
  }

  lemma {:induction false} GetConcat(a: Query, b: Query, k: Key)
    ensures Get(a + b, k) == if Get(a, k).Some? then Get(a, k) else Get(b, k)
  {
    if a == [] {
      assert a + b == b;
    } else {
      assert (a + b)[1..] == a[1..] + b;
      GetConcat(a[1..], b, k);
    }
  }

  /** Drops every pair named `k`. */
  function RemoveAll(q: Query, k: Key): (r: Query)
    ensures Get(r, k) == None
    ensures forall k' | k' != k :: Get(r, k') == Get(q, k')
  {
    if q == [] then []
    else if q[0].0 == k then RemoveAll(q[1..], k)
    else [q[0]] + RemoveAll(q[1..], k)
  }

  /** Gives the first pair named `k` the value `v` and drops the later ones. */
  function ReplaceFirst(q: Query, k: Key, v: string): (r: Query)
    requires Get(q, k).Some?
    ensures Get(r, k) == Some(v)
    ensures forall k' | k' != k :: Get(r, k') == Get(q, k')
  {
    if q[0].0 == k then [(k, v)] + RemoveAll(q[1..], k)
    else [q[0]] + ReplaceFirst(q[1..], k, v)
  }

  /**
   * `URLSearchParams.set(k, v)`: replaces the first pair named `k` and drops
   * the others, or appends the pair when there is none. The service only ever
   * sets a key that is not yet present, so only the appending branch is
   * stated by position; for a present key the contract gives the lookups.
   */
  function SetParam(q: Query, k: Key, v: string): (r: Query)
    ensures Get(r, k) == Some(v)
    ensures forall k' | k' != k :: Get(r, k') == Get(q, k')
    ensures Get(q, k).None? ==> r == q + [(k, v)]
  {
    if Get(q, k).Some? then
      ReplaceFirst(q, k, v)
    else
      var r := q + [(k, v)];
      forall k' ensures Get(r, k') == if k' == k then Some(v) else Get(q, k') {
        GetConcat(q, [(k, v)], k');
      }
      r
  }

  /** `EmployeeQueryParams`: every field optional. */
  datatype QueryParams = QueryParams(
    page: Option<int>,
    limit: Option<int>,
    name: Option<string>,
    email: Option<string>,
    department: Option<string>,
    sort: Option<string>,
    order: Option<SortOrder>)

  /** `s && s.trim()`: a filter counts when it is present and not blank. */
  predicate Supplied(o: Option<string>) {
    o.Some? && !IsBlank(o.value)
  }

  /** `params.sort` is truthy: present and not the empty string. */
  predicate Sorted(p: QueryParams) {
    p.sort.Some? && p.sort.value != ""
  }

  function EffectivePage(p: QueryParams): nat {
    if p.page.Some? && p.page.value > 0 then p.page.value else 1
  }

  function EffectiveLimit(p: QueryParams): nat {
    if p.limit.Some? && p.limit.value > 0 then p.limit.value else 10
  }

  /** The pair for a filter when it is supplied, with the trimmed value. */
  function FilterPair(k: Key, o: Option<string>): Query {
    if Supplied(o) then [(k, Trim(o.value))] else []
  }

  /** The pairs of each supplied filter, in the order listed. */
  function FiltersOf(fs: seq<(Key, Option<string>)>): Query {
    if fs == [] then [] else FilterPair(fs[0].0, fs[0].1) + FiltersOf(fs[1..])
  }

  /** The filter pairs, in the order name, email, department. */
  function FilterPairs(p: QueryParams): Query {
    FiltersOf([(NameLike, p.name), (EmailLike, p.email), (DepartmentKey, p.department)])
  }

  /** One step of `FiltersOf`: the first filter's pairs, then the rest's. */
  lemma FiltersOfCons(f: (Key, Option<string>), fs: seq<(Key, Option<string>)>)
    ensures FiltersOf([f] + fs) == FilterPair(f.0, f.1) + FiltersOf(fs)
  {
    assert ([f] + fs)[1..] == fs;
  }

  lemma FilterPairsSpelledOut(p: QueryParams)
    ensures FilterPairs(p) == FilterPair(NameLike, p.name) + FilterPair(EmailLike, p.email) + FilterPair(DepartmentKey, p.department)
  {
    var a, b, c := (NameLike, p.name), (EmailLike, p.email), (DepartmentKey, p.department);
    assert [a, b, c] == [a] + ([b] + ([c] + []));
    FiltersOfCons(c, []);
    FiltersOfCons(b, [c] + []);
    FiltersOfCons(a, [b] + ([c] + []));
    var n, e, d := FilterPair(a.0, a.1), FilterPair(b.0, b.1), FilterPair(c.0, c.1);
    assert n + (e + (d + [])) == n + e + d;
  }

  /** The sort pairs: both or neither, the order defaulting to ascending. */
  function SortPairs(p: QueryParams): Query {
    if Sorted(p) then [(SortKey, p.sort.value), (OrderKey, OrderText(p.order.GetOr(Asc)))] else []
  }

  function PagingPairs(p: QueryParams): Query {
    [(PageKey, NatToDecimal(EffectivePage(p))), (LimitKey, NatToDecimal(EffectiveLimit(p)))]
  }

  /** The query of the page request. */
  function PageQuery(p: QueryParams): Query {
    FilterPairs(p) + SortPairs(p) + PagingPairs(p)
  }

  /** The query of the unpaged count request: the filters alone. */
  function CountQuery(p: QueryParams): Query {
    FilterPairs(p)
  }

  /** The position of a key in the order the page query is built in. */
  function Rank(k: Key): nat {
    match k
    case NameLike => 0
    case EmailLike => 1
    case DepartmentKey => 2
    case SortKey => 3
    case OrderKey => 4
    case PageKey => 5
    case LimitKey => 6
  }

  /** The filter keys, as opposed to sorting and paging. */
  predicate IsFilterKey(k: Key) {
    Rank(k) < 3
  }

  /** Each key at most once, in the build order. */
  predicate InKeyOrder(q: Query) {
    forall i, j :: 0 <= i < j < |q| ==> Rank(q[i].0) < Rank(q[j].0)
  }

  /** Every key of `q` ranks in `[lo, hi)`. */
  predicate RanksWithin(q: Query, lo: nat, hi: nat) {
    forall i :: 0 <= i < |q| ==> lo <= Rank(q[i].0) < hi
  }

  lemma ConcatInKeyOrder(a: Query, b: Query, lo: nat, mid: nat, hi: nat)
    requires lo <= mid <= hi
    requires InKeyOrder(a) && RanksWithin(a, lo, mid)
    requires InKeyOrder(b) && RanksWithin(b, mid, hi)
    ensures InKeyOrder(a + b) && RanksWithin(a + b, lo, hi)
  {
    forall i, j | 0 <= i < j < |a + b| ensures Rank((a + b)[i].0) < Rank((a + b)[j].0) {
      if j < |a| {
      } else if i < |a| {
        assert (a + b)[j] == b[j - |a|];
      } else {
        assert (a + b)[i] == b[i - |a|] && (a + b)[j] == b[j - |a|];
      }
    }
    forall i | 0 <= i < |a + b| ensures lo <= Rank((a + b)[i].0) < hi {
      if i < |a| {
        assert (a + b)[i] == a[i];
      } else {
        assert (a + b)[i] == b[i - |a|];
      }
    }
  }

  lemma SortAndPagingOrdered(p: QueryParams)
    ensures InKeyOrder(SortPairs(p)) && RanksWithin(SortPairs(p), 3, 5)
    ensures InKeyOrder(PagingPairs(p)) && RanksWithin(PagingPairs(p), 5, 7)
  {
  }

  lemma FilterPairOrdered(k: Key, o: Option<string>)
    ensures InKeyOrder(FilterPair(k, o)) && RanksWithin(FilterPair(k, o), Rank(k), Rank(k) + 1)
  {
  }

  /** The page query lists its keys in the order name_like, email_like, department, _sort, _order, _page, _limit, none twice. */
  lemma PageQueryInKeyOrder(p: QueryParams)
    ensures InKeyOrder(PageQuery(p))
  {
    var n, e, d := FilterPair(NameLike, p.name), FilterPair(EmailLike, p.email), FilterPair(DepartmentKey, p.department);
    FilterPairsSpelledOut(p);
    FilterPairOrdered(NameLike, p.name);
    FilterPairOrdered(EmailLike, p.email);
    FilterPairOrdered(DepartmentKey, p.department);
    SortAndPagingOrdered(p);
    ConcatInKeyOrder(n, e, 0, 1, 2);
    ConcatInKeyOrder(n + e, d, 0, 2, 3);
    ConcatInKeyOrder(FilterPairs(p), SortPairs(p), 0, 3, 5);
    ConcatInKeyOrder(FilterPairs(p) + SortPairs(p), PagingPairs(p), 0, 5, 7);
  }

  lemma GetSingle(k: Key, v: string, k': Key)
    ensures Get([(k, v)], k') == if k == k' then Some(v) else None
  {
    if k != k' {
      assert [(k, v)][1..] == [];
    }
  }

  lemma GetTwo(x: (Key, string), y: (Key, string), k: Key)
    ensures Get([x, y], k) == if x.0 == k then Some(x.1) else if y.0 == k then Some(y.1) else None
  {
    assert [x, y][1..] == [y];
    GetSingle(y.0, y.1, k);
  }

  lemma GetFilterPair(k: Key, o: Option<string>, k': Key)
    ensures Get(FilterPair(k, o), k') == if k == k' && Supplied(o) then Some(Trim(o.value)) else None
  {
    if Supplied(o) {
      GetSingle(k, Trim(o.value), k');
    }
  }

  /** Looking a key up in the filter pairs. */
  lemma FilterLookups(p: QueryParams, k: Key)
    ensures Get(FilterPairs(p), k) ==
      match k
      case NameLike => if Supplied(p.name) then Some(Trim(p.name.value)) else None
      case EmailLike => if Supplied(p.email) then Some(Trim(p.email.value)) else None
      case DepartmentKey => if Supplied(p.department) then Some(Trim(p.department.value)) else None
      case _ => None
  {
    var n, e, d := FilterPair(NameLike, p.name), FilterPair(EmailLike, p.email), FilterPair(DepartmentKey, p.department);
    FilterPairsSpelledOut(p);
    GetConcat(n, e, k);
    GetConcat(n + e, d, k);
    GetFilterPair(NameLike, p.name, k);
    GetFilterPair(EmailLike, p.email, k);
    GetFilterPair(DepartmentKey, p.department, k);
  }

  /** Looking a key up in the sort and paging pairs. */
  lemma TailLookups(p: QueryParams, k: Key)
    ensures Get(SortPairs(p) + PagingPairs(p), k) ==
      match k
      case SortKey => if Sorted(p) then Some(p.sort.value) else None
      case OrderKey => if Sorted(p) then Some(OrderText(p.order.GetOr(Asc))) else None
      case PageKey => Some(NatToDecimal(EffectivePage(p)))
      case LimitKey => Some(NatToDecimal(EffectiveLimit(p)))
      case _ => None
  {
    var s, g := SortPairs(p), PagingPairs(p);
    GetConcat(s, g, k);
    GetTwo(g[0], g[1], k);
    if Sorted(p) {
      GetTwo(s[0], s[1], k);
    }
  }

  lemma LookupPageQuery(p: QueryParams, k: Key)
    ensures Get(PageQuery(p), k) ==
      if IsFilterKey(k) then Get(FilterPairs(p), k) else Get(SortPairs(p) + PagingPairs(p), k)
  {
    assert PageQuery(p) == FilterPairs(p) + (SortPairs(p) + PagingPairs(p));
    GetConcat(FilterPairs(p), SortPairs(p) + PagingPairs(p), k);
    FilterLookups(p, k);
    TailLookups(p, k);
  }

  /**
   * A filter key is in the page query exactly when its filter is supplied,
   * with the trimmed value; `_sort` and `_order` are there together exactly
   * when a sort is given, the order defaulting to "asc"; `_page` and `_limit`
   * are always there, with the effective page and limit.
   */
  lemma PageQueryContents(p: QueryParams)
    ensures Get(PageQuery(p), NameLike) == if Supplied(p.name) then Some(Trim(p.name.value)) else None
    ensures Get(PageQuery(p), EmailLike) == if Supplied(p.email) then Some(Trim(p.email.value)) else None
    ensures Get(PageQuery(p), DepartmentKey) == if Supplied(p.department) then Some(Trim(p.department.value)) else None
    ensures Get(PageQuery(p), SortKey) == if Sorted(p) then Some(p.sort.value) else None
    ensures Get(PageQuery(p), OrderKey) == if Sorted(p) then Some(OrderText(p.order.GetOr(Asc))) else None
    ensures Get(PageQuery(p), PageKey) == Some(NatToDecimal(EffectivePage(p)))
    ensures Get(PageQuery(p), LimitKey) == Some(NatToDecimal(EffectiveLimit(p)))
  {
    LookupPageQuery(p, NameLike);
    LookupPageQuery(p, EmailLike);
    LookupPageQuery(p, DepartmentKey);
    LookupPageQuery(p, SortKey);
    LookupPageQuery(p, OrderKey);
    LookupPageQuery(p, PageKey);
    LookupPageQuery(p, LimitKey);
    FilterLookups(p, NameLike);
    FilterLookups(p, EmailLike);
    FilterLookups(p, DepartmentKey);
    TailLookups(p, SortKey);
    TailLookups(p, OrderKey);
    TailLookups(p, PageKey);
    TailLookups(p, LimitKey);
  }

  /** The effective page and limit: the given value when positive, else 1 and 10; the text sent converts back to it. */
  lemma PagingValues(p: QueryParams)
    ensures EffectivePage(p) >= 1 && EffectiveLimit(p) >= 1
    ensures p.page.Some? && p.page.value > 0 ==> EffectivePage(p) == p.page.value
    ensures p.limit.Some? && p.limit.value > 0 ==> EffectiveLimit(p) == p.limit.value
    ensures JsNumber(NatToDecimal(EffectivePage(p))) == Int(EffectivePage(p))
    ensures JsNumber(NatToDecimal(EffectiveLimit(p))) == Int(EffectiveLimit(p))
  {
    JsNumberOfDecimal(EffectivePage(p));
    JsNumberOfDecimal(EffectiveLimit(p));
  }

  /** The count query is the page query's leading filter pairs: same filters, nothing about sorting or paging. */
  lemma CountQueryIsFilterOnly(p: QueryParams, k: Key)
    ensures IsFilterKey(k) ==> Get(CountQuery(p), k) == Get(PageQuery(p), k)
    ensures !IsFilterKey(k) ==> Get(CountQuery(p), k) == None
    ensures PageQuery(p)[..|CountQuery(p)|] == CountQuery(p)
  {
    FilterLookups(p, k);
    LookupPageQuery(p, k);
  }

  /** The count header, read as `res.headers["x-total-count"] || res.headers["X-Total-Count"]`. */
  datatype Headers = Headers(lower: Option<string>, upper: Option<string>)

  /** A reply body: an array of records, or anything else. */
  datatype Body = Records(items: seq<Employee>) | NotAList

  /** `Array.isArray(body) ? body.length : 0`. */
  function Count(b: Body): nat {
    if b.Records? then |b.items| else 0
  }

  datatype PageReply = PageReply(headers: Headers, body: Body)

  /** `PagedEmployees`. */
  datatype Paged = Paged(data: Body, total: int)

  /** The header text that is used: the first of the two spellings that is a non-empty string. */
  function HeaderValue(h: Headers): Option<string> {
    if h.lower.Some? && h.lower.value != "" then h.lower
    else if h.upper.Some? && h.upper.value != "" then h.upper
    else None
  }

  /**
   * The header decision as written: the count query is skipped whenever the
   * header is present and its number is not 0, and NaN is not 0.
   * `Some(total)` means the header's number becomes the total.
   */
  function HeaderTotalAsWritten(h: Headers): Option<Num> {
    match HeaderValue(h)
    case None => None
    case Some(s) => if JsNumber(s) == Int(0) then None else Some(JsNumber(s))
  }

  /** The header decision as intended: only a present, numeric, non-zero header gives the total. */
  function HeaderTotal(h: Headers): Option<int> {
    match HeaderValue(h)
    case None => None
    case Some(s) =>
      match JsNumber(s)
      case NaN => None
      case Int(n) => if n == 0 then None else Some(n)
  }

  /** A non-numeric header makes the code as written return NaN as the total and skip the count query. */
  lemma NonNumericHeaderGivesNaN()
    ensures HeaderTotalAsWritten(Headers(Some("abc"), None)) == Some(NaN)
    ensures HeaderTotal(Headers(Some("abc"), None)) == None
  {
    TrimOfTrimmed("abc");
    assert !AllDigits("abc") by { assert !IsDigit("abc"[0]); }
  }

  /** The two decisions differ only on a NaN header. */
  lemma HeaderTotalAgreesOffNaN(h: Headers)
    requires HeaderTotalAsWritten(h) != Some(NaN)
    ensures HeaderTotalAsWritten(h) == match HeaderTotal(h) case None => None case Some(n) => Some(Int(n))
  {
  }

  /** The lower-case header is preferred; a used header total is never 0 and is what its text converts to. */
  lemma HeaderTotalMeaning(h: Headers)
    ensures h.lower.Some? && h.lower.value != "" ==> HeaderValue(h) == h.lower
    ensures HeaderTotal(h).Some? ==>
      HeaderTotal(h).value != 0 && HeaderValue(h).Some? && JsNumber(HeaderValue(h).value) == Int(HeaderTotal(h).value)
  {
  }

  /**
   * The total the fallback chain settles on: the header's, else the length of
   * the count reply, else (the count request having failed) the page's length.
   */
  function ResolvedTotal(reply: PageReply, countReply: Result<Body, string>): int {
    match HeaderTotal(reply.headers)
    case Some(n) => n
    case None => if countReply.Success? then Count(countReply.value) else Count(reply.body)
  }

  /** Without a usable header the total is never negative, and a failed count falls back to the page's length. */
  lemma ResolvedTotalFallback(reply: PageReply, countReply: Result<Body, string>)
    requires HeaderTotal(reply.headers).None?
    ensures ResolvedTotal(reply, countReply) >= 0
    ensures countReply.Failure? ==> ResolvedTotal(reply, countReply) == Count(reply.body)
    ensures countReply.Success? ==> ResolvedTotal(reply, countReply) == Count(countReply.value)
  {
  }

  /** Sets the supplied filters, trimmed, on an empty query. */
  method SetFilterParams(params: QueryParams) returns (q: Query)
    ensures q == FilterPairs(params)
  {
    FilterPairsSpelledOut(params);
    q := [];
    if Supplied(params.name) {
      q := SetParam(q, NameLike, Trim(params.name.value));
    }
    assert q == FilterPair(NameLike, params.name);
    if Supplied(params.email) {
      GetFilterPair(NameLike, params.name, EmailLike);
      q := SetParam(q, EmailLike, Trim(params.email.value));
    }
    assert q == FilterPair(NameLike, params.name) + FilterPair(EmailLike, params.email);
    if Supplied(params.department) {
      GetFilterPair(NameLike, params.name, DepartmentKey);
      GetFilterPair(EmailLike, params.email, DepartmentKey);
      GetConcat(FilterPair(NameLike, params.name), FilterPair(EmailLike, params.email), DepartmentKey);
      q := SetParam(q, DepartmentKey, Trim(params.department.value));
    }
  }

  /** Sets `_sort` and `_order` when a sort is given, on a query that has neither. */
  method SetSort(q0: Query, params: QueryParams) returns (q: Query)
    requires Get(q0, SortKey) == None && Get(q0, OrderKey) == None
    ensures q == q0 + SortPairs(params)
  {
    q := q0;
    if params.sort.Some? && params.sort.value != "" {
      q := SetParam(q, SortKey, params.sort.value);
      q := SetParam(q, OrderKey, OrderText(params.order.GetOr(Asc)));
    }
  }

  /** Sets `_page` and `_limit`, on a query that has neither. */
  method SetPaging(q0: Query, params: QueryParams) returns (q: Query)
    requires Get(q0, PageKey) == None && Get(q0, LimitKey) == None
    ensures q == q0 + PagingPairs(params)
  {
    q := q0;
    var page := if params.page.Some? && params.page.value > 0 then params.page.value else 1;
    var limit := if params.limit.Some? && params.limit.value > 0 then params.limit.value else 10;
    q := SetParam(q, PageKey, NatToDecimal(page));
    q := SetParam(q, LimitKey, NatToDecimal(limit));
  }

  /** Sort pairs hold only `_sort` and `_order`. */
  lemma SortPairsLookups(p: QueryParams, k: Key)
    ensures k != SortKey && k != OrderKey ==> Get(SortPairs(p), k) == None
  {
    if Sorted(p) {
      GetTwo(SortPairs(p)[0], SortPairs(p)[1], k);
    }
  }

  /**
   * `getEmployees(params)`. Returns the result and the queries of the requests
   * it issued: the page query, and the count query when the header is not used.
   */
  method GetEmployees(params: QueryParams, pageReply: Result<PageReply, string>, countReply: Result<Body, string>)
    returns (result: Result<Paged, string>, pageQuery: Query, countQuery: Option<Query>)
    ensures pageQuery == PageQuery(params)
    ensures pageReply.Failure? ==> result == Failure(pageReply.error) && countQuery == None
    ensures pageReply.Success? ==>
      && result == Success(Paged(pageReply.value.body, ResolvedTotal(pageReply.value, countReply)))
      && (countQuery == None <==> HeaderTotal(pageReply.value.headers).Some?)
      && (countQuery.Some? ==> countQuery.value == CountQuery(params))
  {
    var searchParams := SetFilterParams(params);
    FilterLookups(params, SortKey);
    FilterLookups(params, OrderKey);
    searchParams := SetSort(searchParams, params);
    FilterLookups(params, PageKey);
    FilterLookups(params, LimitKey);
    SortPairsLookups(params, PageKey);
    SortPairsLookups(params, LimitKey);
    GetConcat(FilterPairs(params), SortPairs(params), PageKey);
    GetConcat(FilterPairs(params), SortPairs(params), LimitKey);
    searchParams := SetPaging(searchParams, params);
    pageQuery := searchParams;
    countQuery := None;

    if pageReply.Failure? {
      return Failure(pageReply.error), pageQuery, countQuery;
    }
    var res := pageReply.value;

    var totalHeader := HeaderValue(res.headers);
    var total := if totalHeader.Some? then JsNumber(totalHeader.value) else Int(0);

    if totalHeader.None? || total == Int(0) || total == NaN {
      var countParams := SetFilterParams(params);
      countQuery := Some(countParams);
      if countReply.Success? {
        total := Int(Count(countReply.value));
      } else {
        total := Int(Count(res.body));
      }
    }
    result := Success(Paged(res.body, total.value));
  }

  /**
   * The first record of the max-id reply, as far as the id read goes: its id
   * is a number, a string or missing, or the record itself is `null`.
   */
  datatype RawId = NumberId(n: int) | TextId(text: string) | NoId | NullRecord

  /**
   * The reply body to the max-id query: a list of records, an object that is
   * not a list (it has no `length`, so it counts as empty), or `null`.
   */
  datatype MaxIdBody = IdList(ids: seq<RawId>) | NotAnIdList | NullBody

  /** `_sort=id&_order=desc&_limit=1`: the record with the largest id. */
  const MaxIdQuery: Query := [(SortKey, "id"), (OrderKey, OrderText(Desc)), (LimitKey, "1")]

  /** The max-id query asks for the records sorted by id, descending, one of them, and nothing else. */
  lemma MaxIdQueryAsksForLargest(k: Key)
    ensures Get(MaxIdQuery, SortKey) == Some("id")
    ensures Get(MaxIdQuery, OrderKey) == Some("desc")
    ensures Get(MaxIdQuery, LimitKey) == Some("1")
    ensures k != SortKey && k != OrderKey && k != LimitKey ==> Get(MaxIdQuery, k) == None
  {
  }

  /** The message of the `TypeError` raised when the reply is dereferenced through `null`. */
  const NullReadError := "TypeError"

  /**
   * The largest existing id as read from the reply: the first record's id, as
   * a number, else 0; `None` when the read dereferences `null` and throws.
   */
  function MaxIdOf(body: MaxIdBody): Option<int> {
    if body.NullBody? then None
    else if body.NotAnIdList? || body.ids == [] then Some(0)
    else
      match body.ids[0]
      case NumberId(n) => Some(n)
      case TextId(t) => (match JsNumber(t) case Int(n) => Some(n) case NaN => Some(0))
      case NoId => Some(0)
      case NullRecord => None
  }

  /**
   * `createEmployee(payload)`: reads the largest id, then posts the payload
   * with the next id. Returns the reply to the post, the record posted and
   * the query of the max-id read. A `null` body or first record makes the
   * read throw, and nothing is posted.
   */
  method CreateEmployee(payload: CreateInput, maxIdReply: Result<MaxIdBody, string>, postReply: Result<Employee, string>)
    returns (result: Result<Employee, string>, posted: Option<Employee>, maxIdQuery: Query)
    ensures maxIdQuery == MaxIdQuery
    ensures maxIdReply.Failure? ==> result == Failure(maxIdReply.error) && posted == None
    ensures maxIdReply.Success? && MaxIdOf(maxIdReply.value).None? ==>
      result == Failure(NullReadError) && posted == None
    ensures maxIdReply.Success? && MaxIdOf(maxIdReply.value).Some? ==>
      && posted == Some(WithId(payload, MaxIdOf(maxIdReply.value).value + 1))
      && result == postReply
  {
    maxIdQuery := MaxIdQuery;
    if maxIdReply.Failure? {
      return Failure(maxIdReply.error), None, maxIdQuery;
    }
    var employees := maxIdReply.value;
    if employees.NullBody? {
      return Failure(NullReadError), None, maxIdQuery;
    }

    var maxId := Int(0);
    if employees.IdList? && |employees.ids| > 0 {
      var firstId := employees.ids[0];
      if firstId.NullRecord? {
        return Failure(NullReadError), None, maxIdQuery;
      }
      maxId := match firstId
        case NumberId(n) => Int(n)
        case TextId(t) => JsNumber(t)
        case _ => NaN;
      if maxId.NaN? {
        maxId := Int(0);
      }
    }

    var newEmployee := WithId(payload, maxId.value + 1);
    posted := Some(newEmployee);
    result := postReply;
  }

  /** The largest of a non-empty list of ids. */
  function MaxOf(ids: seq<int>): (m: int)
    requires ids != []
    ensures m in ids
    ensures forall i :: 0 <= i < |ids| ==> ids[i] <= m
  {
    if |ids| == 1 then ids[0]
    else
      var rest := MaxOf(ids[1..]);
      assert forall i :: 1 <= i < |ids| ==> ids[i] == ids[1..][i - 1];
      if ids[0] >= rest then ids[0] else rest
  }

  /** What a backend that honours the max-id query answers when its records have these ids. */
  function HonestMaxIdReply(ids: seq<int>): MaxIdBody {
    if ids == [] then IdList([]) else IdList([NumberId(MaxOf(ids))])
  }

  /** Against such a backend the new id is larger than every existing id, hence unused. */
  lemma NextIdIsFresh(ids: seq<int>)
    ensures MaxIdOf(HonestMaxIdReply(ids)).Some?
    ensures forall i :: 0 <= i < |ids| ==> ids[i] < MaxIdOf(HonestMaxIdReply(ids)).value + 1
    ensures MaxIdOf(HonestMaxIdReply(ids)).value + 1 !in ids
    ensures ids == [] ==> MaxIdOf(HonestMaxIdReply(ids)).value + 1 == 1
  {
  }

  /**
   * Largest id 7 gives 8; an empty list, a missing id or an object that is not
   * a list gives 1; a `null` body or a `null` first record gives no id at all.
   */
  lemma NextIdExamples()
    ensures MaxIdOf(IdList([NumberId(7)])) == Some(7)
    ensures MaxIdOf(IdList([])) == Some(0)
    ensures MaxIdOf(IdList([NoId])) == Some(0)
    ensures MaxIdOf(NotAnIdList) == Some(0)
    ensures MaxIdOf(NullBody) == None
    ensures MaxIdOf(IdList([NullRecord, NumberId(7)])) == None
  {
  }

  /** An id that arrives as the decimal text of a number counts as that number. */
  lemma NextIdFromNumericText(i: int)
    ensures MaxIdOf(IdList([TextId(IntToDecimal(i))])) == Some(i)
  {
    JsNumberOfDecimal(i);
  }

  /** A non-numeric id counts as 0, so the next id is 1. */
  lemma NextIdFromOtherText()
    ensures MaxIdOf(IdList([TextId("x7")])) == Some(0)
  {
    var t := "x7";
    TrimOfTrimmed(t);
    assert !AllDigits(t) by { assert !IsDigit(t[0]); }
  }

  /** The id a record path names: the number after `/employees/`, if any. */
  function PathId(path: string): Option<int> {
    if |path| > 11 && path[..11] == "/employees/" then
      match JsNumber(path[11..])
      case Int(n) => Some(n)
      case NaN => None
    else None
  }

  /** A single record's path, `/employees/<id>`. */
  function EmployeePath(id: int): (path: string)
    ensures PathId(path) == Some(id)
  {
    var path := "/employees/" + IntToDecimal(id);
    assert path[11..] == IntToDecimal(id);
    JsNumberOfDecimal(id);
    path
  }

  /** A request to the backend for one record. */
  datatype Request =
    | GetRequest(path: string)
    | PatchRequest(path: string, patch: UpdateInput)
    | DeleteRequest(path: string)

  /** `getEmployeeById(id)`: a GET of the record's path; the reply is returned as it is. */
  function GetEmployeeByIdRequest(id: int): (r: Request)
    ensures r.GetRequest? && PathId(r.path) == Some(id)
  {
    GetRequest(EmployeePath(id))
  }

  /** `updateEmployee(id, payload)`: a PATCH of the record's path carrying the payload untouched. */
  function UpdateEmployeeRequest(id: int, payload: UpdateInput): (r: Request)
    ensures r.PatchRequest? && r.patch == payload && PathId(r.path) == Some(id)
  {
    PatchRequest(EmployeePath(id), payload)
  }

  /** `deleteEmployee(id)`: a DELETE of the record's path. */
  function DeleteEmployeeRequest(id: int): (r: Request)
    ensures r.DeleteRequest? && PathId(r.path) == Some(id)
  {
    DeleteRequest(EmployeePath(id))
  }
}
