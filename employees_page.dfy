/**
 * The employee page's own logic: the page-size field with its change and
 * blur handlers, the previous/next buttons, the filter fields, and the form
 * modal that routes a submit to create or update. Rendering is not modelled;
 * the debounced filter values arrive as parameters.
 */
module EmployeesPage {
  import opened Wrappers
  import opened JsText
  import opened EmployeeTypes
  import opened EmployeeSchema
  import opened EmployeeService
  import opened ParamsStore
  import opened EmployeesHook

  /** Whether the change handler adopts the typed text as the page size: a number from 10 to 100. */
  predicate ChangeAccepts(text: string) {
    JsNumber(text).Int? && 10 <= JsNumber(text).value <= 100
  }

  /**
   * The page size the blur handler settles on: always within 10..100, the
   * typed number itself when it already is, the nearest bound otherwise, and
   * 10 for text that is not a number.
   */
  function BlurLimit(text: string): (limit: int)
    ensures 10 <= limit <= 100
    ensures ChangeAccepts(text) ==> limit == JsNumber(text).value
    ensures JsNumber(text).Int? && JsNumber(text).value > 100 ==> limit == 100
    ensures JsNumber(text).NaN? || JsNumber(text).value < 10 ==> limit == 10
  {
    match JsNumber(text)
    case NaN => 10
    case Int(v) => if v < 10 then 10 else if v > 100 then 100 else v
  }

  /** A page size in range is shown as its own text and read back unchanged. */
  lemma BlurLimitKeepsValidSizes(n: int)
    requires 10 <= n <= 100
    ensures BlurLimit(IntToDecimal(n)) == n
    ensures ChangeAccepts(IntToDecimal(n))
  {
    JsNumberOfDecimal(n);
  }

  /** Blurring again after a blur changes nothing: the clamp is idempotent. */
  lemma BlurLimitIdempotent(text: string)
    ensures BlurLimit(IntToDecimal(BlurLimit(text))) == BlurLimit(text)
  {
    BlurLimitKeepsValidSizes(BlurLimit(text));
  }

  /** `Math.max(1, page - 1)`. */
  function PrevTarget(page: int): (p: int)
    ensures p >= 1
    ensures page > 1 ==> p == page - 1
  {
    if page - 1 > 1 then page - 1 else 1
  }

  predicate PrevDisabled(page: int) {
    page <= 1
  }

  predicate NextDisabled(page: int, pages: int) {
    page >= pages
  }

  /** From a page within 1..pages, an enabled button moves one page and stays within 1..pages. */
  lemma PaginationStaysInRange(page: int, pages: int)
    requires 1 <= page <= pages
    ensures PrevDisabled(page) <==> page == 1
    ensures !PrevDisabled(page) ==> PrevTarget(page) == page - 1 && 1 <= PrevTarget(page)
    ensures NextDisabled(page, pages) <==> page == pages
    ensures !NextDisabled(page, pages) ==> page + 1 <= pages
  {
  }

  /** With a single page both buttons are disabled. */
  lemma SinglePageDisablesBoth(page: int, total: int, limit: int)
    requires limit > 0 && 1 <= page && total <= limit
    ensures PrevDisabled(page) <==> page == 1
    ensures NextDisabled(page, TotalPages(total, limit))
  {
  }

  /** After the filters are cleared and the change reaches the store, no filter is sent and page 1 is requested. */
  lemma ClearedFiltersQuery(s: Params)
    ensures var t := WithFilters(s, FilterUpdate(Some(""), Some(""), Some("")));
      && t.page == 1
      && FilterPairs(QueryParamsOf(t)) == []
      && Get(PageQuery(QueryParamsOf(t)), PageKey) == Some("1")
  {
    var t := WithFilters(s, FilterUpdate(Some(""), Some(""), Some("")));
    FilterPairsSpelledOut(QueryParamsOf(t));
    PageQueryContents(QueryParamsOf(t));
    assert NatToDecimal(1) == "1";
  }

  class EmployeesPageView {
    const hook: EmployeesHook
    var searchName: string
    var searchEmail: string
    var searchDept: string
    var limitInput: string
    var modalOpen: bool
    var editing: Option<Employee>

    /** The page keeps the store's page size within 10..100. */
    predicate Valid()
      reads hook.store
    {
      10 <= hook.store.limit <= 100
    }

    constructor(hook: EmployeesHook)
      requires 10 <= hook.store.limit <= 100
      ensures this.hook == hook && Valid()
      ensures searchName == "" && searchEmail == "" && searchDept == ""
      ensures limitInput == IntToDecimal(hook.store.limit)
      ensures !modalOpen && editing == None
    {
      this.hook := hook;
      searchName, searchEmail, searchDept := "", "", "";
      limitInput := IntToDecimal(hook.store.limit);
      modalOpen, editing := false, None;
    }

    /**
     * The page-size field's `onChange`, followed by the effect that rewrites
     * the field whenever the page size changes. The typed text is kept; the
     * page size changes only to a number from 10 to 100.
     */
    method OnLimitChange(text: string)
      requires Valid()
      modifies this, hook.store
      ensures Valid()
      ensures ChangeAccepts(text) ==> hook.store.Snapshot() == old(hook.store.Snapshot()).(limit := JsNumber(text).value)
      ensures !ChangeAccepts(text) ==> hook.store.Snapshot() == old(hook.store.Snapshot())
      ensures limitInput == if hook.store.limit != old(hook.store.limit) then IntToDecimal(hook.store.limit) else text
      ensures ChangeAccepts(text) ==> JsNumber(limitInput) == Int(hook.store.limit)
      ensures searchName == old(searchName) && searchEmail == old(searchEmail) && searchDept == old(searchDept)
      ensures modalOpen == old(modalOpen) && editing == old(editing)
    {
      var previous := hook.store.limit;
      limitInput := text;
      var numVal := JsNumber(text);
      if numVal.Int? && numVal.value >= 10 && numVal.value <= 100 {
        hook.store.SetLimit(numVal.value);
      }
      if hook.store.limit != previous {
        limitInput := IntToDecimal(hook.store.limit);
        JsNumberOfDecimal(hook.store.limit);
      }
    }

    /** The page-size field's `onBlur`: clamps the text to 10..100 and shows the result. */
    method OnLimitBlur(text: string)
      modifies this, hook.store
      ensures hook.store.Snapshot() == old(hook.store.Snapshot()).(limit := BlurLimit(text))
      ensures limitInput == IntToDecimal(hook.store.limit)
      ensures Valid()
      ensures JsNumber(limitInput) == Int(hook.store.limit)
      ensures searchName == old(searchName) && searchEmail == old(searchEmail) && searchDept == old(searchDept)
      ensures modalOpen == old(modalOpen) && editing == old(editing)
    {
      var val := JsNumber(text);
      var finalVal := hook.store.limit;
      if val.NaN? || val.value < 10 {
        finalVal := 10;
      } else if val.value > 100 {
        finalVal := 100;
      } else {
        finalVal := val.value;
      }
      hook.store.SetLimit(finalVal);
      limitInput := IntToDecimal(finalVal);
      JsNumberOfDecimal(finalVal);
    }

    /** The previous-page button: disabled on page 1 or below, else to `max(1, page - 1)`. */
    method PrevPage()
      modifies hook.store
      ensures PrevDisabled(old(hook.store.page)) ==> hook.store.Snapshot() == old(hook.store.Snapshot())
      ensures !PrevDisabled(old(hook.store.page)) ==>
        hook.store.Snapshot() == old(hook.store.Snapshot()).(page := PrevTarget(old(hook.store.page)))
    {
      if !PrevDisabled(hook.store.page) {
        hook.store.SetPage(if hook.store.page - 1 > 1 then hook.store.page - 1 else 1);
      }
    }

    /** The next-page button: disabled on the last page or beyond, else to `page + 1`. */
    method NextPage()
      requires Valid()
      modifies hook.store
      ensures Valid()
      ensures NextDisabled(old(hook.store.page), TotalPages(hook.total, old(hook.store.limit))) ==>
        hook.store.Snapshot() == old(hook.store.Snapshot())
      ensures !NextDisabled(old(hook.store.page), TotalPages(hook.total, old(hook.store.limit))) ==>
        hook.store.Snapshot() == old(hook.store.Snapshot()).(page := old(hook.store.page) + 1)
    {
      var totalPages := hook.PageCount();
      if !NextDisabled(hook.store.page, totalPages) {
        hook.store.SetPage(hook.store.page + 1);
      }
    }

    /** The clear-filters button empties the three search fields and nothing else. */
    method ClearFilters()
      modifies this
      ensures searchName == "" && searchEmail == "" && searchDept == ""
      ensures limitInput == old(limitInput) && modalOpen == old(modalOpen) && editing == old(editing)
    {
      searchName := "";
      searchEmail := "";
      searchDept := "";
    }

    /** The effect on the debounced search values: all three go to the store, which returns to page 1. */
    method SyncFilters(debouncedName: string, debouncedEmail: string, debouncedDept: string)
      modifies hook.store
      ensures hook.store.Snapshot() ==
        WithFilters(old(hook.store.Snapshot()), FilterUpdate(Some(debouncedName), Some(debouncedEmail), Some(debouncedDept)))
    {
      hook.store.SetFilters(FilterUpdate(Some(debouncedName), Some(debouncedEmail), Some(debouncedDept)));
    }

    /** The add button: an empty form for a new record. */
    method OpenCreate()
      modifies this
      ensures modalOpen && editing == None
      ensures searchName == old(searchName) && searchEmail == old(searchEmail) && searchDept == old(searchDept)
      ensures limitInput == old(limitInput)
    {
      editing := None;
      modalOpen := true;
    }

    /** A row's edit action: the form for that record. */
    method OpenEdit(e: Employee)
      modifies this
      ensures modalOpen && editing == Some(e)
      ensures searchName == old(searchName) && searchEmail == old(searchEmail) && searchDept == old(searchDept)
      ensures limitInput == old(limitInput)
    {
      editing := Some(e);
      modalOpen := true;
    }

    /** The modal's close: refused while a submit is in progress. */
    method CloseModal()
      modifies this
      ensures hook.submitting ==> modalOpen == old(modalOpen) && editing == old(editing)
      ensures !hook.submitting ==> !modalOpen && editing == None
      ensures searchName == old(searchName) && searchEmail == old(searchEmail) && searchDept == old(searchDept)
      ensures limitInput == old(limitInput)
    {
      if !hook.submitting {
        modalOpen := false;
        editing := None;
      }
    }

    /**
     * `handleCreate`: creates through the hook; on success closes the form, on
     * failure (already reported by the hook) leaves it open. The hook ends in
     * the state its `createEmployee` leaves.
     */
    method HandleCreate(values: FormValues, today: Today, replies: Replies)
      modifies this, hook
      ensures hook.submittingLog == old(hook.submittingLog) + [true] + [false] && !hook.submitting
      ensures CreateFailure(replies).Some? ==>
        && hook.calls == old(hook.calls) + [CreateEmployeeCall(CreatePayload(values, today))]
        && (hook.data, hook.total, hook.error, hook.loading) == old((hook.data, hook.total, hook.error, hook.loading))
        && modalOpen == old(modalOpen) && editing == old(editing)
      ensures CreateFailure(replies).None? ==>
        && hook.calls == old(hook.calls) + [CreateEmployeeCall(CreatePayload(values, today))]
             + [GetEmployeesCall(QueryParamsOf(hook.store.Snapshot()))]
        && (hook.data, hook.total, hook.error) == AfterFetch(old(hook.data), old(hook.total), replies.refetch)
        && !hook.loading
        && !modalOpen && editing == None
      ensures (searchName, searchEmail, searchDept, limitInput) == old((searchName, searchEmail, searchDept, limitInput))
    {
      var thrown := hook.CreateEmployee(values, today, replies);
      if thrown.None? {
        modalOpen := false;
        editing := None;
      }
    }

    /**
     * `handleUpdate`: does nothing without a record being edited; else updates
     * it through the hook and, on success, closes the form.
     */
    method HandleUpdate(values: FormValues, replies: Replies)
      modifies this, hook
      ensures old(editing).None? ==> unchanged(this) && unchanged(hook)
      ensures old(editing).Some? ==>
        hook.submittingLog == old(hook.submittingLog) + [true] + [false] && !hook.submitting
      ensures old(editing).Some? && replies.write.Failure? ==>
        && hook.calls == old(hook.calls) + [UpdateEmployeeCall(old(editing).value.id, UpdatePatch(values))]
        && (hook.data, hook.total, hook.error, hook.loading) == old((hook.data, hook.total, hook.error, hook.loading))
        && modalOpen == old(modalOpen) && editing == old(editing)
      ensures old(editing).Some? && replies.write.Success? ==>
        && hook.calls == old(hook.calls) + [UpdateEmployeeCall(old(editing).value.id, UpdatePatch(values))]
             + [GetEmployeesCall(QueryParamsOf(hook.store.Snapshot()))]
        && (hook.data, hook.total, hook.error) == AfterFetch(old(hook.data), old(hook.total), replies.refetch)
        && !hook.loading
        && !modalOpen && editing == None
      ensures (searchName, searchEmail, searchDept, limitInput) == old((searchName, searchEmail, searchDept, limitInput))
    {
      if editing.None? {
        return;
      }
      var thrown := hook.UpdateEmployee(editing.value.id, values, replies);
      if thrown.None? {
        modalOpen := false;
        editing := None;
      }
    }

    /**
     * The form's submit: to update when a record is being edited, to create
     * otherwise. Either way `submitting` is raised and lowered once, and the
     * form closes exactly when the action succeeds.
     */
    method Submit(values: FormValues, today: Today, replies: Replies)
      modifies this, hook
      ensures hook.submittingLog == old(hook.submittingLog) + [true] + [false] && !hook.submitting
      ensures old(editing).Some? ==>
        if replies.write.Failure? then
          && hook.calls == old(hook.calls) + [UpdateEmployeeCall(old(editing).value.id, UpdatePatch(values))]
          && (hook.data, hook.total, hook.error, hook.loading) == old((hook.data, hook.total, hook.error, hook.loading))
          && modalOpen == old(modalOpen) && editing == old(editing)
        else
          && hook.calls == old(hook.calls) + [UpdateEmployeeCall(old(editing).value.id, UpdatePatch(values))]
               + [GetEmployeesCall(QueryParamsOf(hook.store.Snapshot()))]
          && (hook.data, hook.total, hook.error) == AfterFetch(old(hook.data), old(hook.total), replies.refetch)
          && !hook.loading && !modalOpen && editing == None
      ensures old(editing).None? ==>
        if CreateFailure(replies).Some? then
          && hook.calls == old(hook.calls) + [CreateEmployeeCall(CreatePayload(values, today))]
          && (hook.data, hook.total, hook.error, hook.loading) == old((hook.data, hook.total, hook.error, hook.loading))
          && modalOpen == old(modalOpen) && editing == None
        else
          && hook.calls == old(hook.calls) + [CreateEmployeeCall(CreatePayload(values, today))]
               + [GetEmployeesCall(QueryParamsOf(hook.store.Snapshot()))]
          && (hook.data, hook.total, hook.error) == AfterFetch(old(hook.data), old(hook.total), replies.refetch)
          && !hook.loading && !modalOpen && editing == None
      ensures (searchName, searchEmail, searchDept, limitInput) == old((searchName, searchEmail, searchDept, limitInput))
    {
      if editing.Some? {
        HandleUpdate(values, replies);
      } else {
        HandleCreate(values, today, replies);
      }
    }
  }
}
