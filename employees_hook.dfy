/**
 * The data hook of the employee page: it fetches the page the store's
 * parameters describe, derives the page count, and wraps create, update and
 * delete with the `submitting` flag, a refetch on success and error
 * reporting. The backend's answers, today's date and the user's confirmation
 * are parameters.
 */
module EmployeesHook {
  import opened Wrappers
  import opened JsText
  import opened EmployeeTypes
  import opened EmployeeSchema
  import opened EmployeeService
  import opened ParamsStore

  /** `Math.ceil(a / b)` for a positive divisor. */
  function CeilDiv(a: int, b: int): (q: int)
    requires b > 0
    ensures (q - 1) * b < a <= q * b
  {
    var d, m := (-a) / b, (-a) % b;
    assert -a == d * b + m && 0 <= m < b;
    assert -d * b == a + m;
    assert (-d - 1) * b == a + m - b;
    -d
  }

  /**
   * `Math.max(1, Math.ceil(total / limit))`: at least one page, and for a
   * positive total exactly as many pages as it takes to hold it.
   */
  function TotalPages(total: int, limit: int): (pages: int)
    requires limit > 0
    ensures pages >= 1
    ensures total > 0 ==> (pages - 1) * limit < total <= pages * limit
    ensures total <= limit ==> pages == 1
  {
    var c := CeilDiv(total, limit);
    if c <= 0 then
      1
    else
      assert c == 1 || c * limit >= limit + limit by {
        if c >= 2 {
          assert c * limit == (c - 2) * limit + limit + limit;
          assert (c - 2) * limit >= 0;
        }
      }
      if c > 1 then c else 1
  }

  /** The page count is the least number of pages of this size that hold the total. */
  lemma TotalPagesIsLeast(total: int, limit: int, k: int)
    requires limit > 0 && k >= 1 && total <= k * limit
    ensures TotalPages(total, limit) <= k
  {
    var tp := TotalPages(total, limit);
    if total > 0 {
      assert (tp - 1) * limit < k * limit;
    }
  }

  /** Today's date as `getFullYear()`, the 0-based `getMonth()` and `getDate()`. */
  datatype Today = Today(year: int, month: int, day: int)

  /** `${year}-${month + 1 padded}-${day padded}`. */
  function CurrentDate(t: Today): string {
    IntToDecimal(t.year) + "-" + PadStart2(IntToDecimal(t.month + 1)) + "-" + PadStart2(IntToDecimal(t.day))
  }

  /** Four digits, `-`, two digits, `-`, two digits have the date shape, and the three parts can be read back. */
  lemma DateOfParts(y: string, m: string, d: string)
    requires |y| == 4 && |m| == 2 && |d| == 2
    requires AllDigits(y) && AllDigits(m) && AllDigits(d)
    ensures var s := y + "-" + m + "-" + d;
      IsDateShape(s) && s[..4] == y && s[5..7] == m && s[8..] == d
  {
    var s := y + "-" + m + "-" + d;
    assert s[..4] == y;
    assert s[5..7] == m;
    assert s[8..] == d;
  }

  /** For a four-digit year and a real month and day, the date has the schema's date shape and reads back to its parts. */
  lemma CurrentDateShape(t: Today)
    requires 1000 <= t.year <= 9999 && 0 <= t.month <= 11 && 1 <= t.day <= 31
    ensures var d := CurrentDate(t);
      && IsDateShape(d)
      && DecimalValue(d[..4]) == t.year
      && DecimalValue(d[5..7]) == t.month + 1
      && DecimalValue(d[8..]) == t.day
  {
    var y := IntToDecimal(t.year);
    var m := PadStart2(IntToDecimal(t.month + 1));
    var dd := PadStart2(IntToDecimal(t.day));
    assert y == NatToDecimal(t.year);
    assert IntToDecimal(t.month + 1) == NatToDecimal(t.month + 1);
    assert IntToDecimal(t.day) == NatToDecimal(t.day);
    DecimalLengths(t.year);
    PadStart2Value(t.month + 1);
    PadStart2Value(t.day);
    DateOfParts(y, m, dd);
  }

  /** `phoneValue`: the trimmed phone when it is non-blank, else the empty string. */
  function PhoneValue(phone: Option<string>): (p: string)
    ensures p == "" <==> phone.None? || AllSpace(phone.value)
    ensures p != "" ==> p == Trim(phone.value) && !IsSpace(p[0]) && !IsSpace(p[|p| - 1])
  {
    if phone.Some? && !IsBlank(phone.value) then Trim(phone.value) else ""
  }

  /**
   * `createValues`: name, email and department as given, the phone trimmed or
   * empty, and today's date whatever join date the form held.
   */
  function CreatePayload(values: FormValues, today: Today): CreateInput {
    CreateInput(values.name, values.email, PhoneValue(values.phone), values.department, CurrentDate(today))
  }

  /** The form's join date plays no part in the payload. */
  lemma CreatePayloadIgnoresJoinDate(values: FormValues, a: Option<string>, b: Option<string>, today: Today)
    ensures CreatePayload(values.(joinDate := a), today) == CreatePayload(values.(joinDate := b), today)
  {
  }

  /** A payload read back as form values. */
  function AsForm(p: CreateInput): FormValues {
    FormValues(p.name, p.email, Some(p.phone), p.department, Some(p.joinDate))
  }

  lemma PhoneValueOk(phone: Option<string>)
    requires PhoneOk(phone)
    ensures PhoneOk(Some(PhoneValue(phone)))
  {
    if PhoneValue(phone) != "" {
      TrimIdempotent(phone.value);
    }
  }

  lemma CurrentDateOk(today: Today)
    requires 1000 <= today.year <= 9999 && 0 <= today.month <= 11 && 1 <= today.day <= 31
    ensures JoinDateOk(Some(CurrentDate(today)))
  {
    CurrentDateShape(today);
    var d := CurrentDate(today);
    assert IsDigit(d[..4][0]) && IsDigit(d[8..][1]);
    TrimOfTrimmed(d);
  }

  /** The record created from an accepted form is itself accepted by the schema. */
  lemma CreatePayloadPassesSchema(values: FormValues, today: Today)
    requires Parse(values).Success?
    requires 1000 <= today.year <= 9999 && 0 <= today.month <= 11 && 1 <= today.day <= 31
    ensures Parse(AsForm(CreatePayload(values, today))).Success?
  {
    assert Failing(values) == {};
    PhoneValueOk(values.phone);
    CurrentDateOk(today);
    var f := AsForm(CreatePayload(values, today));
    assert NameOk(f.name) && EmailOk(f.email) && PhoneOk(f.phone) && DepartmentOk(f.department) && JoinDateOk(f.joinDate);
  }

  /** `apiUpdateEmployee(id, values)` receives the form values as they are: every field, none added. */
  function UpdatePatch(values: FormValues): (u: UpdateInput)
    ensures FormOf(u) == Some(values)
  {
    UpdateInput(Some(values.name), Some(values.email), values.phone, Some(values.department), values.joinDate)
  }

  /** The form values an update input carries, when it carries the required ones. */
  function FormOf(u: UpdateInput): Option<FormValues> {
    if u.name.Some? && u.email.Some? && u.department.Some? then
      Some(FormValues(u.name.value, u.email.value, u.phone, u.department.value, u.joinDate))
    else None
  }

  /** Values that went through the schema are sent trimmed. */
  lemma UpdatePatchOfParsedIsTrimmed(raw: FormValues)
    requires Parse(raw).Success?
    ensures var u := UpdatePatch(Parse(raw).value);
      && Trim(u.name.value) == u.name.value
      && Trim(u.email.value) == u.email.value
      && Trim(u.department.value) == u.department.value
      && (u.phone.Some? ==> Trim(u.phone.value) == u.phone.value)
      && (u.joinDate.Some? ==> Trim(u.joinDate.value) == u.joinDate.value)
  {
    TrimmedIdempotent(raw);
  }

  /** The parameters the hook passes to `getEmployees`: the store's, all present. */
  function QueryParamsOf(s: Params): QueryParams {
    QueryParams(Some(s.page), Some(s.limit), Some(s.name), Some(s.email), Some(s.department), Some(s.sort), Some(s.order))
  }

  /** On the initial state the first request asks for page 1 of 10, sorted by id descending, without filters. */
  lemma InitialQuery()
    ensures PageQuery(QueryParamsOf(Initial)) ==
      [(SortKey, "id"), (OrderKey, "desc"), (PageKey, "1"), (LimitKey, "10")]
  {
    var p := QueryParamsOf(Initial);
    FilterPairsSpelledOut(p);
    assert FilterPairs(p) == [];
    assert SortPairs(p) == [(SortKey, "id"), (OrderKey, "desc")];
    assert NatToDecimal(1) == "1";
    assert NatToDecimal(10) == "10" by {
      assert NatToDecimal(10) == NatToDecimal(1) + [DigitChar(0)];
    }
    assert PagingPairs(p) == [(PageKey, "1"), (LimitKey, "10")];
  }

  /** The service calls the hook makes. */
  datatype ServiceCall =
    | GetEmployeesCall(params: QueryParams)
    | CreateEmployeeCall(payload: CreateInput)
    | UpdateEmployeeCall(id: int, patch: UpdateInput)
    | DeleteEmployeeCall(id: int)

  /** The backend's answers to one list fetch. */
  datatype FetchReplies = FetchReplies(page: Result<PageReply, string>, count: Result<Body, string>)

  /** The backend's answers to one action: its write, then the refetch. */
  datatype Replies = Replies(
    maxId: Result<MaxIdBody, string>,
    write: Result<Employee, string>,
    removal: Result<(), string>,
    refetch: FetchReplies)

  /** The data, total and error a fetch leaves: the new page and its total, or the old ones and the message. */
  function AfterFetch(data: Body, total: int, r: FetchReplies): (Body, int, Option<string>) {
    match r.page
    case Failure(e) => (data, total, Some(e))
    case Success(reply) => (reply.body, ResolvedTotal(reply, r.count), None)
  }

  /** A failed fetch keeps the table and reports; a successful one clears the error. */
  lemma AfterFetchMeaning(data: Body, total: int, r: FetchReplies)
    ensures AfterFetch(data, total, r).2.None? <==> r.page.Success?
    ensures r.page.Failure? ==> AfterFetch(data, total, r).0 == data && AfterFetch(data, total, r).1 == total
    ensures r.page.Success? && HeaderTotal(r.page.value.headers).None? ==> AfterFetch(data, total, r).1 >= 0
  {
  }

  /**
   * The message a create rethrows: the max-id read's failure, else the
   * `TypeError` of a `null` reply, else the post's failure, else none.
   */
  function CreateFailure(r: Replies): Option<string> {
    if r.maxId.Failure? then Some(r.maxId.error)
    else if MaxIdOf(r.maxId.value).None? then Some(NullReadError)
    else if r.write.Failure? then Some(r.write.error)
    else None
  }

  class EmployeesHook {
    const store: EmployeesParams
    var data: Body
    var total: int
    var loading: bool
    var error: Option<string>
    var submitting: bool
    /** Every value `submitting` has been set to, in order. */
    ghost var submittingLog: seq<bool>
    /** Every service call made, in order. */
    ghost var calls: seq<ServiceCall>

    constructor(store: EmployeesParams)
      ensures this.store == store
      ensures data == Records([]) && total == 0 && !loading && error == None && !submitting
      ensures submittingLog == [] && calls == []
    {
      this.store := store;
      data, total := Records([]), 0;
      loading, error, submitting := false, None, false;
      submittingLog, calls := [], [];
    }

    /** `totalPages` for the current total and page size. */
    function PageCount(): int
      reads this, store
      requires store.limit > 0
    {
      TotalPages(total, store.limit)
    }

    /** `fetchData()`: asks for the page the store describes and records the outcome. */
    method FetchData(replies: FetchReplies)
      modifies this
      ensures (data, total, error) == AfterFetch(old(data), old(total), replies)
      ensures !loading
      ensures submitting == old(submitting) && submittingLog == old(submittingLog)
      ensures calls == old(calls) + [GetEmployeesCall(QueryParamsOf(store.Snapshot()))]
    {
      loading := true;
      error := None;
      var params := QueryParamsOf(store.Snapshot());
      calls := calls + [GetEmployeesCall(params)];
      var res, _, _ := GetEmployees(params, replies.page, replies.count);
      if res.Success? {
        data := res.value.data;
        total := res.value.total;
      } else {
        error := Some(res.error);
      }
      loading := false;
    }

    /**
     * `createEmployee(values)`: creates the payload's record, then refetches;
     * a failure of the create is reported and rethrown, leaving the table as
     * it was. `submitting` is raised on entry and lowered on every exit.
     */
    method CreateEmployee(values: FormValues, today: Today, replies: Replies) returns (thrown: Option<string>)
      modifies this
      ensures thrown == CreateFailure(replies)
      ensures submittingLog == old(submittingLog) + [true] + [false] && !submitting
      ensures thrown.Some? ==>
        && calls == old(calls) + [CreateEmployeeCall(CreatePayload(values, today))]
        && (data, total, error, loading) == old((data, total, error, loading))
      ensures thrown.None? ==>
        && calls == old(calls) + [CreateEmployeeCall(CreatePayload(values, today))] + [GetEmployeesCall(QueryParamsOf(store.Snapshot()))]
        && (data, total, error) == AfterFetch(old(data), old(total), replies.refetch)
        && !loading
    {
      submitting := true;
      submittingLog := submittingLog + [true];
      var createValues := CreatePayload(values, today);
      calls := calls + [CreateEmployeeCall(createValues)];
      var created, _, _ := EmployeeService.CreateEmployee(createValues, replies.maxId, replies.write);
      if created.Failure? {
        thrown := Some(created.error);
      } else {
        thrown := None;
        FetchData(replies.refetch);
      }
      submitting := false;
      submittingLog := submittingLog + [false];
    }

    /**
     * `updateEmployee(id, values)`: sends the values as they are, then
     * refetches; a failure is reported and rethrown. `submitting` is raised
     * on entry and lowered on every exit.
     */
    method UpdateEmployee(id: int, values: FormValues, replies: Replies) returns (thrown: Option<string>)
      modifies this
      ensures thrown == if replies.write.Failure? then Some(replies.write.error) else None
      ensures submittingLog == old(submittingLog) + [true] + [false] && !submitting
      ensures thrown.Some? ==>
        && calls == old(calls) + [UpdateEmployeeCall(id, UpdatePatch(values))]
        && (data, total, error, loading) == old((data, total, error, loading))
      ensures thrown.None? ==>
        && calls == old(calls) + [UpdateEmployeeCall(id, UpdatePatch(values))] + [GetEmployeesCall(QueryParamsOf(store.Snapshot()))]
        && (data, total, error) == AfterFetch(old(data), old(total), replies.refetch)
        && !loading
    {
      submitting := true;
      submittingLog := submittingLog + [true];
      calls := calls + [UpdateEmployeeCall(id, UpdatePatch(values))];
      if replies.write.Failure? {
        thrown := Some(replies.write.error);
      } else {
        thrown := None;
        FetchData(replies.refetch);
      }
      submitting := false;
      submittingLog := submittingLog + [false];
    }

    /**
     * `deleteEmployee(employee)`: does nothing unless the user confirms; then
     * deletes and refetches. A failure is reported and swallowed, and
     * `submitting` is never touched.
     */
    method DeleteEmployee(employee: Employee, confirmed: bool, replies: Replies)
      modifies this
      ensures !confirmed ==> unchanged(this)
      ensures submitting == old(submitting) && submittingLog == old(submittingLog)
      ensures confirmed && replies.removal.Failure? ==>
        && calls == old(calls) + [DeleteEmployeeCall(employee.id)]
        && (data, total, error, loading) == old((data, total, error, loading))
      ensures confirmed && replies.removal.Success? ==>
        && calls == old(calls) + [DeleteEmployeeCall(employee.id)] + [GetEmployeesCall(QueryParamsOf(store.Snapshot()))]
        && (data, total, error) == AfterFetch(old(data), old(total), replies.refetch)
        && !loading
    {
      if !confirmed {
        return;
      }
      calls := calls + [DeleteEmployeeCall(employee.id)];
      if replies.removal.Success? {
        FetchData(replies.refetch);
      }
    }
  }
}
