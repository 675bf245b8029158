# Employee management: a Dafny model of the list, form and store logic

This project models the client-side logic of a small employee-records admin
application (TypeScript and React over a JSON REST backend). The application
lists employees one page at a time, with filters on name, e-mail and
department and a sort on any column. It also creates, edits and deletes
records through a form validated by a schema.

The model covers these parts:

- **Service** (`EmployeeService`). `getEmployees` builds the page query from
  optional parameters, with defaults, trimmed filters, sort pairs and paging
  pairs in a fixed order. It then resolves the total through a chain: the
  count header, then an unpaged count query, then the page's own length.
  `createEmployee` picks the next id as the largest existing id plus one.
  `getEmployeeById`, `updateEmployee` and `deleteEmployee` are modelled as
  requests.
- **Parameters store** (`ParamsStore`). The seven-field store and its five
  actions, as a class whose methods update the fields in place. The two
  actions with real logic, `setFilters` and `setSorting`, are also written
  as pure functions on a snapshot (`WithFilters`, `WithSorting`), and their
  methods are proved to follow them.
- **Validators and schema** (`EmailRule`, `PhoneRule`, `EmployeeSchema`).
  - The e-mail regular expression is stated literally as a predicate, and
    proved equal to a scan.
  - The phone rule keeps the digits, then counts them.
  - The form schema combines per-field rules over trimmed text.
- **Data hook** (`EmployeesHook`). `totalPages`, the create payload (phone
  and today's date), the update patch, and the fetch, create, update and
  delete actions. The actions are a class whose state is the table data,
  the total, the loading flag, the error and the `submitting` flag, plus
  two ghost logs:
  - every value `submitting` took;
  - every service call made.
- **Page** (`EmployeesPage`). The page-size field's change and blur
  handlers, the previous and next buttons, the filter fields, and the form
  modal that routes a submit to create or to update.
- **JavaScript primitives** (`JsText`). `trim` with ECMAScript white space,
  `\d`, `String(n)`, `padStart(2, "0")`, and `Number(text)` on integer
  literals.

The backend is never called. Each reply the code awaits is a parameter of
type `Result` (a value, or a failure message). The service methods return
the queries or requests they would send, and the hook logs the service
calls it makes. The other parts of the environment are
parameters as well:

- the current date is a `Today` value;
- the answer to the delete confirmation is a boolean;
- the debounced filter values are strings passed in.

Toasts are not modelled.

## Model

| member | source | states |
|---|---|---|
| JsText.Trim | src/services/employees.ts:33-34 | the result of `trim` is no longer than its input, has no white space at either end, and is empty exactly when the input is all white space |
| JsText.TrimIsSlice | src/services/employees.ts:33-34 | the result of `trim` is the slice of its input between an all-white-space prefix and an all-white-space suffix |
| JsText.TrimStart | src/services/employees.ts:33 | leading white space is dropped: the result is a suffix preceded only by white space |
| JsText.TrimEnd | src/services/employees.ts:33 | trailing white space is dropped: the result is a prefix followed only by white space |
| JsText.BlankIffAllSpace | src/utils/validateEmail.ts:2 | `!s \|\| s.trim() === ""` holds exactly when every character is white space |
| JsText.TrimOfTrimmed | src/schemas/employee.ts:6 | text without white space at either end is its own trim |
| JsText.TrimIdempotent | src/schemas/employee.ts:6 | trimming twice is trimming once |
| JsText.TrimIgnoresPadding | src/utils/validateEmail.ts:8 | white space added around a string never changes its trim |
| JsText.NatToDecimal | src/services/employees.ts:50-51 | `String(n)` is a non-empty digit string whose decimal value is `n`, with no leading zero, and one character long exactly when `n < 10` |
| JsText.IntToDecimal | src/pages/EmployeesPage.tsx:61 | `String(i)` is non-empty and has no white space at either end |
| JsText.ReadDigitsMeaning | src/services/employees.ts:57 | the digit reader succeeds exactly on strings of decimal digits, and then gives their decimal value |
| JsText.JsNumber | src/pages/EmployeesPage.tsx:192 | definition of `Number(text)` on integer literals: white space stripped at both ends, then an optionally signed digit string; stated by `JsNumberTrims`, `JsNumberMeaning`, `JsNumberOfBlank` and `JsNumberOfDecimal` |
| JsText.JsNumberTrims | src/pages/EmployeesPage.tsx:192 | `Number` ignores white space at both ends exactly as `trim` does |
| JsText.JsNumberMeaning | src/pages/EmployeesPage.tsx:192 | `Number` of trimmed-empty text is 0, of a sign followed by digits is the signed value, of digits is their value, and of anything else NaN |
| JsText.JsNumberOfBlank | src/services/employees.ts:100 | `Number` of blank text is 0 |
| JsText.JsNumberOfDecimal | src/pages/EmployeesPage.tsx:208 | `Number(String(i))` is `i` for every integer |
| JsText.PadStart2 | src/hooks/useEmployees.ts:81-82 | `padStart(2, "0")` leaves long text alone and fills short text with zeros on the left to length 2 |
| JsText.PadStart2Value | src/hooks/useEmployees.ts:81-82 | a padded number below 100 is two digits with the same decimal value |
| EmployeeTypes.WithId | src/services/employees.ts:106 | `{ ...payload, id }` has the given id, and its other fields are the payload's |
| EmailRule.ValidateEmail | src/utils/validateEmail.ts:1-9 | definition of `validateEmail`: false on blank text, else the scan on the trimmed text; its meaning is stated by `ValidateEmailMeaning` and `EmailShapeIsPattern` |
| EmailRule.EmailShapeIsPattern | src/utils/validateEmail.ts:6 | the scan accepts exactly the strings `^[^\s@]+@[^\s@]+\.[^\s@]+$` matches, in both directions |
| EmailRule.ValidateEmailMeaning | src/utils/validateEmail.ts:1-9 | `validateEmail` holds exactly when the input is not blank and its trim matches the pattern |
| EmailRule.AcceptedEmailHasOneAt | src/utils/validateEmail.ts:6-8 | an accepted address, trimmed, has no white space, exactly one `@`, and the `@` is not first |
| EmailRule.ShapeHasOneAt | src/utils/validateEmail.ts:6 | text of the accepted shape has no white space and exactly one `@`, which is not its first character |
| EmailRule.ValidateEmailIgnoresPadding | src/utils/validateEmail.ts:8 | surrounding white space never changes the verdict |
| EmailRule.AcceptsPlainParts | src/utils/validateEmail.ts:6-8 | any non-empty plain local part, `@`, non-empty plain host label, `.` and non-empty plain remainder is accepted |
| EmailRule.PatternToShape | src/utils/validateEmail.ts:6 | every string the pattern matches passes the scan |
| EmailRule.PlainAroundAt | src/utils/validateEmail.ts:6 | around an `@` with plain text on both sides, no character is white space and only that one is an `@` |
| EmailRule.AcceptsSimpleAddress | src/utils/validateEmail.ts:6 | `a@b.c` is accepted |
| EmailRule.AcceptsSeveralDots | src/utils/validateEmail.ts:6 | `a@b.c.d` is accepted |
| EmailRule.RejectsMisplacedDot | src/utils/validateEmail.ts:6 | `a@b`, `a@.b` and `a@b.` are rejected |
| EmailRule.RejectsTwoAts | src/utils/validateEmail.ts:6 | `a@b@c.d` is rejected |
| EmailRule.RejectsInnerSpace | src/utils/validateEmail.ts:6 | `a b@c.d` is rejected |
| EmailRule.RejectsBlank | src/utils/validateEmail.ts:2-4 | blank input is rejected |
| EmailRule.FirstAt | src/utils/validateEmail.ts:6 | the index found is the first `@`, or the length when there is none |
| PhoneRule.ValidatePhone | src/utils/validatePhone.ts:1-9 | definition of `validatePhone`: false on blank text, else ten kept digits; its meaning is stated by `ValidatePhoneCountsDigits` |
| PhoneRule.Digits | src/utils/validatePhone.ts:6 | the result of `replace(/\D/g, "")` is all digits and no longer than the input |
| PhoneRule.DigitsCount | src/utils/validatePhone.ts:6 | the filter keeps one character for each digit position of the input |
| PhoneRule.DigitsAppend | src/utils/validatePhone.ts:6 | the filter distributes over concatenation |
| PhoneRule.BlankHasNoDigits | src/utils/validatePhone.ts:2-6 | white space has no digits |
| PhoneRule.ValidatePhoneCountsDigits | src/utils/validatePhone.ts:1-9 | `validatePhone` holds exactly when the input has ten digit positions, blank input included |
| PhoneRule.ValidatePhoneOnlyDigitsMatter | src/utils/validatePhone.ts:6-8 | inputs with the same digits get the same verdict |
| PhoneRule.DigitsOfDigits | src/utils/validatePhone.ts:6 | the filter keeps a digit string whole |
| PhoneRule.DigitsOfSeparators | src/utils/validatePhone.ts:6 | the filter drops a string with no digits entirely |
| PhoneRule.KeepsLeadingDigits | src/utils/validatePhone.ts:6 | leading digits are kept in place |
| PhoneRule.DropsLeadingSeparators | src/utils/validatePhone.ts:6 | leading non-digits are dropped |
| PhoneRule.AcceptsDashedNumber | src/utils/validatePhone.ts:6-8 | `098-712-3456` is accepted |
| PhoneRule.AcceptsBracketedNumber | src/utils/validatePhone.ts:6-8 | `(098) 712 3456` is accepted |
| PhoneRule.AcceptsSeparatedGroups | src/utils/validatePhone.ts:6-8 | any three digit groups totalling ten digits, separated and surrounded by text without digits, are accepted |
| PhoneRule.RejectsFiveDigits | src/utils/validatePhone.ts:6-8 | `12345` is rejected |
| PhoneRule.RejectsEmpty | src/utils/validatePhone.ts:2-4 | the empty string is rejected |
| PhoneRule.RejectsLetters | src/utils/validatePhone.ts:6-8 | `abc` is rejected |
| PhoneRule.RejectsMoreThanTenDigits | src/utils/validatePhone.ts:8 | any input with more than ten digits is rejected |
| PhoneRule.RejectsNoDigits | src/utils/validatePhone.ts:6-8 | input without digits is rejected |
| EmployeeSchema.NameOk | src/schemas/employee.ts:6 | definition of the name rule: 1 to 100 characters after trimming; stated by `NameLengthBound` and `AcceptedValues` |
| EmployeeSchema.EmailOk | src/schemas/employee.ts:7-14 | definition of the e-mail rule: 1 to 120 characters after trimming and accepted by `validateEmail`; stated by `AcceptedValues` |
| EmployeeSchema.PhoneOk | src/schemas/employee.ts:15-29 | definition of the optional phone rule: absent, blank, or accepted by `validatePhone`; stated by `OptionalFieldsMayBeBlank` and `AcceptedValues` |
| EmployeeSchema.DepartmentOk | src/schemas/employee.ts:30 | definition of the department rule: non-empty after trimming; stated by `AcceptedValues` |
| EmployeeSchema.JoinDateOk | src/schemas/employee.ts:31-45 | definition of the optional join-date rule: absent, blank, or of the `\d{4}-\d{2}-\d{2}` shape; stated by `DateRuleIsShapeOnly` and `OptionalFieldsMayBeBlank` |
| EmployeeSchema.Parse | src/schemas/employee.ts:5-46 | definition of `safeParse`: the trimmed values when every rule holds, else the failing fields; stated by `ParseReportsFailingFields`, `AcceptedValues` and `ParseIdempotent` |
| EmployeeSchema.Failed | src/schemas/employee.ts:5-46 | a field is reported exactly when its verdict is false, and nothing is reported exactly when all verdicts hold |
| EmployeeSchema.ParseReportsFailingFields | src/schemas/employee.ts:5-46 | the parse fails exactly when some field rule fails, and reports exactly the failing fields |
| EmployeeSchema.AcceptedValues | src/schemas/employee.ts:5-46 | accepted values come out trimmed, with a name of 1 to 100 characters, an e-mail of at most 120 characters matching the pattern, a phone that is empty or has ten digits, a department, and a join date that is empty or date-shaped |
| EmployeeSchema.NameIgnoresTrimming | src/schemas/employee.ts:6 | the name rule gives the same verdict on the trimmed name |
| EmployeeSchema.EmailIgnoresTrimming | src/schemas/employee.ts:7-14 | the e-mail rule gives the same verdict on the trimmed e-mail |
| EmployeeSchema.PhoneIgnoresTrimming | src/schemas/employee.ts:15-29 | the phone rule gives the same verdict on the trimmed phone |
| EmployeeSchema.DepartmentIgnoresTrimming | src/schemas/employee.ts:30 | the department rule gives the same verdict on the trimmed department |
| EmployeeSchema.JoinDateIgnoresTrimming | src/schemas/employee.ts:31-45 | the join-date rule gives the same verdict on the trimmed date |
| EmployeeSchema.TrimOptionIdempotent | src/schemas/employee.ts:15-18 | trimming an optional field twice is trimming it once |
| EmployeeSchema.RulesIgnoreTrimming | src/schemas/employee.ts:5-46 | trimmed values are accepted exactly when the originals are |
| EmployeeSchema.TrimmedIdempotent | src/schemas/employee.ts:5-46 | trimming the values twice is trimming them once |
| EmployeeSchema.ParseIdempotent | src/schemas/employee.ts:5-46 | parsed values parse again to themselves |
| EmployeeSchema.OptionalFieldsMayBeBlank | src/schemas/employee.ts:15-45 | an absent or blank phone or join date is accepted |
| EmployeeSchema.DateRuleIsShapeOnly | src/schemas/employee.ts:40 | `2024-13-45` is accepted and `2024-1-05` is rejected: shape only, no calendar |
| EmployeeSchema.NameLengthBound | src/schemas/employee.ts:6 | a name without surrounding white space is accepted exactly when it has at most 100 characters |
| EmployeeService.GetConcat | src/services/employees.ts:28-51 | looking a key up in a joined query finds the first part's pair before the second's |
| EmployeeService.RemoveAll | src/services/employees.ts:34 | after removal the key is absent, and every other key is unchanged |
| EmployeeService.ReplaceFirst | src/services/employees.ts:34 | after replacement the key has the new value, and every other key is unchanged |
| EmployeeService.SetParam | src/services/employees.ts:34 | `URLSearchParams.set` leaves the key with the new value and every other key unchanged, and appends when the key was absent |
| EmployeeService.FilterPairsSpelledOut | src/services/employees.ts:33-43 | the filter pairs are those of name, e-mail and department, in that order |
| EmployeeService.ConcatInKeyOrder | src/services/employees.ts:28-51 | joining two ordered queries over consecutive key ranges gives an ordered query |
| EmployeeService.SortAndPagingOrdered | src/services/employees.ts:45-51 | the sort pairs and the paging pairs are each ordered and within their key range |
| EmployeeService.FilterPairOrdered | src/services/employees.ts:33-43 | a filter's pairs use only its own key |
| EmployeeService.PageQuery | src/services/employees.ts:28-51 | definition of the page query: filter pairs, then sort pairs, then paging pairs; stated by `PageQueryContents` and `PageQueryInKeyOrder`, and built by `GetEmployees` |
| EmployeeService.CountQuery | src/services/employees.ts:60-69 | definition of the count query: the filter pairs alone; stated by `CountQueryIsFilterOnly` |
| EmployeeService.PageQueryInKeyOrder | src/services/employees.ts:28-51 | the page query lists `name_like`, `email_like`, `department`, `_sort`, `_order`, `_page`, `_limit` in that order, each at most once |
| EmployeeService.GetSingle | src/services/employees.ts:28 | a one-pair query answers only for its key |
| EmployeeService.GetTwo | src/services/employees.ts:28 | a two-pair query answers with its first matching pair |
| EmployeeService.GetFilterPair | src/services/employees.ts:33-43 | a filter's pair holds the trimmed value exactly when the filter is present and not blank |
| EmployeeService.FilterLookups | src/services/employees.ts:33-43 | each filter key holds its trimmed value when supplied, and the other keys are absent from the filter pairs |
| EmployeeService.TailLookups | src/services/employees.ts:45-51 | the sort and paging pairs hold the sort, the order, the page and the limit, and no filter key |
| EmployeeService.LookupPageQuery | src/services/employees.ts:28-51 | a key is looked up in the filter pairs first, then in the sort and paging pairs |
| EmployeeService.PageQueryContents | src/services/employees.ts:28-51 | each filter is present exactly when it is not blank, with the trimmed value; `_sort` and `_order` are present exactly when a sort is given, the order defaulting to `asc`; `_page` and `_limit` are always present |
| EmployeeService.PagingValues | src/services/employees.ts:30-31 | the page and limit sent are at least 1, equal the given value when it is positive, and their text converts back to them |
| EmployeeService.CountQueryIsFilterOnly | src/services/employees.ts:60-69 | the count query has the page query's filter pairs and nothing else, as its leading part |
| EmployeeService.HeaderTotalAsWritten | src/services/employees.ts:55-59 | definition of the header decision as written: the header's `Number` unless it is missing or 0, NaN included; stated by `NonNumericHeaderGivesNaN` and `HeaderTotalAgreesOffNaN` |
| EmployeeService.HeaderTotal | src/services/employees.ts:55-59 | definition of the corrected header decision: a present header whose `Number` is a non-zero integer; stated by `HeaderTotalMeaning` and `HeaderTotalAgreesOffNaN` |
| EmployeeService.ResolvedTotal | src/services/employees.ts:55-81 | definition of the total chain: header total, else the count reply's length, else the page's length; stated by `ResolvedTotalFallback` and used by `GetEmployees` |
| EmployeeService.NonNumericHeaderGivesNaN | src/services/employees.ts:55-59 | the header `abc` makes the code as written use NaN as the total with no count query, where the intended rule counts |
| EmployeeService.HeaderTotalAgreesOffNaN | src/services/employees.ts:55-59 | the code as written and the intended rule agree on every header except one that converts to NaN |
| EmployeeService.HeaderTotalMeaning | src/services/employees.ts:55-57 | the lower-case header is preferred, and a header total that is used is non-zero and is what its text converts to |
| EmployeeService.ResolvedTotalFallback | src/services/employees.ts:59-78 | without a usable header the total is the count reply's length, or the page's length when that count request fails, and it is never negative |
| EmployeeService.SetFilterParams | src/services/employees.ts:33-43 | the successive `set` calls yield exactly the filter pairs |
| EmployeeService.SetSort | src/services/employees.ts:45-48 | when a sort is given, `_sort` and then `_order` are appended; otherwise nothing is |
| EmployeeService.SetPaging | src/services/employees.ts:50-51 | `_page` and then `_limit` are appended |
| EmployeeService.SortPairsLookups | src/services/employees.ts:45-48 | the sort pairs hold no key other than `_sort` and `_order` |
| EmployeeService.GetEmployees | src/services/employees.ts:25-82 | the page query is the one specified; a failed page request rejects without a count; otherwise the data is the page's, a count query with the filters is sent exactly when the header gives no total, and the total is the resolved one |
| EmployeeService.MaxIdQueryAsksForLargest | src/services/employees.ts:92-94 | the max-id query asks for `_sort=id`, `_order=desc`, `_limit=1` and nothing else |
| EmployeeService.MaxIdOf | src/services/employees.ts:95-104 | definition of the max-id read: the first record's id through `Number`, 0 for an empty or non-list reply or a NaN id, none when a `null` is dereferenced; stated by `NextIdExamples`, `NextIdFromNumericText`, `NextIdFromOtherText` and `NextIdIsFresh` |
| EmployeeService.CreateEmployee | src/services/employees.ts:89-109 | the max-id query is always sent; a failed id read rejects without a post; a `null` body or `null` first record makes the read throw a `TypeError`, and nothing is posted; otherwise the posted record is the payload with id `maxId + 1`, and the post's reply is the result |
| EmployeeService.MaxOf | src/services/employees.ts:92-94 | the largest id, which the id-descending query lists first, is among the ids and bounds them all |
| EmployeeService.NextIdIsFresh | src/services/employees.ts:92-106 | when the backend answers the id query honestly, the new id is larger than every existing id, hence unused, and is 1 when there are none |
| EmployeeService.NextIdExamples | src/services/employees.ts:97-106 | largest id 7 gives 8; an empty list, a missing id or an object that is not a list gives 1; a `null` body or a `null` first record gives no id, because reading it throws |
| EmployeeService.NextIdFromNumericText | src/services/employees.ts:99-100 | an id that arrives as the decimal text of a number counts as that number, so the next id is one more |
| EmployeeService.NextIdFromOtherText | src/services/employees.ts:100-103 | a non-numeric id counts as 0, so the next id is 1 |
| EmployeeService.EmployeePath | src/services/employees.ts:85 | a record's path names its id |
| EmployeeService.GetEmployeeByIdRequest | src/services/employees.ts:84-87 | `getEmployeeById` is a GET of the record's path |
| EmployeeService.UpdateEmployeeRequest | src/services/employees.ts:111-117 | `updateEmployee` is a PATCH of the record's path that carries the payload unchanged |
| EmployeeService.DeleteEmployeeRequest | src/services/employees.ts:119-121 | `deleteEmployee` is a DELETE of the record's path |
| ParamsStore.WithFilters | src/store/employeesParams.ts:35-41 | definition of `setFilters` on a snapshot; stated by `FiltersResetPage` and `FiltersIdempotent`, and followed by `EmployeesParams.SetFilters` |
| ParamsStore.WithSorting | src/store/employeesParams.ts:42-46 | definition of `setSorting` on a snapshot; stated by `SortingSameFieldTwice`, `SortingNewField` and `SortingKeepsTheRest`, and followed by `EmployeesParams.SetSorting` |
| ParamsStore.Flip | src/store/employeesParams.ts:45 | flipping always changes the order |
| ParamsStore.FiltersResetPage | src/store/employeesParams.ts:35-41 | filtering sets the supplied filters, keeps the others, returns to page 1, and keeps the limit and the sort |
| ParamsStore.FiltersIdempotent | src/store/employeesParams.ts:35-41 | applying the same filters twice is applying them once |
| ParamsStore.SortingSameFieldTwice | src/store/employeesParams.ts:42-46 | sorting by the current field keeps the field and flips the order, and doing it twice restores the state |
| ParamsStore.SortingNewField | src/store/employeesParams.ts:44-45 | a new field sorts ascending whatever the order was, and choosing it again sorts descending |
| ParamsStore.SortingKeepsTheRest | src/store/employeesParams.ts:42-46 | sorting changes only the sort field and the order |
| ParamsStore.EmployeesParams.constructor | src/store/employeesParams.ts:26-32 | the store starts at page 1, limit 10, no filters, sorted by `id` descending |
| ParamsStore.EmployeesParams.SetPage | src/store/employeesParams.ts:33 | `setPage` changes the page only |
| ParamsStore.EmployeesParams.SetLimit | src/store/employeesParams.ts:34 | `setLimit` changes the limit only; the page is kept |
| ParamsStore.EmployeesParams.SetFilters | src/store/employeesParams.ts:35-41 | `setFilters` has the effect of the filter update on the state |
| ParamsStore.EmployeesParams.SetSorting | src/store/employeesParams.ts:42-46 | `setSorting` has the effect of the sort update on the state |
| ParamsStore.EmployeesParams.Reset | src/store/employeesParams.ts:47-56 | `reset` returns to the initial state from any state |
| EmployeesHook.CeilDiv | src/hooks/useEmployees.ts:71 | `Math.ceil(a / b)` is the least `q` with `a <= q * b` |
| EmployeesHook.TotalPages | src/hooks/useEmployees.ts:70-73 | there is always at least one page; for a positive total the pages hold the total with the last page non-empty; a total within one page gives one page |
| EmployeesHook.TotalPagesIsLeast | src/hooks/useEmployees.ts:70-73 | no smaller number of pages of this size holds the total |
| EmployeesHook.CurrentDate | src/hooks/useEmployees.ts:79-83 | definition of `currentDate`; stated by `CurrentDateShape` and `CurrentDateOk` |
| EmployeesHook.DateOfParts | src/hooks/useEmployees.ts:83 | four digits, two digits and two digits joined by `-` have the date shape and read back to their parts |
| EmployeesHook.CurrentDateShape | src/hooks/useEmployees.ts:79-83 | today's date text has the schema's date shape, and reads back to the year, the month plus 1, and the day |
| EmployeesHook.CurrentDateOk | src/hooks/useEmployees.ts:79-83 | today's date text passes the schema's join-date rule |
| EmployeesHook.PhoneValue | src/hooks/useEmployees.ts:85-90 | the payload phone is empty exactly when the phone is absent or blank; otherwise it is the trimmed phone |
| EmployeesHook.PhoneValueOk | src/hooks/useEmployees.ts:85-90 | a phone the schema accepts still passes the phone rule once trimmed or emptied |
| EmployeesHook.CreatePayload | src/hooks/useEmployees.ts:92-98 | definition of `createValues`; stated by `CreatePayloadIgnoresJoinDate` and `CreatePayloadPassesSchema` |
| EmployeesHook.CreatePayloadIgnoresJoinDate | src/hooks/useEmployees.ts:92-98 | the form's join date plays no part in the payload |
| EmployeesHook.CreatePayloadPassesSchema | src/hooks/useEmployees.ts:92-98 | the payload made from accepted form values is itself accepted by the schema |
| EmployeesHook.UpdatePatch | src/hooks/useEmployees.ts:119 | the update sends the form values unchanged: every field, none added |
| EmployeesHook.UpdatePatchOfParsedIsTrimmed | src/hooks/useEmployees.ts:119 | values that went through the schema are sent trimmed |
| EmployeesHook.QueryParamsOf | src/hooks/useEmployees.ts:38-49 | definition of `queryParams`: the store's seven fields, all present; stated by `InitialQuery` and `ClearedFiltersQuery` |
| EmployeesHook.InitialQuery | src/hooks/useEmployees.ts:38-49 | in the initial state the first request asks for `_sort=id`, `_order=desc`, `_page=1`, `_limit=10`, with no filters |
| EmployeesHook.AfterFetch | src/hooks/useEmployees.ts:51-64 | definition of the table state a fetch leaves; stated by `AfterFetchMeaning` and reached by `FetchData` |
| EmployeesHook.CreateFailure | src/hooks/useEmployees.ts:75-113 | definition of what a create rethrows: the max-id read's failure, a `null` read's `TypeError`, or the post's failure; the result of `EmployeesHook.CreateEmployee` |
| EmployeesHook.AfterFetchMeaning | src/hooks/useEmployees.ts:51-64 | a failed fetch keeps the data and the total and reports the error; a successful one clears the error |
| EmployeesHook.EmployeesHook.constructor | src/hooks/useEmployees.ts:32-36 | the hook starts with an empty table, total 0, not loading, no error, not submitting |
| EmployeesHook.EmployeesHook.FetchData | src/hooks/useEmployees.ts:51-64 | asks for the page the store describes, stores its data and total or its error, and ends not loading, leaving `submitting` alone |
| EmployeesHook.EmployeesHook.CreateEmployee | src/hooks/useEmployees.ts:75-113 | sends the payload; on failure rethrows with the table unchanged, on success refetches; `submitting` is raised on entry and lowered on every exit |
| EmployeesHook.EmployeesHook.UpdateEmployee | src/hooks/useEmployees.ts:115-132 | sends the id and the values; on failure rethrows with the table unchanged, on success refetches; `submitting` is raised on entry and lowered on every exit |
| EmployeesHook.EmployeesHook.DeleteEmployee | src/hooks/useEmployees.ts:134-150 | changes nothing when not confirmed; otherwise deletes, swallows a failure and refetches on success; `submitting` is never touched |
| EmployeesPage.ChangeAccepts | src/pages/EmployeesPage.tsx:192-193 | definition of the change handler's test: the text is a number in 10..100; stated by `BlurLimitKeepsValidSizes` and `OnLimitChange` |
| EmployeesPage.PrevDisabled | src/pages/EmployeesPage.tsx:175 | definition of `page <= 1`; stated by `PaginationStaysInRange` and `SinglePageDisablesBoth` |
| EmployeesPage.NextDisabled | src/pages/EmployeesPage.tsx:182 | definition of `page >= totalPages`; stated by `PaginationStaysInRange` and `SinglePageDisablesBoth` |
| EmployeesPage.BlurLimit | src/pages/EmployeesPage.tsx:197-209 | the blur clamp is always within 10..100: a number in range is kept, one above is 100, and one below or text that is not a number is 10 |
| EmployeesPage.BlurLimitKeepsValidSizes | src/pages/EmployeesPage.tsx:197-209 | a page size in 10..100, shown as text, is kept by both the blur and the change handler |
| EmployeesPage.BlurLimitIdempotent | src/pages/EmployeesPage.tsx:197-209 | clamping the text of a clamped value gives it back |
| EmployeesPage.PrevTarget | src/pages/EmployeesPage.tsx:174 | the previous-page target is never below 1, and is one page back from any page above 1 |
| EmployeesPage.PaginationStaysInRange | src/pages/EmployeesPage.tsx:173-184 | from a page within range, previous is disabled exactly on page 1 and next exactly on the last page, and an enabled button moves one page and stays within range |
| EmployeesPage.SinglePageDisablesBoth | src/pages/EmployeesPage.tsx:173-184 | when the total fits one page, next is disabled, and so is previous on page 1 |
| EmployeesPage.ClearedFiltersQuery | src/pages/EmployeesPage.tsx:120-124 | once cleared filters reach the store, the next query carries no filter and asks for page 1 |
| EmployeesPage.EmployeesPageView.constructor | src/pages/EmployeesPage.tsx:39-58 | empty search fields, the limit's text in the page-size field, no modal open |
| EmployeesPage.EmployeesPageView.OnLimitChange | src/pages/EmployeesPage.tsx:189-196 | the typed text is kept; the limit changes only to a number in 10..100, and then the field shows that number; the limit stays within 10..100 |
| EmployeesPage.EmployeesPageView.OnLimitBlur | src/pages/EmployeesPage.tsx:197-209 | the limit becomes the clamp of the text, and the field shows it |
| EmployeesPage.EmployeesPageView.PrevPage | src/pages/EmployeesPage.tsx:173-176 | disabled on page 1 or below; otherwise the page becomes `max(1, page - 1)` and nothing else changes |
| EmployeesPage.EmployeesPageView.NextPage | src/pages/EmployeesPage.tsx:182 | disabled from the last page on; otherwise the page becomes `page + 1` and nothing else changes |
| EmployeesPage.EmployeesPageView.ClearFilters | src/pages/EmployeesPage.tsx:120-124 | the three search fields become empty, and the rest of the page state is kept |
| EmployeesPage.EmployeesPageView.SyncFilters | src/pages/EmployeesPage.tsx:46-52 | the three debounced values reach the store, which returns to page 1 |
| EmployeesPage.EmployeesPageView.OpenCreate | src/pages/EmployeesPage.tsx:130-133 | the form opens with no record being edited |
| EmployeesPage.EmployeesPageView.OpenEdit | src/pages/EmployeesPage.tsx:160-163 | the form opens on the chosen record |
| EmployeesPage.EmployeesPageView.CloseModal | src/pages/EmployeesPage.tsx:216-221 | the form closes and forgets the record unless a submit is in progress |
| EmployeesPage.EmployeesPageView.HandleCreate | src/pages/EmployeesPage.tsx:70-78 | creates from the values, with `submitting` raised and lowered once; on failure only the create call is made and the table and the form stay as they were; on success the list is refetched, the table takes the refetch's outcome, and the form closes; the search fields and the page-size text are kept |
| EmployeesPage.EmployeesPageView.HandleUpdate | src/pages/EmployeesPage.tsx:80-89 | does nothing without a record being edited; otherwise updates that record, with `submitting` raised and lowered once; on failure the table and the form stay as they were; on success the list is refetched, the table takes its outcome, and the form closes |
| EmployeesPage.EmployeesPageView.Submit | src/pages/EmployeesPage.tsx:223 | a submit updates the edited record when there is one and creates otherwise, and leaves the hook, the form and the search fields in the state of the branch taken |

## Left out

- The HTTP client (`src/services/api.ts`): base URL, timeout, error-message extraction. Each reply is a `Result` whose failure carries the message the interceptor would produce.
- The code has no retry, no back-off and no duplicate-record check, and the service trims only the filter values; the model has none of these either.
- An update forwards every form value unchanged: it does not drop absent fields, and it trims nothing beyond what the schema already did.
- Only `setFilters` returns to page 1; `setLimit` keeps the page. A larger page size can therefore leave the page beyond the last one: 50 records on page 5 of 10-row pages, then 25 rows per page, gives 2 pages with page 5 kept.
- Concurrency is not modelled: out-of-order list replies, and two clients computing the same next id. Each action is one sequential run over given replies.
- The re-fetch that React's effect triggers after every change of the store's parameters is not modelled. `FetchData` models one such fetch on the current parameters.
- Rendering is not modelled: the table, the skeletons, the dropdown, the detail modal (`handleViewDetail` and its close button), the modal and button components, and the loading and error texts.
- `useDebounce`, `formatPhoneNumber`, `formatDate` and the `DEPARTMENTS` constant are not part of this model. The debounced filter values are parameters of `SyncFilters`.
- Toast messages are not modelled. `new Date()` is a `Today` parameter and `confirm` is a boolean parameter.
- JsText.JsNumber: only optionally signed decimal integers are read as numbers. Fractions (`12.5`), exponents (`1e2`), hexadecimal (`0x1A`) and `Infinity` are read as NaN, because the model's numbers are integers. Three consequences follow. A page size such as `12.5` typed into the page-size field is outside the model. A count header such as `25.0` or `1e2`, which the code uses as the total, is read as NaN, so the model sends the count query instead. A text id such as `7.0`, from which the code makes the next id 8, counts as 0, so the model's next id is 1.
- JsText.IsSpace is the ECMAScript white-space set written out. Strings are sequences of characters, so a `length` counted in UTF-16 code units (the schema's 100 and 120 limits) is counted here in characters.
- EmployeeService.CreateEmployee: the `TypeError` thrown when the max-id reply or its first record is `null` carries the fixed message `TypeError`, not the engine's own text.
- Query strings are lists of name/value pairs. URL encoding and the `toString` form are not modelled.
- The schema's error messages and zod's own behaviour are not modelled. The parse reports the set of failing fields.
- EmployeesHook.TotalPages requires a positive limit. The store's limit starts at 10, and the page only ever sets it within 10..100. A zero or negative limit, which would give `Infinity` or NaN in JavaScript, is not modelled.
- EmployeesHook.CurrentDateShape requires a four-digit year and a month and day in range, as `Date` supplies them.
- The header total in `GetEmployees` is the intended one (see Findings). The code as written is modelled separately by `HeaderTotalAsWritten`.

## Findings

| source | as written | input that shows it | evidently intended | confidence | as-written member | corrected member |
|---|---|---|---|---|---|---|
| src/services/employees.ts:55-59 | the count fallback runs only when the header is missing or converts to 0, so a header that converts to NaN is used as the total | an `x-total-count` header of `abc`: `Number("abc")` is NaN, NaN is not 0, no count query is sent, and the total is NaN | a header that is not a number is treated like a missing one, and the total is counted | not executed | EmployeeService.NonNumericHeaderGivesNaN | EmployeeService.GetEmployees |
