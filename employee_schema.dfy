/**
 * The employee form schema: per-field rules on trimmed text, combined into one
 * parse that yields the trimmed values or the set of fields that failed.
 */
module EmployeeSchema {
  import opened Wrappers
  import opened JsText
  import opened EmailRule
  import opened PhoneRule

  /** The form's values (`EmployeeFormValues`); `phone` and `joinDate` may be absent. */
  datatype FormValues = FormValues(
    name: string,
    email: string,
    phone: Option<string>,
    department: string,
    joinDate: Option<string>)

  datatype Field = Name | Email | Phone | Department | JoinDate

  /** `/^\d{4}-\d{2}-\d{2}$/`: the shape of a date, with no calendar check. */
  predicate IsDateShape(s: string) {
    && |s| == 10
    && AllDigits(s[..4]) && s[4] == '-'
    && AllDigits(s[5..7]) && s[7] == '-'
    && AllDigits(s[8..])
  }

  /** `name`: trimmed length between 1 and 100. */
  predicate NameOk(name: string) {
    1 <= |Trim(name)| <= 100
  }

  /** `email`: trimmed length between 1 and 120, and `validateEmail` of the trimmed text. */
  predicate EmailOk(email: string) {
    var v := Trim(email);
    1 <= |v| <= 120 && ValidateEmail(v)
  }

  /** `phone`: absent, blank after trimming, or accepted by `validatePhone`. */
  predicate PhoneOk(phone: Option<string>) {
    match phone
    case None => true
    case Some(p) => var v := Trim(p); IsBlank(v) || ValidatePhone(v)
  }

  /** `department`: non-empty after trimming. */
  predicate DepartmentOk(department: string) {
    1 <= |Trim(department)|
  }

  /** `joinDate`: absent, blank after trimming, or of the date shape. */
  predicate JoinDateOk(joinDate: Option<string>) {
    match joinDate
    case None => true
    case Some(d) => var v := Trim(d); IsBlank(v) || IsDateShape(v)
  }

  predicate FieldOk(v: FormValues, f: Field) {
    match f
    case Name => NameOk(v.name)
    case Email => EmailOk(v.email)
    case Phone => PhoneOk(v.phone)
    case Department => DepartmentOk(v.department)
    case JoinDate => JoinDateOk(v.joinDate)
  }

  /** The fields whose verdict is false. */
  function Failed(name: bool, email: bool, phone: bool, department: bool, joinDate: bool): (errors: set<Field>)
    ensures Name in errors <==> !name
    ensures Email in errors <==> !email
    ensures Phone in errors <==> !phone
    ensures Department in errors <==> !department
    ensures JoinDate in errors <==> !joinDate
    ensures errors == {} <==> name && email && phone && department && joinDate
  {
    (if name then {} else {Name})
    + (if email then {} else {Email})
    + (if phone then {} else {Phone})
    + (if department then {} else {Department})
    + (if joinDate then {} else {JoinDate})
  }

  /** The fields whose rule fails. */
  function Failing(v: FormValues): set<Field> {
    Failed(NameOk(v.name), EmailOk(v.email), PhoneOk(v.phone), DepartmentOk(v.department), JoinDateOk(v.joinDate))
  }

  function TrimOption(o: Option<string>): Option<string> {
    match o
    case None => None
    case Some(s) => Some(Trim(s))
  }

  /** Each string field trimmed, absent fields kept absent. */
  function Trimmed(v: FormValues): FormValues {
    FormValues(Trim(v.name), Trim(v.email), TrimOption(v.phone), Trim(v.department), TrimOption(v.joinDate))
  }

  /** `employeeFormSchema.safeParse(v)`. */
  function Parse(v: FormValues): Result<FormValues, set<Field>> {
    var errors := Failing(v);
    if errors == {} then Success(Trimmed(v)) else Failure(errors)
  }

  /** A field is reported exactly when its rule fails, and the parse succeeds exactly when none is. */
  lemma ParseReportsFailingFields(v: FormValues)
    ensures forall f :: f in Failing(v) <==> !FieldOk(v, f)
    ensures Parse(v).Success? <==> forall f :: FieldOk(v, f)
    ensures Parse(v).Failure? ==> Parse(v).error == Failing(v)
  {
    var errors := Failing(v);
    forall f ensures f in errors <==> !FieldOk(v, f) {
      match f
      case Name =>
      case Email =>
      case Phone =>
      case Department =>
      case JoinDate =>
    }
  }

  /**
   * What an accepted form guarantees about its parsed values: trimmed text, a
   * name of 1 to 100 characters, an address matching the e-mail pattern, a
   * phone that is empty or has exactly ten digits, a department, a join date
   * that is empty or of the date shape.
   */
  lemma AcceptedValues(v: FormValues)
    requires Parse(v).Success?
    ensures var w := Parse(v).value;
      && w == Trimmed(v)
      && 1 <= |w.name| <= 100
      && |w.email| <= 120 && MatchesEmailPattern(w.email)
      && (w.phone.Some? && w.phone.value != "" ==> |DigitPositions(w.phone.value)| == 10)
      && w.department != ""
      && (w.joinDate.Some? && w.joinDate.value != "" ==> IsDateShape(w.joinDate.value))
  {
    ParseReportsFailingFields(v);
    assert FieldOk(v, Name) && FieldOk(v, Email) && FieldOk(v, Phone);
    assert FieldOk(v, Department) && FieldOk(v, JoinDate);
    var w := Parse(v).value;
    ValidateEmailMeaning(w.email);
    TrimIdempotent(v.email);
    if w.phone.Some? && w.phone.value != "" {
      ValidatePhoneCountsDigits(w.phone.value);
      TrimIdempotent(v.phone.value);
    }
    if w.joinDate.Some? && w.joinDate.value != "" {
      TrimIdempotent(v.joinDate.value);
    }
  }

  lemma TrimOptionIdempotent(o: Option<string>)
    ensures TrimOption(TrimOption(o)) == TrimOption(o)
  {
    if o.Some? {
      TrimIdempotent(o.value);
    }
  }

  lemma NameIgnoresTrimming(v: FormValues)
    ensures NameOk(Trimmed(v).name) == NameOk(v.name)
  {
    TrimIdempotent(v.name);
  }

  lemma EmailIgnoresTrimming(v: FormValues)
    ensures EmailOk(Trimmed(v).email) == EmailOk(v.email)
  {
    TrimIdempotent(v.email);
  }

  lemma PhoneIgnoresTrimming(v: FormValues)
    ensures PhoneOk(Trimmed(v).phone) == PhoneOk(v.phone)
  {
    if v.phone.Some? {
      TrimIdempotent(v.phone.value);
    }
  }

  lemma DepartmentIgnoresTrimming(v: FormValues)
    ensures DepartmentOk(Trimmed(v).department) == DepartmentOk(v.department)
  {
    TrimIdempotent(v.department);
  }

  lemma JoinDateIgnoresTrimming(v: FormValues)
    ensures JoinDateOk(Trimmed(v).joinDate) == JoinDateOk(v.joinDate)
  {
    if v.joinDate.Some? {
      TrimIdempotent(v.joinDate.value);
    }
  }

  /** Every rule trims first, so trimmed values are accepted exactly when the originals are. */
  lemma RulesIgnoreTrimming(v: FormValues)
    ensures Failing(Trimmed(v)) == {} <==> Failing(v) == {}
  {
    NameIgnoresTrimming(v);
    EmailIgnoresTrimming(v);
    PhoneIgnoresTrimming(v);
    DepartmentIgnoresTrimming(v);
    JoinDateIgnoresTrimming(v);
  }

  lemma TrimmedIdempotent(v: FormValues)
    ensures Trimmed(Trimmed(v)) == Trimmed(v)
  {
    TrimIdempotent(v.name);
    TrimIdempotent(v.email);
    TrimIdempotent(v.department);
    TrimOptionIdempotent(v.phone);
    TrimOptionIdempotent(v.joinDate);
  }

  /** Parsing is idempotent: parsed values parse again to themselves. */
  lemma ParseIdempotent(v: FormValues)
    requires Parse(v).Success?
    ensures Parse(Parse(v).value) == Parse(v)
  {
    RulesIgnoreTrimming(v);
    TrimmedIdempotent(v);
  }

  /** Absent or blank optional fields are accepted without further checks. */
  lemma OptionalFieldsMayBeBlank(p: string, d: string)
    requires AllSpace(p) && AllSpace(d)
    ensures PhoneOk(None) && PhoneOk(Some(p))
    ensures JoinDateOk(None) && JoinDateOk(Some(d))
  {
  }

  /** The date rule checks only the shape: `2024-13-45` passes, `2024-1-05` does not. */
  lemma DateRuleIsShapeOnly()
    ensures JoinDateOk(Some("2024-13-45"))
    ensures !JoinDateOk(Some("2024-1-05"))
  {
    TrimOfTrimmed("2024-13-45");
    TrimOfTrimmed("2024-1-05");
  }

  /** A name of 101 non-space characters is rejected; 100 are accepted. */
  lemma NameLengthBound(name: string)
    requires name != [] && !IsSpace(name[0]) && !IsSpace(name[|name| - 1])
    ensures NameOk(name) <==> |name| <= 100
  {
    TrimOfTrimmed(name);
  }
}
