/**
 * The error record and the required-field and date-order rules that both
 * forms apply (src/components/CertificateDetailsForm/CertificateDetailsForm.tsx
 * and src/components/CourseForm/CourseForm.tsx write the same checks).
 */
module FormRules {
  import opened Wrappers
  import opened Types
  import opened Text

  /** The keys of a form's error record: a CourseData field, `date` or `pdf`. */
  datatype ErrorKey = FieldError(field: Field) | DateOrder | Pdf

  /**
   * `Partial<Record<keyof CourseData | "date" | "pdf", string>>`: every key
   * is either absent or holds a message (the empty string once cleared).
   */
  datatype ErrorState = ErrorState(
    id: Option<string>,
    candidateName: Option<string>,
    courseName: Option<string>,
    courseId: Option<string>,
    startDate: Option<string>,
    endDate: Option<string>,
    description: Option<string>,
    date: Option<string>,
    pdf: Option<string>)

  /** `{}`: the error record with no key at all. */
  const NoErrors: ErrorState := ErrorState(None, None, None, None, None, None, None, None, None)

  /** `errors[k]` */
  function ErrorAt(e: ErrorState, k: ErrorKey): Option<string>
  {
    match k
    case FieldError(Id) => e.id
    case FieldError(CandidateName) => e.candidateName
    case FieldError(CourseName) => e.courseName
    case FieldError(CourseId) => e.courseId
    case FieldError(StartDate) => e.startDate
    case FieldError(EndDate) => e.endDate
    case FieldError(Description) => e.description
    case DateOrder => e.date
    case Pdf => e.pdf
  }

  /** `{ ...errors, [k]: v }` */
  function WithError(e: ErrorState, k: ErrorKey, v: string): (r: ErrorState)
    ensures ErrorAt(r, k) == Some(v)
    ensures forall j :: j != k ==> ErrorAt(r, j) == ErrorAt(e, j)
  {
    match k
    case FieldError(Id) => e.(id := Some(v))
    case FieldError(CandidateName) => e.(candidateName := Some(v))
    case FieldError(CourseName) => e.(courseName := Some(v))
    case FieldError(CourseId) => e.(courseId := Some(v))
    case FieldError(StartDate) => e.(startDate := Some(v))
    case FieldError(EndDate) => e.(endDate := Some(v))
    case FieldError(Description) => e.(description := Some(v))
    case DateOrder => e.(date := Some(v))
    case Pdf => e.(pdf := Some(v))
  }

  /** `Object.keys(e).length === 0` holds exactly when no key is present. */
  lemma {:induction false} NoKeysIsNoErrors(e: ErrorState)
    ensures e == NoErrors <==> forall k :: ErrorAt(e, k).None?
  {
    if forall k :: ErrorAt(e, k).None? {
      assert ErrorAt(e, FieldError(Id)).None? && ErrorAt(e, FieldError(CourseId)).None?;
      assert ErrorAt(e, FieldError(CandidateName)).None? && ErrorAt(e, FieldError(CourseName)).None?;
      assert ErrorAt(e, FieldError(StartDate)).None? && ErrorAt(e, FieldError(EndDate)).None?;
      assert ErrorAt(e, FieldError(Description)).None?;
      assert ErrorAt(e, DateOrder).None? && ErrorAt(e, Pdf).None?;
    }
  }

  /**
   * `new Date(a) > new Date(b)`: date parsing is left to the caller, so the
   * comparison is a parameter.
   */
  type After = (string, string) -> bool

  /** The message each rule shows when it fails. */
  function Message(k: ErrorKey): (r: string)
    ensures k != FieldError(Id) && k != FieldError(CourseId) ==> r != ""
  {
    match k
    case FieldError(CandidateName) => "Candidate name is required"
    case FieldError(CourseName) => "Course name is required"
    case FieldError(StartDate) => "Start date is required"
    case FieldError(EndDate) => "End date is required"
    case FieldError(Description) => "Description is required"
    case DateOrder => "Start date cannot be after end date"
    case Pdf => "Certificate background PDF is required"
    case _ => ""
  }

  /** `!s.trim()`: nothing is left once the string is trimmed. */
  predicate Blank(s: string)
  {
    Trim(s) == ""
  }

  /**
   * The date-order check: both dates are given and the start is after the
   * end. Dates are tested for emptiness as typed, without trimming.
   */
  predicate DateOrderViolated(d: CourseData, after: After)
  {
    d.startDate != "" && d.endDate != "" && after(d.startDate, d.endDate)
  }

  /**
   * Whether the record, on its own, fails the rule behind error key `k`:
   * names and description must hold a non-whitespace character, dates must
   * be non-empty, and the start must not be after the end. No rule guards
   * the identifiers, and no record fails `pdf`, which is about the form's
   * file rather than its record.
   */
  predicate RecordViolates(d: CourseData, after: After, k: ErrorKey)
  {
    match k
    case FieldError(CandidateName) => AllWhitespace(d.candidateName)
    case FieldError(CourseName) => AllWhitespace(d.courseName)
    case FieldError(StartDate) => d.startDate == ""
    case FieldError(EndDate) => d.endDate == ""
    case FieldError(Description) => AllWhitespace(d.description)
    case DateOrder => DateOrderViolated(d, after)
    case _ => false
  }

  /** The entry a rule leaves under its key: its message when it fails, no key when it holds. */
  function Flag(fails: bool, k: ErrorKey): Option<string>
  {
    if fails then Some(Message(k)) else None
  }

  /**
   * The error record that the record rules alone produce: each rule's
   * verdict filed under its key. The identifiers are never checked and
   * `pdf` is left to the form that has a file.
   */
  function RecordErrors(d: CourseData, after: After): (r: ErrorState)
    ensures r.id.None? && r.courseId.None? && r.pdf.None?
    ensures r.date.Some? ==> d.startDate != "" && d.endDate != ""
  {
    ErrorState(
      None,
      Flag(AllWhitespace(d.candidateName), FieldError(CandidateName)),
      Flag(AllWhitespace(d.courseName), FieldError(CourseName)),
      None,
      Flag(d.startDate == "", FieldError(StartDate)),
      Flag(d.endDate == "", FieldError(EndDate)),
      Flag(AllWhitespace(d.description), FieldError(Description)),
      Flag(DateOrderViolated(d, after), DateOrder),
      None)
  }

  /** Under every key, the record rules leave that rule's message exactly when it fails. */
  lemma RecordErrorsAt(d: CourseData, after: After, k: ErrorKey)
    ensures ErrorAt(RecordErrors(d, after), k).Some? <==> RecordViolates(d, after, k)
    ensures ErrorAt(RecordErrors(d, after), k).Some? ==> ErrorAt(RecordErrors(d, after), k).value == Message(k)
  {
  }

  /**
   * A record leaves no error exactly when its names and description hold a
   * non-whitespace character, both dates are given and the start is not
   * after the end.
   */
  lemma {:induction false} RecordErrorsEmptyIff(d: CourseData, after: After)
    ensures RecordErrors(d, after) == NoErrors <==> forall k :: !RecordViolates(d, after, k)
    ensures RecordErrors(d, after) == NoErrors <==>
            (&& !AllWhitespace(d.candidateName)
             && !AllWhitespace(d.courseName)
             && !AllWhitespace(d.description)
             && d.startDate != "" && d.endDate != ""
             && !after(d.startDate, d.endDate))
  {
    NoKeysIsNoErrors(RecordErrors(d, after));
    forall k {
      RecordErrorsAt(d, after, k);
    }
    RecordRulesHold(d, after);
  }

  /** A record passes every record rule exactly when its text fields are filled in and its dates are in order. */
  lemma {:induction false} RecordRulesHold(d: CourseData, after: After)
    ensures (forall k :: !RecordViolates(d, after, k)) <==>
            (&& !AllWhitespace(d.candidateName)
             && !AllWhitespace(d.courseName)
             && !AllWhitespace(d.description)
             && d.startDate != "" && d.endDate != ""
             && !after(d.startDate, d.endDate))
  {
    if !AllWhitespace(d.candidateName) && !AllWhitespace(d.courseName) && !AllWhitespace(d.description)
       && d.startDate != "" && d.endDate != "" && !after(d.startDate, d.endDate)
    {
      forall k ensures !RecordViolates(d, after, k) {
      }
    } else {
      assert
        || RecordViolates(d, after, FieldError(CandidateName))
        || RecordViolates(d, after, FieldError(CourseName))
        || RecordViolates(d, after, FieldError(Description))
        || RecordViolates(d, after, FieldError(StartDate))
        || RecordViolates(d, after, FieldError(EndDate))
        || RecordViolates(d, after, DateOrder);
    }
  }

  /**
   * A strict total order on date strings, the reading under which
   * "start is not after end" means "start is on or before end".
   */
  ghost predicate StrictTotalOrder(after: After)
  {
    && (forall a :: !after(a, a))
    && (forall a, b :: a != b ==> after(a, b) || after(b, a))
  }

  /** Under a total order, a record that passes the date rules has its start on or before its end. */
  lemma DatesInOrder(d: CourseData, after: After)
    requires StrictTotalOrder(after)
    requires !RecordViolates(d, after, FieldError(StartDate))
    requires !RecordViolates(d, after, FieldError(EndDate))
    requires !RecordViolates(d, after, DateOrder)
    ensures d.startDate == d.endDate || after(d.endDate, d.startDate)
  {
  }

  /** The identifier fields take no part in validation, so stamping keeps every verdict. */
  lemma StampedKeepsVerdicts(d: CourseData, uuid: string, after: After, k: ErrorKey)
    ensures RecordViolates(Stamped(d, uuid), after, k) == RecordViolates(d, after, k)
  {
  }
}
