/**
 * The intake form for one certificate
 * (src/components/CertificateDetailsForm/CertificateDetailsForm.tsx): it
 * collects a record and a background PDF, validates them, and hands both
 * off to the certificate editor.
 */
module CertificateDetailsForm {
  import opened Wrappers
  import opened Types
  import opened Text
  import opened FormRules

  /** An uploaded file; the form stores and forwards it without looking inside. */
  datatype PdfFile = PdfFile(name: string)

  /** What a valid submit passes on: the background file and the finished record. */
  datatype Handoff = Handoff(pdf: PdfFile, record: CourseData)

  /** Whether the form fails the rule behind `k`: a record rule, or `pdf` when no file was chosen. */
  predicate Violates(d: CourseData, file: Option<PdfFile>, after: After, k: ErrorKey)
  {
    RecordViolates(d, after, k) || (k == Pdf && file.None?)
  }

  /** The error record `validate` produces: the record rules' verdicts, and `pdf` when no file was chosen. */
  function ValidationErrors(d: CourseData, file: Option<PdfFile>, after: After): (r: ErrorState)
    ensures r.pdf.Some? <==> file.None?
    ensures r.id.None? && r.courseId.None?
  {
    RecordErrors(d, after).(pdf := Flag(file.None?, Pdf))
  }

  /** Under every key, the validation result holds that rule's message exactly when the rule fails. */
  lemma ValidationErrorsAt(d: CourseData, file: Option<PdfFile>, after: After, k: ErrorKey)
    ensures ErrorAt(ValidationErrors(d, file, after), k).Some? <==> Violates(d, file, after, k)
    ensures ErrorAt(ValidationErrors(d, file, after), k).Some? ==>
              ErrorAt(ValidationErrors(d, file, after), k).value == Message(k)
  {
    RecordErrorsAt(d, after, k);
  }

  /**
   * `validate` succeeds exactly when the names and description hold a
   * non-whitespace character, both dates are given, a file is present and
   * the start is not after the end.
   */
  lemma {:induction false} ValidIff(d: CourseData, file: Option<PdfFile>, after: After)
    ensures ValidationErrors(d, file, after) == NoErrors <==> forall k :: !Violates(d, file, after, k)
    ensures ValidationErrors(d, file, after) == NoErrors <==>
            (&& !AllWhitespace(d.candidateName)
             && !AllWhitespace(d.courseName)
             && !AllWhitespace(d.description)
             && d.startDate != "" && d.endDate != ""
             && file.Some?
             && !after(d.startDate, d.endDate))
  {
    var e := ValidationErrors(d, file, after);
    RecordRulesHold(d, after);
    NoKeysIsNoErrors(e);
    forall k {
      ValidationErrorsAt(d, file, after, k);
    }
    assert Violates(d, file, after, Pdf) <==> file.None?;
  }

  /** The record a valid form hands off passes every record rule, whatever identifier it is stamped with. */
  lemma HandoffPassesRules(d: CourseData, file: Option<PdfFile>, after: After, uuid: string)
    requires ValidationErrors(d, file, after) == NoErrors
    ensures forall k :: !RecordViolates(Stamped(d, uuid), after, k)
  {
    forall k ensures !RecordViolates(Stamped(d, uuid), after, k) {
      ValidationErrorsAt(d, file, after, k);
      StampedKeepsVerdicts(d, uuid, after, k);
    }
  }

  /** The form's component state. */
  class Form {
    var formData: CourseData
    var errors: ErrorState
    var localPdfFile: Option<PdfFile>
    /** `uniqueIdRef`: generated once when the form mounts. */
    const uniqueId: string

    constructor (uuid: string)
      ensures formData == InitialForm && errors == NoErrors && localPdfFile == None
      ensures uniqueId == uuid
    {
      formData := InitialForm;
      errors := NoErrors;
      localPdfFile := None;
      uniqueId := uuid;
    }

    /** `validate`: records every failed rule in `errors` and reports whether there were none. */
    method Validate(after: After) returns (ok: bool)
      modifies this`errors
      ensures errors == ValidationErrors(formData, localPdfFile, after)
      ensures ok <==> errors == NoErrors
    {
      var d, file := formData, localPdfFile;
      var newErrors := NoErrors;
      if Blank(d.candidateName) {
        newErrors := newErrors.(candidateName := Some(Message(FieldError(CandidateName))));
      }
      if Blank(d.courseName) {
        newErrors := newErrors.(courseName := Some(Message(FieldError(CourseName))));
      }
      if d.startDate == "" {
        newErrors := newErrors.(startDate := Some(Message(FieldError(StartDate))));
      }
      if d.endDate == "" {
        newErrors := newErrors.(endDate := Some(Message(FieldError(EndDate))));
      }
      if Blank(d.description) {
        newErrors := newErrors.(description := Some(Message(FieldError(Description))));
      }
      if file.None? {
        newErrors := newErrors.(pdf := Some(Message(Pdf)));
      }
      if d.startDate != "" && d.endDate != "" && after(d.startDate, d.endDate) {
        newErrors := newErrors.(date := Some(Message(DateOrder)));
      }
      errors := newErrors;
      ok := newErrors == NoErrors;
    }

    /** `handleChange`: sets the named field and clears that field's error only. */
    method HandleChange(name: Field, value: string)
      modifies this`formData, this`errors
      ensures formData == Set(old(formData), name, value)
      ensures errors == WithError(old(errors), FieldError(name), "")
    {
      formData := Set(formData, name, value);
      errors := WithError(errors, FieldError(name), "");
    }

    /** `handlePDFUpload`: with a file, stores it and clears the `pdf` error; without one, does nothing. */
    method HandlePdfUpload(file: Option<PdfFile>)
      modifies this`localPdfFile, this`errors
      ensures file.None? ==> localPdfFile == old(localPdfFile) && errors == old(errors)
      ensures file.Some? ==> localPdfFile == file && errors == WithError(old(errors), Pdf, "")
    {
      if file.Some? {
        localPdfFile := file;
        errors := WithError(errors, Pdf, "");
      }
    }

    /**
     * `handleSubmit`: an invalid form hands nothing off and keeps its data;
     * a valid one hands off its file and its record stamped with the form's
     * identifier, then returns to the empty form without a file.
     */
    method HandleSubmit(after: After) returns (handoff: Option<Handoff>)
      modifies this
      ensures errors == ValidationErrors(old(formData), old(localPdfFile), after)
      ensures handoff.None? <==> errors != NoErrors
      ensures handoff.None? ==> formData == old(formData) && localPdfFile == old(localPdfFile)
      ensures handoff.Some? ==>
                && old(localPdfFile).Some?
                && handoff.value == Handoff(old(localPdfFile).value, Stamped(old(formData), uniqueId))
                && formData == InitialForm && localPdfFile == None
    {
      var ok := Validate(after);
      if !ok {
        return None;
      }
      assert errors.pdf.None?;
      var finalData := Stamped(formData, uniqueId);
      handoff := Some(Handoff(localPdfFile.value, finalData));
      formData := InitialForm;
      localPdfFile := None;
    }
  }
}
