/**
 * The course create/edit form (src/components/CourseForm/CourseForm.tsx):
 * it edits one record, validates it, and either updates the matching
 * entries of the course list (edit mode) or appends a new record.
 */
module CourseForm {
  import opened Wrappers
  import opened Types
  import opened FormRules
  import opened CourseContext

  /**
   * The form data after the mount effect: the record being edited, or else
   * the previous data stamped with the form's generated identifier.
   */
  function Initialised(editData: Option<CourseData>, prev: CourseData, uuid: string): (r: CourseData)
    ensures editData.Some? ==> r == editData.value
    ensures editData.None? ==> r.id == uuid && r.courseId == uuid
    ensures editData.None? ==> forall f :: f != Id && f != CourseId ==> Get(r, f) == Get(prev, f)
  {
    if editData.Some? then editData.value else Stamped(prev, uuid)
  }

  /** A new form starts out empty except for its two identifiers, which are the same generated value. */
  lemma NewFormCarriesOnlyIds(uuid: string, f: Field)
    ensures f != Id && f != CourseId ==> Get(Initialised(None, InitialForm, uuid), f) == ""
    ensures Get(Initialised(None, InitialForm, uuid), Id) == Get(Initialised(None, InitialForm, uuid), CourseId) == uuid
  {
  }

  /** The form's component state. */
  class Form {
    var formData: CourseData
    var errors: ErrorState
    /** The `editData` prop: the record being edited, if any. */
    var editData: Option<CourseData>
    /** `idRef`: generated once when the form mounts. */
    const idRef: string

    /** Mounting: `useState(initialForm)` followed by the effect on `editData`. */
    constructor (editData: Option<CourseData>, uuid: string)
      ensures this.editData == editData && idRef == uuid && errors == NoErrors
      ensures formData == Initialised(editData, InitialForm, uuid)
    {
      this.editData := editData;
      idRef := uuid;
      errors := NoErrors;
      formData := Initialised(editData, InitialForm, uuid);
    }

    /** The effect re-running because a different `editData` arrived. */
    method EditDataChanged(newEditData: Option<CourseData>)
      modifies this`editData, this`formData
      ensures editData == newEditData
      ensures formData == Initialised(newEditData, old(formData), idRef)
    {
      editData := newEditData;
      formData := Initialised(newEditData, formData, idRef);
    }

    /** `validate`: records every failed rule in `errors` and reports whether there were none. */
    method Validate(after: After) returns (ok: bool)
      modifies this`errors
      ensures errors == RecordErrors(formData, after)
      ensures ok <==> errors == NoErrors
    {
      var d := formData;
      var newErrors := NoErrors;
      if Blank(d.candidateName) {
        newErrors := newErrors.(candidateName := Some(Message(FieldError(CandidateName))));
      }
      if Blank(d.courseName) {
        newErrors := newErrors.(courseName := Some(Message(FieldError(CourseName))));
      }
      if d.startDate == "" {
        newErrors := newErrors.(startDate := Some(Message(FieldError(StartDate))));
      }
      if d.endDate == "" {
        newErrors := newErrors.(endDate := Some(Message(FieldError(EndDate))));
      }
      if Blank(d.description) {
        newErrors := newErrors.(description := Some(Message(FieldError(Description))));
      }
      if d.startDate != "" && d.endDate != "" && after(d.startDate, d.endDate) {
        newErrors := newErrors.(date := Some(Message(DateOrder)));
      }
      errors := newErrors;
      ok := newErrors == NoErrors;  // no key was set
    }

    /** `handleChange`: sets the named field and clears that field's error only. */
    method HandleChange(name: Field, value: string)
      modifies this`formData, this`errors
      ensures formData == Set(old(formData), name, value)
      ensures errors == WithError(old(errors), FieldError(name), "")
    {
      formData := Set(formData, name, value);
      errors := WithError(errors, FieldError(name), "");
    }

    /**
     * `handleSubmit`: an invalid form changes neither the list nor its data.
     * A valid one, in edit mode, replaces every entry with its record's id by
     * its record; otherwise it appends its record stamped with the form's
     * identifier. Either way the form then returns to the empty record.
     */
    method HandleSubmit(courses: CourseProvider, after: After) returns (ok: bool)
      modifies this, courses
      ensures editData == old(editData)
      ensures errors == RecordErrors(old(formData), after)
      ensures ok <==> errors == NoErrors
      ensures !ok ==> formData == old(formData) && courses.courses == old(courses.courses)
      ensures ok ==> formData == InitialForm
      ensures ok && old(editData).Some? ==> courses.courses == Replaced(old(courses.courses), old(formData))
      ensures ok && old(editData).None? ==>
                courses.courses == old(courses.courses) + [Stamped(old(formData), idRef)]
    {
      ok := Validate(after);
      if !ok {
        return;
      }
      if editData.Some? {
        courses.UpdateCourse(formData);
      } else {
        courses.AddCourse(Stamped(formData, idRef));
      }
      formData := InitialForm;
    }
  }
}
