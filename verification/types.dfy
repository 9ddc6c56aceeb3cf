/**
 * The course record shared by the course list, both forms and the
 * certificate editor (src/components/Types/Types.ts).
 */
module Types {

  datatype CourseData = CourseData(
    id: string,
    candidateName: string,
    courseName: string,
    courseId: string,
    startDate: string,
    endDate: string,
    description: string)

  /** The keys of a CourseData record: the `name` an input reports when it changes. */
  datatype Field = Id | CandidateName | CourseName | CourseId | StartDate | EndDate | Description

  /** The empty record both forms start from and return to after a submit. */
  const InitialForm: CourseData := CourseData("", "", "", "", "", "", "")

  /** `record[field]` */
  function Get(d: CourseData, f: Field): string
  {
    match f
    case Id => d.id
    case CandidateName => d.candidateName
    case CourseName => d.courseName
    case CourseId => d.courseId
    case StartDate => d.startDate
    case EndDate => d.endDate
    case Description => d.description
  }

  /** `{ ...record, [field]: value }` */
  function Set(d: CourseData, f: Field, v: string): (r: CourseData)
    ensures Get(r, f) == v
    ensures forall g :: g != f ==> Get(r, g) == Get(d, g)
  {
    match f
    case Id => d.(id := v)
    case CandidateName => d.(candidateName := v)
    case CourseName => d.(courseName := v)
    case CourseId => d.(courseId := v)
    case StartDate => d.(startDate := v)
    case EndDate => d.(endDate := v)
    case Description => d.(description := v)
  }

  /**
   * `{ ...record, id: uuid, courseId: uuid }`: the record a form hands off,
   * carrying one generated identifier as both its id and its course id.
   */
  function Stamped(d: CourseData, uuid: string): (r: CourseData)
    ensures r.id == uuid && r.courseId == uuid
    ensures forall f :: f != Id && f != CourseId ==> Get(r, f) == Get(d, f)
  {
    d.(id := uuid, courseId := uuid)
  }

  /** Stamping the same record twice with one identifier is stamping it once. */
  lemma StampedIdempotent(d: CourseData, uuid: string)
    ensures Stamped(Stamped(d, uuid), uuid) == Stamped(d, uuid)
  {
  }
}
