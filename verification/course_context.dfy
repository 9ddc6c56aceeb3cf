/**
 * The course list store (src/contexts/CourseContext.tsx): a provider that
 * owns the `courses` list and replaces it wholesale on add, delete-by-index
 * and update-by-id.
 */
module CourseContext {
  import opened Types

  /**
   * `prev.filter((_, i) => i !== index)` on the tail of a list whose first
   * element sits at position `offset`.
   */
  function KeepOtherPositions(s: seq<CourseData>, index: int, offset: int): (r: seq<CourseData>)
    ensures offset <= index < offset + |s| ==> r == s[..index - offset] + s[index - offset + 1..]
    ensures !(offset <= index < offset + |s|) ==> r == s
    decreases |s|
  {
    if s == [] then []
    else (if offset != index then [s[0]] else []) + KeepOtherPositions(s[1..], index, offset + 1)
  }

  /**
   * The list after `deleteCourse(index)`: the entry at `index` is gone and
   * the others keep their order; an index outside the list removes nothing.
   */
  function WithoutIndex(s: seq<CourseData>, index: int): (r: seq<CourseData>)
    ensures 0 <= index < |s| ==> |r| == |s| - 1
    ensures 0 <= index < |s| ==> r == s[..index] + s[index + 1..]
    ensures !(0 <= index < |s|) ==> r == s
  {
    KeepOtherPositions(s, index, 0)
  }

  /** The entries that survive a delete are, in order, the ones before and after it. */
  lemma WithoutIndexAt(s: seq<CourseData>, index: int, k: int)
    requires 0 <= index < |s| && 0 <= k < |s| - 1
    ensures WithoutIndex(s, index)[k] == if k < index then s[k] else s[k + 1]
  {
  }

  /**
   * `prev.map(c => c.id === u.id ? u : c)`: every entry with u's id becomes u,
   * every other entry stays where it is.
   */
  function Replaced(s: seq<CourseData>, u: CourseData): (r: seq<CourseData>)
    ensures |r| == |s|
    ensures forall i :: 0 <= i < |s| && s[i].id == u.id ==> r[i] == u
    ensures forall i :: 0 <= i < |s| && s[i].id != u.id ==> r[i] == s[i]
  {
    if s == [] then []
    else [if s[0].id == u.id then u else s[0]] + Replaced(s[1..], u)
  }

  /** An update never changes which id sits at which position. */
  lemma ReplacedKeepsIds(s: seq<CourseData>, u: CourseData)
    ensures forall i :: 0 <= i < |s| ==> Replaced(s, u)[i].id == s[i].id
  {
  }

  /** An update whose id matches no entry leaves the list as it was. */
  lemma ReplacedNoMatch(s: seq<CourseData>, u: CourseData)
    requires forall i :: 0 <= i < |s| ==> s[i].id != u.id
    ensures Replaced(s, u) == s
  {
  }

  /** Applying the same update twice is applying it once. */
  lemma ReplacedIdempotent(s: seq<CourseData>, u: CourseData)
    ensures Replaced(Replaced(s, u), u) == Replaced(s, u)
  {
    var r := Replaced(s, u);
    assert forall i :: 0 <= i < |r| ==> Replaced(r, u)[i] == r[i];
  }

  /** The provider's state: the `courses` list. */
  class CourseProvider {
    var courses: seq<CourseData>

    /** `useState<CourseData[]>([])` */
    constructor ()
      ensures courses == []
    {
      courses := [];
    }

    /** `addCourse`: appends the record at the end. */
    method AddCourse(course: CourseData)
      modifies this
      ensures courses == old(courses) + [course]
      ensures |courses| == |old(courses)| + 1 && courses[..|old(courses)|] == old(courses)
    {
      courses := courses + [course];
    }

    /** `deleteCourse`: drops the entry at `index`, if there is one. */
    method DeleteCourse(index: int)
      modifies this
      ensures courses == WithoutIndex(old(courses), index)
    {
      courses := WithoutIndex(courses, index);
    }

    /** `updateCourse`: replaces every entry that carries the updated record's id. */
    method UpdateCourse(updated: CourseData)
      modifies this
      ensures courses == Replaced(old(courses), updated)
    {
      courses := Replaced(courses, updated);
    }
  }
}
