/**
 * The student dashboard: the avatar initials and greeting derived from the
 * profile, and the effect that loads the courses the student is enrolled
 * in. The two table queries are given as their outcomes.
 */
module StudentDashboard {
  import opened Wrappers
  import opened Types

  const LoginPath: Path := "/login"
  const Space: char := ' '

  // ---------------------------------------------------------------------
  // Initials: name.split(' ').map(word => word[0]).join('').toUpperCase().substring(0, 2)
  // ---------------------------------------------------------------------

  /**
   * `s.split(' ')`: the pieces between single spaces, including the empty
   * pieces that leading, trailing or repeated spaces produce.
   */
  function Split(s: string): (words: seq<string>)
    ensures |words| >= 1
    ensures forall i :: 0 <= i < |words| ==> Space !in words[i]
  {
    if s == [] then [""]
    else
      var rest := Split(s[1..]);
      if s[0] == Space then [""] + rest
      else [[s[0]] + rest[0]] + rest[1..]
  }

  /** `words.join(' ')` */
  function JoinWithSpaces(words: seq<string>): string {
    if words == [] then ""
    else if |words| == 1 then words[0]
    else words[0] + [Space] + JoinWithSpaces(words[1..])
  }

  /** Splitting at spaces loses nothing: joining the pieces with spaces gives the name back. */
  lemma {:induction false} SplitJoinRoundTrip(s: string)
    ensures JoinWithSpaces(Split(s)) == s
  {
    if s != [] {
      var rest := Split(s[1..]);
      SplitJoinRoundTrip(s[1..]);
      if s[0] == Space {
        assert ([""] + rest)[1..] == rest;
        assert JoinWithSpaces(Split(s)) == "" + [Space] + JoinWithSpaces(rest);
      } else if |rest| == 1 {
        assert Split(s) == [[s[0]] + rest[0]];
      } else {
        var words := Split(s);
        assert words[1..] == rest[1..];
        assert JoinWithSpaces(rest) == rest[0] + [Space] + JoinWithSpaces(rest[1..]);
        assert JoinWithSpaces(words) == [s[0]] + rest[0] + [Space] + JoinWithSpaces(rest[1..]);
      }
    }
  }

  /** `word[0]`, joined: an empty word gives `undefined`, which joins as the empty string. */
  function FirstChar(word: string): (c: string)
    ensures c == "" <==> word == ""
    ensures c != "" ==> c == [word[0]]
  {
    if word == [] then "" else [word[0]]
  }

  /** `words.map(word => word[0]).join('')` */
  function JoinFirstChars(words: seq<string>): (r: string)
    ensures |r| <= |words|
    ensures (forall i :: 0 <= i < |words| ==> words[i] == "") ==> r == ""
  {
    if words == [] then "" else FirstChar(words[0]) + JoinFirstChars(words[1..])
  }

  /**
   * Reference definition of a name's initials, independent of splitting: the
   * characters that are not spaces and stand at the start or right after a
   * space. `atWordStart` says whether the previous character was a space (or
   * there was none).
   */
  function WordStarts(s: string, atWordStart: bool): string {
    if s == [] then ""
    else (if s[0] != Space && atWordStart then [s[0]] else "") + WordStarts(s[1..], s[0] == Space)
  }

  /**
   * The first characters of the words of `s` are its word starts. The
   * case `atWordStart == false` is about all pieces but the first, which is
   * what the induction needs.
   */
  lemma {:induction false} FirstCharsAreWordStarts(s: string, atWordStart: bool)
    ensures JoinFirstChars(if atWordStart then Split(s) else Split(s)[1..]) == WordStarts(s, atWordStart)
    decreases |s|, atWordStart
  {
    if s == [] {
      assert Split(s)[1..] == [];
    } else {
      var rest := Split(s[1..]);
      if s[0] == Space {
        assert Split(s)[1..] == rest;
        FirstCharsAreWordStarts(s[1..], true);
      } else if atWordStart {
        FirstCharsAreWordStarts(s, false);
        assert Split(s)[0] == [s[0]] + rest[0];
      } else {
        assert Split(s)[1..] == rest[1..];
        FirstCharsAreWordStarts(s[1..], false);
      }
    }
  }

  /** A name made only of spaces has no word starts. */
  lemma {:induction false} AllSpacesHaveNoWordStarts(s: string, atWordStart: bool)
    requires forall i :: 0 <= i < |s| ==> s[i] == Space
    ensures WordStarts(s, atWordStart) == ""
    decreases |s|
  {
    if s != [] {
      AllSpacesHaveNoWordStarts(s[1..], true);
    }
  }

  /** `toUpperCase`, on ASCII letters. */
  function UpperChar(c: char): char {
    if 'a' <= c <= 'z' then (c as int - 32) as char else c
  }

  function ToUpper(s: string): (r: string)
    ensures |r| == |s|
    ensures forall i :: 0 <= i < |s| ==> r[i] == UpperChar(s[i])
  {
    if s == [] then "" else [UpperChar(s[0])] + ToUpper(s[1..])
  }

  function Min(a: int, b: int): int {
    if a <= b then a else b
  }

  /** `s.substring(0, n)` for `n >= 0`: the first `n` characters, or all when fewer. */
  function Take(s: string, n: nat): (r: string)
    ensures |r| == Min(n, |s|)
    ensures r == s[..|r|]
  {
    if n <= |s| then s[..n] else s
  }

  /**
   * `getInitials`: `"ST"` for a missing or empty name; otherwise the first
   * two word starts of the name, in order and upper-cased (so a name of only
   * spaces gives `""`).
   */
  function GetInitials(name: Option<string>): (r: string)
    ensures name.None? || name == Some("") ==> r == "ST"
    ensures |r| <= 2
    ensures name.Some? && name.value != "" ==>
      var starts := WordStarts(name.value, true);
      |r| == Min(2, |starts|) && forall i :: 0 <= i < |r| ==> r[i] == UpperChar(starts[i])
  {
    if name.None? || name.value == "" then "ST"
    else
      FirstCharsAreWordStarts(name.value, true);
      Take(ToUpper(JoinFirstChars(Split(name.value))), 2)
  }

  /** A non-empty name of only spaces yields no initials at all, not the fallback. */
  lemma AllSpaceNameHasEmptyInitials(s: string)
    requires s != "" && forall i :: 0 <= i < |s| ==> s[i] == Space
    ensures GetInitials(Some(s)) == ""
  {
    AllSpacesHaveNoWordStarts(s, true);
  }

  /** The empty piece between two spaces contributes nothing: `"jo  ann"` gives `"JA"`. */
  lemma RepeatedSpacesExample()
    ensures GetInitials(Some("jo  ann")) == "JA"
  {
  }

  /** The greeting name: the profile's full name when non-empty, else `"Student"`. */
  function DisplayName(appUser: Option<User>): (r: string)
    ensures r != ""
    ensures appUser.Some? && appUser.value.fullName.Some? && appUser.value.fullName.value != "" ==>
              r == appUser.value.fullName.value
    ensures appUser.None? || appUser.value.fullName.None? || appUser.value.fullName == Some("") ==>
              r == "Student"
  {
    if appUser.Some? && appUser.value.fullName.Some? && appUser.value.fullName.value != "" then
      appUser.value.fullName.value
    else "Student"
  }

  // ---------------------------------------------------------------------
  // Loading the enrolled courses
  // ---------------------------------------------------------------------

  /** What a table query returned: an error, or data (possibly `null`). */
  datatype Query<T> = QueryError | QueryData(rows: Option<seq<T>>)

  /** `enrollments.map(enroll => enroll.course_id)` */
  function CourseIds(enrollments: seq<Enrollment>): (ids: seq<string>)
    ensures |ids| == |enrollments|
    ensures forall i :: 0 <= i < |ids| ==> ids[i] == enrollments[i].courseId
  {
    if enrollments == [] then [] else [enrollments[0].courseId] + CourseIds(enrollments[1..])
  }

  /** The ids the courses query is issued with; none when it is not issued. */
  function QueriedCourseIds(enrollments: Query<Enrollment>): (ids: Option<seq<string>>)
    ensures ids.Some? <==> enrollments.QueryData? && enrollments.rows.Some? && enrollments.rows.value != []
    ensures ids.Some? ==> |ids.value| == |enrollments.rows.value| > 0
    ensures ids.Some? ==> forall i :: 0 <= i < |ids.value| ==> ids.value[i] == enrollments.rows.value[i].courseId
  {
    if enrollments.QueryData? && enrollments.rows.Some? && |enrollments.rows.value| > 0 then
      Some(CourseIds(enrollments.rows.value))
    else None
  }

  /**
   * The course list after a fetch. An enrollments error, no enrollments
   * (`null` or empty) or a courses error leave it as it was; otherwise it is
   * the courses query's data, or empty when that data is `null`.
   */
  function CoursesAfterFetch(prior: seq<Course>, enrollments: Query<Enrollment>, courses: Query<Course>): (r: seq<Course>)
    ensures QueriedCourseIds(enrollments).None? ==> r == prior
    ensures courses.QueryError? ==> r == prior
    ensures QueriedCourseIds(enrollments).Some? && courses.QueryData? ==> r == courses.rows.GetOr([])
  {
    if QueriedCourseIds(enrollments).None? then prior
    else if courses.QueryError? then prior
    else courses.rows.GetOr([])
  }

  /** The dashboard component's state: the course list and its loading flag. */
  class Dashboard {
    var courses: seq<Course>
    var loading: bool

    constructor ()
      ensures courses == [] && loading
    {
      courses, loading := [], true;
    }

    /**
     * `fetchEnrolledCourses`: the `try` block, its `catch` (which only logs)
     * and the `finally` that ends loading on every path. Returns the ids the
     * courses query was issued with.
     */
    method FetchEnrolledCourses(enrollments: Query<Enrollment>, coursesResult: Query<Course>)
      returns (queriedIds: Option<seq<string>>)
      modifies this
      ensures queriedIds == QueriedCourseIds(enrollments)
      ensures courses == CoursesAfterFetch(old(courses), enrollments, coursesResult)
      ensures !loading
    {
      queriedIds := None;
      if !enrollments.QueryError? {
        var rows := enrollments.rows;
        if rows.Some? && |rows.value| > 0 {
          var ids := CourseIds(rows.value);
          queriedIds := Some(ids);
          if !coursesResult.QueryError? {
            courses := coursesResult.rows.GetOr([]);
          }
        }
      }
      loading := false;
    }

    /**
     * The effect run when the profile changes: without a profile it
     * navigates to `/login` and leaves loading on; with a profile whose id is
     * non-empty it fetches; with an empty id it does nothing.
     */
    method OnAppUserChange(appUser: Option<User>, enrollments: Query<Enrollment>, coursesResult: Query<Course>)
      returns (navigation: Option<Path>, queriedIds: Option<seq<string>>)
      modifies this
      ensures appUser.None? ==> navigation == Some(LoginPath)
      ensures appUser.Some? ==> navigation.None?
      ensures appUser.None? || appUser.value.id == "" ==>
                queriedIds.None? && courses == old(courses) && loading == old(loading)
      ensures appUser.Some? && appUser.value.id != "" ==>
                queriedIds == QueriedCourseIds(enrollments) &&
                courses == CoursesAfterFetch(old(courses), enrollments, coursesResult) &&
                !loading
    {
      navigation, queriedIds := None, None;
      if appUser.None? {
        navigation := Some(LoginPath);
        return;
      }
      if appUser.value.id != "" {
        queriedIds := FetchEnrolledCourses(enrollments, coursesResult);
      }
    }
  }
}
