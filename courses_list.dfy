/**
 * The title search of client/src/pages/student/CoursesList.tsx: the courses
 * listed for the route parameter `input` (absent on `/course-list`).
 */
module CoursesList {
  import opened Wrappers
  import opened JsStrings
  import opened AppContext

  /** The `filter` callback: with no (or an empty) input everything passes. */
  predicate Matches(course: Course, input: Option<string>)
  {
    input.None? || input.value == "" ||
    Includes(ToLower(course.courseTitle), ToLower(input.value))
  }

  /** `allCourses.filter(...)` (CoursesList.tsx:46-51). */
  function Search(courses: seq<Course>, input: Option<string>): (r: seq<Course>)
    ensures |r| <= |courses|
    ensures forall c :: c in r <==> c in courses && Matches(c, input)
  {
    if courses == [] then []
    else if Matches(courses[0], input) then [courses[0]] + Search(courses[1..], input)
    else Search(courses[1..], input)
  }

  /** `a` is `b` with some elements dropped and the rest in their order. */
  predicate IsSubsequence(a: seq<Course>, b: seq<Course>)
    decreases |b|
  {
    if a == [] then true
    else if b == [] then false
    else if a[0] == b[0] then IsSubsequence(a[1..], b[1..])
    else IsSubsequence(a, b[1..])
  }

  lemma {:induction false} SearchIsSubsequence(courses: seq<Course>, input: Option<string>)
    ensures IsSubsequence(Search(courses, input), courses)
  {
    if courses != [] {
      SearchIsSubsequence(courses[1..], input);
      var rest := Search(courses[1..], input);
      if Matches(courses[0], input) {
        assert ([courses[0]] + rest)[1..] == rest;
      } else {
        SubsequenceOfTail(rest, courses);
      }
    }
  }

  lemma SubsequenceOfTail(a: seq<Course>, b: seq<Course>)
    requires b != [] && IsSubsequence(a, b[1..])
    ensures IsSubsequence(a, b)
    decreases |b|, |a|
  {
    if a != [] && a[0] == b[0] {
      SubsequenceDropHead(a, b[1..]);
    }
  }

  lemma SubsequenceDropHead(a: seq<Course>, b: seq<Course>)
    requires a != [] && IsSubsequence(a, b)
    ensures IsSubsequence(a[1..], b)
    decreases |b|, |a|
  {
    if b != [] && a[0] != b[0] {
      SubsequenceDropHead(a, b[1..]);
      SubsequenceOfTail(a[1..], b);
    } else if b != [] {
      if a[1..] != [] {
        SubsequenceOfTail(a[1..], b);
      }
    }
  }

  /** No input, or an empty one, lists every course in its order. */
  lemma {:induction false} NoInputListsAll(courses: seq<Course>, input: Option<string>)
    requires input.None? || input.value == ""
    ensures Search(courses, input) == courses
  {
    if courses != [] {
      NoInputListsAll(courses[1..], input);
    }
  }

  /** Searching the result again with the same input changes nothing. */
  lemma {:induction false} SearchIdempotent(courses: seq<Course>, input: Option<string>)
    ensures Search(Search(courses, input), input) == Search(courses, input)
  {
    if courses != [] {
      SearchIdempotent(courses[1..], input);
      var rest := Search(courses[1..], input);
      if Matches(courses[0], input) {
        assert ([courses[0]] + rest)[0] == courses[0];
        assert ([courses[0]] + rest)[1..] == rest;
      }
    }
  }

  lemma ToLowerIdempotent(s: string)
    ensures ToLower(ToLower(s)) == ToLower(s)
  {
  }

  /** The search ignores the case of the input: an input and its lowercase list the same courses. */
  lemma {:induction false} SearchIgnoresInputCase(courses: seq<Course>, input: string)
    ensures Search(courses, Some(input)) == Search(courses, Some(ToLower(input)))
  {
    ToLowerIdempotent(input);
    if courses != [] {
      SearchIgnoresInputCase(courses[1..], input);
    }
  }
}
