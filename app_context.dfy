/**
 * The course records the client renders (client/src/types/index.ts) and the
 * derived numbers of client/src/context/AppContext.tsx: the rating average,
 * minute totals per chapter and per course, and the lecture count.
 *
 * Durations are whole minutes here; `humanizeDuration` formatting and the
 * floating-point rounding of the average are not modelled.
 */
module AppContext {
  import opened Wrappers

  datatype Lecture = Lecture(lectureId: string, lectureTitle: string, lectureDuration: int,
                             lectureUrl: string, isPreviewFree: bool, lectureOrder: int)

  /** `chapterContent` is `None` where the record holds something other than an array. */
  datatype Chapter = Chapter(chapterId: string, chapterOrder: int, chapterTitle: string,
                             chapterContent: Option<seq<Lecture>>, collapsed: bool)

  datatype CourseRating = CourseRating(userId: string, rating: int)

  datatype Course = Course(id: string, courseTitle: string, courseContent: seq<Chapter>,
                           courseRatings: seq<CourseRating>)

  function RatingSum(rs: seq<CourseRating>): int
  {
    if rs == [] then 0 else RatingSum(rs[..|rs| - 1]) + rs[|rs| - 1].rating
  }

  /** `calculateRating`: 0 for a course nobody rated, otherwise the mean of its ratings. */
  function AverageRating(course: Course): (r: real)
    ensures course.courseRatings == [] ==> r == 0.0
    ensures course.courseRatings != [] ==> r * (|course.courseRatings| as real) == RatingSum(course.courseRatings) as real
  {
    if |course.courseRatings| == 0 then 0.0
    else RatingSum(course.courseRatings) as real / |course.courseRatings| as real
  }

  lemma {:induction false} RatingSumBounds(rs: seq<CourseRating>, lo: int, hi: int)
    requires forall i :: 0 <= i < |rs| ==> lo <= rs[i].rating <= hi
    ensures lo * |rs| <= RatingSum(rs) <= hi * |rs|
  {
    if rs != [] {
      RatingSumBounds(rs[..|rs| - 1], lo, hi);
    }
  }

  /** Ratings on a scale stay on that scale when averaged. */
  lemma AverageWithinScale(course: Course, lo: int, hi: int)
    requires course.courseRatings != [] && lo <= hi
    requires forall i :: 0 <= i < |course.courseRatings| ==> lo <= course.courseRatings[i].rating <= hi
    ensures lo as real <= AverageRating(course) <= hi as real
  {
    var rs := course.courseRatings;
    var n := |rs| as real;
    var total := RatingSum(rs) as real;
    assert lo as real * n <= total by {
      RatingSumBounds(rs, lo, hi);
      IntProductAsReal(lo, |rs|);
    }
    assert -hi as real * n <= -total by {
      RatingSumBounds(rs, lo, hi);
      IntProductAsReal(hi, |rs|);
    }
    MeanBounds(total, n, lo as real, hi as real);
  }

  lemma MeanBounds(total: real, n: real, lo: real, hi: real)
    requires n > 0.0 && lo * n <= total && -hi * n <= -total
    ensures lo <= total / n <= hi
  {
    QuotientBounds(total, n, lo);
    QuotientBounds(-total, n, -hi);
    assert -total / n == -(total / n);
  }

  lemma IntProductAsReal(a: int, b: int)
    ensures (a * b) as real == a as real * b as real
  {
  }

  lemma QuotientBounds(total: real, n: real, lo: real)
    requires n > 0.0 && lo * n <= total
    ensures lo <= total / n
  {
    var q := total / n;
    assert q * n == total;
    assert (q - lo) * n == total - lo * n;
  }

  /** The `reduce` inside `calculateChapterTime`: the sum of the lectures' durations. */
  function Minutes(lectures: seq<Lecture>): int
  {
    if lectures == [] then 0 else Minutes(lectures[..|lectures| - 1]) + lectures[|lectures| - 1].lectureDuration
  }

  lemma {:induction false} MinutesAppend(a: seq<Lecture>, b: seq<Lecture>)
    ensures Minutes(a + b) == Minutes(a) + Minutes(b)
    decreases |b|
  {
    if b == [] {
      assert a + b == a;
    } else {
      assert (a + b)[..|a + b| - 1] == a + b[..|b| - 1];
      assert (a + b)[|a + b| - 1] == b[|b| - 1];
      MinutesAppend(a, b[..|b| - 1]);
    }
  }

  /** Lectures of non-negative length add up to a non-negative total that bounds each of them. */
  lemma {:induction false} MinutesBoundsEachLecture(lectures: seq<Lecture>, k: nat)
    requires forall i :: 0 <= i < |lectures| ==> lectures[i].lectureDuration >= 0
    requires k < |lectures|
    ensures 0 <= lectures[k].lectureDuration <= Minutes(lectures)
  {
    var prefix := lectures[..|lectures| - 1];
    if k < |lectures| - 1 {
      MinutesBoundsEachLecture(prefix, k);
    }
    NonNegativeMinutes(prefix);
  }

  lemma {:induction false} NonNegativeMinutes(lectures: seq<Lecture>)
    requires forall i :: 0 <= i < |lectures| ==> lectures[i].lectureDuration >= 0
    ensures Minutes(lectures) >= 0
  {
    if lectures != [] {
      NonNegativeMinutes(lectures[..|lectures| - 1]);
    }
  }

  predicate AllArrays(chapters: seq<Chapter>)
  {
    forall i :: 0 <= i < |chapters| ==> chapters[i].chapterContent.Some?
  }

  /** `courseContent.flatMap(ch => ch.chapterContent)`, for chapters that all hold arrays. */
  function Flatten(chapters: seq<Chapter>): seq<Lecture>
    requires AllArrays(chapters)
  {
    if chapters == [] then [] else Flatten(chapters[..|chapters| - 1]) + chapters[|chapters| - 1].chapterContent.value
  }

  /** `calculateCourseDuration`'s total in minutes, over the flattened lectures. */
  function CourseMinutes(course: Course): int
    requires AllArrays(course.courseContent)
  {
    Minutes(Flatten(course.courseContent))
  }

  /** The per-chapter totals of `calculateChapterTime`, added up. */
  function SumOfChapterMinutes(chapters: seq<Chapter>): int
    requires AllArrays(chapters)
  {
    if chapters == [] then 0
    else SumOfChapterMinutes(chapters[..|chapters| - 1]) + Minutes(chapters[|chapters| - 1].chapterContent.value)
  }

  /** The course total over the flattened lectures is the sum of the chapter totals. */
  lemma {:induction false} CourseMinutesIsSumOfChapters(chapters: seq<Chapter>)
    requires AllArrays(chapters)
    ensures Minutes(Flatten(chapters)) == SumOfChapterMinutes(chapters)
  {
    if chapters != [] {
      var init := chapters[..|chapters| - 1];
      CourseMinutesIsSumOfChapters(init);
      MinutesAppend(Flatten(init), chapters[|chapters| - 1].chapterContent.value);
    }
  }

  /** What one chapter adds to `calculateNoOfLectures`: its length, or 0 for a non-array. */
  function LectureCount(ch: Chapter): nat
  {
    match ch.chapterContent
    case Some(lectures) => |lectures|
    case None => 0
  }

  /** `calculateNoOfLectures`. */
  function NoOfLectures(chapters: seq<Chapter>): nat
  {
    if chapters == [] then 0 else NoOfLectures(chapters[..|chapters| - 1]) + LectureCount(chapters[|chapters| - 1])
  }

  /** When every chapter holds an array, the lecture count is the number of lectures the duration sums over. */
  lemma {:induction false} NoOfLecturesCountsFlattened(chapters: seq<Chapter>)
    requires AllArrays(chapters)
    ensures NoOfLectures(chapters) == |Flatten(chapters)|
  {
    if chapters != [] {
      NoOfLecturesCountsFlattened(chapters[..|chapters| - 1]);
    }
  }

  /** A chapter that holds no array adds nothing to the count, wherever it sits. */
  lemma {:induction false} NonArrayChapterCountsZero(before: seq<Chapter>, ch: Chapter, after: seq<Chapter>)
    requires ch.chapterContent.None?
    ensures NoOfLectures(before + [ch] + after) == NoOfLectures(before + after)
    decreases |after|
  {
    if after == [] {
      assert (before + [ch] + after)[..|before + [ch] + after| - 1] == before;
      assert before + after == before;
    } else {
      var init := after[..|after| - 1];
      assert (before + [ch] + after)[..|before + [ch] + after| - 1] == before + [ch] + init;
      assert (before + after)[..|before + after| - 1] == before + init;
      NonArrayChapterCountsZero(before, ch, init);
    }
  }
}
