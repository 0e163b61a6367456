/**
 * The logic of the course player page, client/src/pages/student/Player.tsx:
 * the YouTube id taken from a lecture URL, the map of open chapter sections,
 * the course and rating picked out of the enrolled courses, the completed
 * test and the lecture chosen with "Watch".
 *
 * The page's React state is the class `PlayerPage`; each handler is a method
 * proved against a function of the state before it. Fetching progress,
 * rating over the network, toasts and rendering are not modelled.
 */
module Player {
  import opened Wrappers
  import opened JsStrings
  import opened AppContext

  // ---- extractYoutubeId -------------------------------------------------

  const WATCH_PREFIX: string := "youtube.com/watch?v="
  const EMBED_PREFIX: string := "youtube.com/embed/"
  const SHORT_PREFIX: string := "youtu.be/"

  /** The characters the capture group `[^&?/]+` does not take. */
  predicate IsStop(c: char)
  {
    c == '&' || c == '?' || c == '/'
  }

  /** Alternative `p` matches at `j` and at least one id character follows it. */
  predicate Viable(url: string, p: string, j: nat)
  {
    MatchAt(url, p, j) && j + |p| < |url| && !IsStop(url[j + |p|])
  }

  /**
   * The three prefixes exclude one another: they differ at index 5 ('b' or '.')
   * and, for the two youtube.com ones, at index 12 ('w' or 'e'). So at most one
   * of them matches at any index, and the written order of the alternatives
   * decides nothing.
   */
  lemma PrefixesExclusive(url: string, j: nat)
    ensures !(MatchAt(url, WATCH_PREFIX, j) && MatchAt(url, EMBED_PREFIX, j))
    ensures !(MatchAt(url, WATCH_PREFIX, j) && MatchAt(url, SHORT_PREFIX, j))
    ensures !(MatchAt(url, EMBED_PREFIX, j) && MatchAt(url, SHORT_PREFIX, j))
  {
    CharOfMatch(url, WATCH_PREFIX, j, 5);
    CharOfMatch(url, WATCH_PREFIX, j, 12);
    CharOfMatch(url, EMBED_PREFIX, j, 5);
    CharOfMatch(url, EMBED_PREFIX, j, 12);
    CharOfMatch(url, SHORT_PREFIX, j, 5);
  }

  /**
   * Where the capture group starts when the regular expression is tried at
   * index `j`: the alternatives in their written order, the first that can
   * go on to take one id character.
   */
  function GroupStart(url: string, j: nat): (r: Option<nat>)
    ensures r.Some? ==> j < r.value < |url| && !IsStop(url[r.value])
  {
    if Viable(url, WATCH_PREFIX, j) then Some(j + |WATCH_PREFIX|)
    else if Viable(url, EMBED_PREFIX, j) then Some(j + |EMBED_PREFIX|)
    else if Viable(url, SHORT_PREFIX, j) then Some(j + |SHORT_PREFIX|)
    else None
  }

  /**
   * The expression matches at `j` exactly when one of the three prefixes occurs
   * there followed by an id character, and the group then starts right after
   * that prefix, whichever of the three it is.
   */
  lemma GroupStartMatchesPrefix(url: string, j: nat)
    ensures Viable(url, WATCH_PREFIX, j) ==> GroupStart(url, j) == Some(j + |WATCH_PREFIX|)
    ensures Viable(url, EMBED_PREFIX, j) ==> GroupStart(url, j) == Some(j + |EMBED_PREFIX|)
    ensures Viable(url, SHORT_PREFIX, j) ==> GroupStart(url, j) == Some(j + |SHORT_PREFIX|)
    ensures GroupStart(url, j).None? <==>
              !Viable(url, WATCH_PREFIX, j) && !Viable(url, EMBED_PREFIX, j) && !Viable(url, SHORT_PREFIX, j)
  {
    PrefixesExclusive(url, j);
  }

  /** The leftmost index at or after `j` where the expression matches. */
  function FirstMatch(url: string, j: nat): (r: Option<nat>)
    requires j <= |url|
    decreases |url| - j
    ensures r.Some? ==> j <= r.value <= |url| && GroupStart(url, r.value).Some?
    ensures r.Some? ==> forall i :: j <= i < r.value ==> GroupStart(url, i).None?
    ensures r.None? ==> forall i :: j <= i <= |url| ==> GroupStart(url, i).None?
  {
    if GroupStart(url, j).Some? then Some(j)
    else if j == |url| then None
    else FirstMatch(url, j + 1)
  }

  /** The end of the greedy run of id characters that starts at `i`. */
  function RunEnd(url: string, i: nat): (e: nat)
    requires i <= |url|
    decreases |url| - i
    ensures i <= e <= |url|
    ensures forall k :: i <= k < e ==> !IsStop(url[k])
    ensures e == |url| || IsStop(url[e])
  {
    if i == |url| || IsStop(url[i]) then i else RunEnd(url, i + 1)
  }

  /**
   * `extractYoutubeId` (Player.tsx:118-126): the capture group of the leftmost
   * match, or "" when the URL does not match. The id is never empty when there
   * is a match, holds no '&', '?' or '/', and runs up to the next one of those
   * or to the end of the URL.
   */
  function ExtractYoutubeId(url: string): (r: string)
    ensures r == "" <==> forall j :: 0 <= j <= |url| ==> GroupStart(url, j).None?
    ensures forall k :: 0 <= k < |r| ==> !IsStop(r[k])
    ensures r != "" ==> Includes(url, r)
  {
    match FirstMatch(url, 0)
    case None => ""
    case Some(m) =>
      var s := GroupStart(url, m).value;
      var e := RunEnd(url, s);
      assert url == url[..s] + url[s..e] + url[e..];
      IncludesMiddle(url[..s], url[s..e], url[e..]);
      url[s..e]
  }

  /** The prefixes the expression accepts. */
  predicate IsYoutubePrefix(p: string)
  {
    p == WATCH_PREFIX || p == EMBED_PREFIX || p == SHORT_PREFIX
  }

  /** An id that can be read back: not empty, and none of '&', '?', '/'. */
  predicate IsVideoId(id: string)
  {
    id != "" && forall k :: 0 <= k < |id| ==> !IsStop(id[k])
  }

  /** Where `pat` matches, the text holds each of its characters. */
  lemma CharOfMatch(s: string, pat: string, j: nat, k: nat)
    requires k < |pat|
    ensures MatchAt(s, pat, j) ==> j + k < |s| && s[j + k] == pat[k]
  {
    if j + |pat| <= |s| {
      assert s[j..j + |pat|][k] == s[j + k];
    }
  }

  /** Every prefix begins with 'y', so no match starts where there is no 'y'. */
  lemma NoMatchWithoutY(url: string, j: nat)
    requires j < |url| && url[j] != 'y'
    ensures GroupStart(url, j).None?
  {
    CharOfMatch(url, WATCH_PREFIX, j, 0);
    CharOfMatch(url, EMBED_PREFIX, j, 0);
    CharOfMatch(url, SHORT_PREFIX, j, 0);
  }

  /** At the position of a prefix followed by an id, the group starts right after that prefix. */
  lemma GroupAfterPrefix(url: string, p: string, j: nat)
    requires IsYoutubePrefix(p) && Viable(url, p, j)
    ensures GroupStart(url, j) == Some(j + |p|)
  {
    GroupStartMatchesPrefix(url, j);
  }

  /** The search returns the first index where the expression matches. */
  lemma {:induction false} FirstMatchFinds(url: string, i: nat, j: nat)
    requires i <= j <= |url| && GroupStart(url, j).Some?
    requires forall k :: i <= k < j ==> GroupStart(url, k).None?
    ensures FirstMatch(url, i) == Some(j)
    decreases j - i
  {
    if i < j {
      FirstMatchFinds(url, i + 1, j);
    }
  }

  /**
   * Round trip: an id written after one of the three prefixes, followed by
   * nothing or by a query or path, is the id read back, whatever comes before
   * the prefix as long as the expression does not match there already. Every
   * URL the expression matches splits this way at its leftmost match, so
   * together with the "" case of `ExtractYoutubeId` this determines the result.
   */
  lemma ExtractsWrittenId(host: string, p: string, id: string, rest: string)
    requires IsYoutubePrefix(p) && IsVideoId(id)
    requires forall i :: 0 <= i < |host| ==> GroupStart(host + p + id + rest, i).None?
    requires rest == "" || IsStop(rest[0])
    ensures ExtractYoutubeId(host + p + id + rest) == id
  {
    var url := host + p + id + rest;
    var j := |host|;
    assert url[j..j + |p|] == p;
    assert url[j + |p|] == id[0];
    GroupAfterPrefix(url, p, j);
    FirstMatchFinds(url, 0, j);
    var s := j + |p|;
    forall k | s <= k < s + |id|
      ensures !IsStop(url[k])
    {
      assert url[k] == id[k - s];
    }
    RunStops(url, s, s + |id|);
    assert url[s..s + |id|] == id;
  }

  /**
   * The usual case: behind a scheme and host without a 'y' (such as
   * "https://www."), the expression cannot match before the prefix.
   */
  lemma ExtractsIdAfterPlainHost(host: string, p: string, id: string, rest: string)
    requires 'y' !in host && IsYoutubePrefix(p) && IsVideoId(id)
    requires rest == "" || IsStop(rest[0])
    ensures ExtractYoutubeId(host + p + id + rest) == id
  {
    var url := host + p + id + rest;
    forall i | 0 <= i < |host|
      ensures GroupStart(url, i).None?
    {
      assert url[i] == host[i];
      NoMatchWithoutY(url, i);
    }
    ExtractsWrittenId(host, p, id, rest);
  }

  /** A run with no stop character up to `e`, where a stop or the end follows, ends at `e`. */
  lemma {:induction false} RunStops(url: string, i: nat, e: nat)
    requires i <= e <= |url|
    requires forall k :: i <= k < e ==> !IsStop(url[k])
    requires e == |url| || IsStop(url[e])
    ensures RunEnd(url, i) == e
    decreases e - i
  {
    if i < e {
      RunStops(url, i + 1, e);
    }
  }

  // ---- toggleSection ------------------------------------------------------

  /** `openSections[index]`, with a missing entry read as false. */
  predicate IsOpen(sections: map<int, bool>, index: int)
  {
    index in sections && sections[index]
  }

  /** `{ ...prev, [index]: !prev[index] }` (Player.tsx:55-57). */
  function Toggled(sections: map<int, bool>, index: int): (r: map<int, bool>)
    ensures IsOpen(r, index) == !IsOpen(sections, index)
    ensures r.Keys == sections.Keys + {index}
    ensures forall k :: k in sections && k != index ==> r[k] == sections[k]
  {
    sections[index := !IsOpen(sections, index)]
  }

  /** Toggling the same section twice leaves every section as open or closed as it was. */
  lemma ToggleTwice(sections: map<int, bool>, index: int, k: int)
    ensures IsOpen(Toggled(Toggled(sections, index), index), k) == IsOpen(sections, k)
  {
  }

  /** Toggling two different sections commutes. */
  lemma ToggleCommutes(sections: map<int, bool>, a: int, b: int)
    requires a != b
    ensures Toggled(Toggled(sections, a), b) == Toggled(Toggled(sections, b), a)
  {
  }

  // ---- getCourseData ------------------------------------------------------

  /** The rating left by the last `courseRatings` entry of `userId`, or `prev` when it left none. */
  function LastRating(ratings: seq<CourseRating>, userId: string, prev: int): (r: int)
  {
    if ratings == [] then prev
    else if ratings[|ratings| - 1].userId == userId then ratings[|ratings| - 1].rating
    else LastRating(ratings[..|ratings| - 1], userId, prev)
  }

  /** With no entry of the user the rating stays. */
  lemma {:induction false} UnratedKeepsRating(ratings: seq<CourseRating>, userId: string, prev: int)
    requires forall i :: 0 <= i < |ratings| ==> ratings[i].userId != userId
    ensures LastRating(ratings, userId, prev) == prev
  {
    if ratings != [] {
      UnratedKeepsRating(ratings[..|ratings| - 1], userId, prev);
    }
  }

  /** The user's last entry wins, whatever came before it. */
  lemma {:induction false} LastEntryWins(ratings: seq<CourseRating>, userId: string, prev: int, k: nat)
    requires k < |ratings| && ratings[k].userId == userId
    requires forall i :: k < i < |ratings| ==> ratings[i].userId != userId
    ensures LastRating(ratings, userId, prev) == ratings[k].rating
  {
    if k < |ratings| - 1 {
      var init := ratings[..|ratings| - 1];
      assert init[k] == ratings[k];
      LastEntryWins(init, userId, prev, k);
    }
  }

  /** `courseData` after the `map` over the enrolled courses: the last one whose id matches. */
  function CourseAfter(courses: seq<Course>, courseId: string, prev: Option<Course>): Option<Course>
  {
    if courses == [] then prev
    else if courses[|courses| - 1].id == courseId then Some(courses[|courses| - 1])
    else CourseAfter(courses[..|courses| - 1], courseId, prev)
  }

  /**
   * `initialRating` after the same `map`: each matching course, in order, lets
   * the signed-in user's entries overwrite it; with nobody signed in it stays.
   */
  function RatingAfter(courses: seq<Course>, courseId: string, user: Option<string>, prev: int): int
  {
    if courses == [] then prev
    else
      var before := RatingAfter(courses[..|courses| - 1], courseId, user, prev);
      var c := courses[|courses| - 1];
      if c.id == courseId && user.Some? then LastRating(c.courseRatings, user.value, before) else before
  }

  /** With no enrolled course of the id asked for, the course shown stays. */
  lemma {:induction false} CourseAfterKeeps(courses: seq<Course>, courseId: string, prev: Option<Course>)
    requires forall i :: 0 <= i < |courses| ==> courses[i].id != courseId
    ensures CourseAfter(courses, courseId, prev) == prev
  {
    if courses != [] {
      CourseAfterKeeps(courses[..|courses| - 1], courseId, prev);
    }
  }

  /** The last enrolled course of the id asked for is the one shown. */
  lemma {:induction false} CourseAfterFinds(courses: seq<Course>, courseId: string, prev: Option<Course>, k: nat)
    requires k < |courses| && courses[k].id == courseId
    requires forall i :: k < i < |courses| ==> courses[i].id != courseId
    ensures CourseAfter(courses, courseId, prev) == Some(courses[k])
  {
    if k < |courses| - 1 {
      var init := courses[..|courses| - 1];
      assert init[k] == courses[k];
      CourseAfterFinds(init, courseId, prev, k);
    }
  }

  /** Courses other than the one asked for leave the rating alone. */
  lemma {:induction false} RatingAfterSkips(courses: seq<Course>, courseId: string, user: Option<string>, prev: int)
    requires forall i :: 0 <= i < |courses| ==> courses[i].id != courseId
    ensures RatingAfter(courses, courseId, user, prev) == prev
  {
    if courses != [] {
      RatingAfterSkips(courses[..|courses| - 1], courseId, user, prev);
    }
  }

  /**
   * With one enrolled course of the id asked for, the initial rating is the
   * signed-in user's last rating of that course, and the earlier value when
   * that user has not rated it.
   */
  lemma {:induction false} RatingOfTheCourse(before: seq<Course>, c: Course, after: seq<Course>,
                                             userId: string, prev: int)
    requires forall i :: 0 <= i < |before| ==> before[i].id != c.id
    requires forall i :: 0 <= i < |after| ==> after[i].id != c.id
    ensures RatingAfter(before + [c] + after, c.id, Some(userId), prev) == LastRating(c.courseRatings, userId, prev)
    decreases |after|
  {
    var all := before + [c] + after;
    if after == [] {
      assert all[..|all| - 1] == before;
      RatingAfterSkips(before, c.id, Some(userId), prev);
    } else {
      var init := after[..|after| - 1];
      assert all[..|all| - 1] == before + [c] + init;
      assert all[|all| - 1] == after[|after| - 1];
      RatingOfTheCourse(before, c, init, userId, prev);
    }
  }

  // ---- the lecture list and the player --------------------------------------

  /** `progressData && progressData.lectureCompleted.includes(lectureId)`. */
  predicate IsCompleted(progress: Option<seq<string>>, lectureId: string)
  {
    progress.Some? && lectureId in progress.value
  }

  /** The player's button label (Player.tsx:242-245). */
  function CompletionLabel(progress: Option<seq<string>>, lectureId: string): (text: string)
    ensures text == "Completed" <==> IsCompleted(progress, lectureId)
    ensures text == "Completed" || text == "Mark Complete"
  {
    if IsCompleted(progress, lectureId) then "Completed" else "Mark Complete"
  }

  /** The icon before a lecture in the chapter list (Player.tsx:177-183): a tick exactly for the completed ones. */
  datatype LectureIcon = BlueTick | PlayIcon

  function IconFor(progress: Option<seq<string>>, lectureId: string): (icon: LectureIcon)
    ensures icon == BlueTick <==> CompletionLabel(progress, lectureId) == "Completed"
  {
    if IsCompleted(progress, lectureId) then BlueTick else PlayIcon
  }

  /** A lecture with its chapter's 1-based position; `lectureOrder` is overwritten with the lecture's 1-based position. */
  datatype PlayerData = PlayerData(lecture: Lecture, chapter: int)

  /** `{ ...lecture, chapter: index + 1, lectureOrder: i + 1 }` (Player.tsx:194-198). */
  function Selection(lecture: Lecture, index: nat, i: nat): (d: PlayerData)
    ensures d.chapter >= 1 && d.lecture.lectureOrder >= 1
    ensures d.chapter - 1 == index && d.lecture.lectureOrder - 1 == i
    ensures d.lecture.lectureId == lecture.lectureId && d.lecture.lectureUrl == lecture.lectureUrl
    ensures d.lecture.lectureTitle == lecture.lectureTitle && d.lecture.lectureDuration == lecture.lectureDuration
    ensures d.lecture.isPreviewFree == lecture.isPreviewFree
  {
    PlayerData(lecture.(lectureOrder := i + 1), index + 1)
  }

  /** Different places in the chapter list give different selections. */
  lemma SelectionsDistinguishPlaces(a: Lecture, b: Lecture, index1: nat, i1: nat, index2: nat, i2: nat)
    requires (index1, i1) != (index2, i2)
    ensures Selection(a, index1, i1) != Selection(b, index2, i2)
  {
  }

  /** The page state of `Player`. */
  class PlayerPage {
    var courseData: Option<Course>
    var initialRating: int
    var openSections: map<int, bool>
    var playerData: Option<PlayerData>

    constructor ()
      ensures courseData == None && initialRating == 0 && openSections == map[] && playerData == None
    {
      courseData := None;
      initialRating := 0;
      openSections := map[];
      playerData := None;
    }

    /** `getCourseData` (Player.tsx:41-53): one state write per matching course and per rating of the user. */
    method GetCourseData(enrolledCourses: seq<Course>, courseId: string, user: Option<string>)
      modifies this`courseData, this`initialRating
      ensures courseData == CourseAfter(enrolledCourses, courseId, old(courseData))
      ensures initialRating == RatingAfter(enrolledCourses, courseId, user, old(initialRating))
    {
      var n := 0;
      while n < |enrolledCourses|
        invariant 0 <= n <= |enrolledCourses|
        invariant courseData == CourseAfter(enrolledCourses[..n], courseId, old(courseData))
        invariant initialRating == RatingAfter(enrolledCourses[..n], courseId, user, old(initialRating))
      {
        var course := enrolledCourses[n];
        assert enrolledCourses[..n + 1][..n] == enrolledCourses[..n];
        assert enrolledCourses[..n + 1][n] == course;
        if course.id == courseId {
          courseData := Some(course);
          if user.Some? {
            ghost var before := initialRating;
            var ratings := course.courseRatings;
            var m := 0;
            while m < |ratings|
              invariant 0 <= m <= |ratings|
              invariant initialRating == LastRating(ratings[..m], user.value, before)
              invariant courseData == Some(course)
            {
              assert ratings[..m + 1][..m] == ratings[..m];
              if ratings[m].userId == user.value {
                initialRating := ratings[m].rating;
              }
              m := m + 1;
            }
            assert ratings[..m] == ratings;
          }
        }
        n := n + 1;
      }
      assert enrolledCourses[..n] == enrolledCourses;
    }

    /** `toggleSection` (Player.tsx:55-57). */
    method ToggleSection(index: int)
      modifies this`openSections
      ensures openSections == Toggled(old(openSections), index)
    {
      var now := index in openSections && openSections[index];
      openSections := openSections[index := !now];
    }

    /** The "Watch" link, offered only for a lecture with a URL (Player.tsx:191-199). */
    method Watch(lecture: Lecture, index: nat, i: nat)
      requires lecture.lectureUrl != ""
      modifies this`playerData
      ensures playerData == Some(Selection(lecture, index, i))
    {
      var lectureData := lecture.(lectureOrder := i + 1);
      playerData := Some(PlayerData(lectureData, index + 1));
    }

    /** The id handed to the YouTube player: `extractYoutubeId(playerData?.lectureUrl || "")`. */
    function VideoId(): (id: string)
      reads this
      ensures playerData.None? ==> id == ""
      ensures forall k :: 0 <= k < |id| ==> !IsStop(id[k])
    {
      ExtractYoutubeId(if playerData.Some? then playerData.value.lecture.lectureUrl else "")
    }
  }
}
