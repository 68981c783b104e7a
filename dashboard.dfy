/** The dashboard (src/components/dashboard/Dashboard.tsx): counts of
    courses and lessons and the first few of each, fetched one after the
    other when the page opens. */
module Dashboard {
  import opened Http
  import opened Messages
  import CourseService
  import LessonService

  /** How many rows each recent list shows. */
  const RecentCount := 5

  datatype Stats = Stats(
    courses: nat,
    lessons: nat,
    recentCourses: seq<CourseService.Course>,
    recentLessons: seq<LessonService.Lesson>)

  const InitialStats := Stats(0, 0, [], [])

  /** `xs.slice(0, n)` */
  function Slice<T>(xs: seq<T>, n: nat): (r: seq<T>)
    ensures |r| == if |xs| < n then |xs| else n
    ensures forall i :: 0 <= i < |r| ==> r[i] == xs[i]
  {
    if |xs| <= n then xs else xs[..n]
  }

  /** The stats built from the fetched rows. */
  function StatsOf(courses: seq<CourseService.Course>, lessons: seq<LessonService.Lesson>): (s: Stats)
    ensures s.courses == |courses| && s.lessons == |lessons|
    ensures |s.recentCourses| <= RecentCount && |s.recentLessons| <= RecentCount
    ensures |s.recentCourses| == (if |courses| < RecentCount then |courses| else RecentCount)
    ensures |s.recentLessons| == (if |lessons| < RecentCount then |lessons| else RecentCount)
    ensures s.recentCourses <= courses && s.recentLessons <= lessons
  {
    var rc := Slice(courses, RecentCount);
    var rl := Slice(lessons, RecentCount);
    assert rc == courses[..|rc|];
    assert rl == lessons[..|rl|];
    Stats(|courses|, |lessons|, rc, rl)
  }

  class DashboardScreen {
    var stats: Stats
    var isLoading: bool
    var error: Option<string>
    var requests: seq<Request>

    constructor ()
      ensures stats == InitialStats && isLoading && error == None && requests == []
    {
      stats := Stats(0, 0, [], []);
      isLoading := true;
      error := None;
      requests := [];
    }

    /** `fetchData`: courses first, then lessons only if the courses came
        back; the stats change only when both did, and a failure shows the
        failing call's message (or the fallback, were it empty). */
    method FetchData(coursesReply: Reply<seq<CourseService.Course>>, lessonsReply: Reply<seq<LessonService.Lesson>>)
      modifies this
      ensures coursesReply.Fail? ==>
                && requests == old(requests) + [CourseService.RequestFor(CourseService.ListAll)]
                && stats == old(stats)
                && error == Some(MessageOr(Error(CoursesLoadFailed), DashboardFallback))
      ensures coursesReply.Ok? ==>
                requests == old(requests) + [CourseService.RequestFor(CourseService.ListAll),
                                             LessonService.RequestFor(LessonService.ListAll)]
      ensures coursesReply.Ok? && lessonsReply.Fail? ==>
                stats == old(stats) && error == Some(MessageOr(Error(LessonsLoadFailed), DashboardFallback))
      ensures coursesReply.Ok? && lessonsReply.Ok? ==>
                stats == StatsOf(coursesReply.value, lessonsReply.value) && error == None
      ensures !isLoading
    {
      isLoading := true;
      error := None;
      requests := requests + [CourseService.RequestFor(CourseService.ListAll)];
      var courses := CourseService.Outcome(CourseService.ListAll, coursesReply);
      if courses.Failure? {
        error := Some(MessageOr(courses.error, DashboardFallback));
        isLoading := false;
        return;
      }
      requests := requests + [LessonService.RequestFor(LessonService.ListAll)];
      var lessons := LessonService.Outcome(LessonService.ListAll, lessonsReply);
      if lessons.Failure? {
        error := Some(MessageOr(lessons.error, DashboardFallback));
        isLoading := false;
        return;
      }
      stats := StatsOf(courses.value, lessons.value);
      isLoading := false;
    }
  }

  /** A failed fetch always shows the service's own message: the services
      never fail with an empty one, so the fallback is never displayed. */
  lemma FailureShowsServiceMessage()
    ensures MessageOr(Error(CoursesLoadFailed), DashboardFallback) == CoursesLoadFailed
    ensures MessageOr(Error(LessonsLoadFailed), DashboardFallback) == LessonsLoadFailed
  {
  }

  /** The recent lists are the leading rows, in order, and hold every row
      when there are at most five. */
  lemma RecentAreLeadingRows(courses: seq<CourseService.Course>, lessons: seq<LessonService.Lesson>)
    ensures StatsOf(courses, lessons).recentCourses == courses[..|StatsOf(courses, lessons).recentCourses|]
    ensures |courses| <= RecentCount ==> StatsOf(courses, lessons).recentCourses == courses
    ensures |lessons| <= RecentCount ==> StatsOf(courses, lessons).recentLessons == lessons
  {
  }
}
