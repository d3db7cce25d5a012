/** The course player: loading the course, choosing a lesson, marking it complete, the notes box, the
    module label and the YouTube embed address. */
module CoursePlayer {
  import opened Wrappers
  import Lists
  import Text
  import Courses

  const WatchMarker := "youtube.com/watch?v="
  const EmbedPrefix := "https://www.youtube.com/embed/"

  /** A watch-page marker always holds the `v=` parameter. */
  lemma MarkerHasParam(url: string)
    requires Text.Contains(url, WatchMarker)
    ensures Text.Contains(url, "v=")
  {
    var p := Text.IndexOf(url, WatchMarker).value;
    assert url[p..p + 20] == WatchMarker;
    assert url[p + 18..p + 20] == url[p..p + 20][18..20];
    assert WatchMarker[18..20] == "v=";
    assert Text.OccursAt(url, "v=", p + 18);
  }

  /** `rest.split("v=")[0].split("&")[0]`: the id at the start of the text after `v=`. It holds neither
      `&` nor `v=`, and it ends at the end of the text, at an `&` or at a `v=`. */
  function IdAtStart(rest: string): (id: string)
    ensures |id| <= |rest| && id == rest[..|id|]
    ensures !Text.Contains(id, "&") && !Text.Contains(id, "v=")
    ensures |id| == |rest| || Text.OccursAt(rest, "&", |id|) || Text.OccursAt(rest, "v=", |id|)
  {
    var segment := Text.TakeBefore(rest, "v=");
    var id := Text.TakeBefore(segment, "&");
    Text.AbsentFromPrefix(segment, |id|, "v=");
    Text.OccursInPrefix(rest, |segment|, "&", |id|);
    assert rest[..|segment|][..|id|] == rest[..|id|];
    id
  }

  /** `url.split("v=")[1]?.split("&")[0]`: the text after the first `v=`, cut at the next `v=` and then
      at the first `&`. It starts right after that `v=`, holds neither `&` nor `v=`, and ends at the end
      of the address, at an `&` or at a `v=`. */
  function VideoId(url: string): (id: string)
    requires Text.Contains(url, "v=")
    ensures var rest := url[Text.IndexOf(url, "v=").value + 2..];
            |id| <= |rest| && id == rest[..|id|]
            && (|id| == |rest| || Text.OccursAt(rest, "&", |id|) || Text.OccursAt(rest, "v=", |id|))
    ensures !Text.Contains(id, "&") && !Text.Contains(id, "v=")
  {
    IdAtStart(url[Text.IndexOf(url, "v=").value + 2..])
  }

  /** `getVideoEmbedUrl`: a YouTube watch address becomes the embed address of its video; any other
      address is used as it is. */
  function EmbedUrl(url: string): (r: string)
    ensures !Text.Contains(url, WatchMarker) ==> r == url
    ensures Text.Contains(url, WatchMarker) ==>
      Text.Contains(url, "v=") && r == EmbedPrefix + VideoId(url)
  {
    if Text.Contains(url, WatchMarker) then
      MarkerHasParam(url);
      EmbedPrefix + VideoId(url)
    else url
  }

  /** A canonical watch address, `<host>youtube.com/watch?v=<id>`, embeds exactly its id, provided
      the host part holds no `v=` and the id holds neither `&` nor `v=`. */
  lemma WatchUrlEmbeds(host: string, id: string)
    requires !Text.Contains(host + "youtube.com/watch?", "v=")
    requires !Text.Contains(id, "&") && !Text.Contains(id, "v=")
    ensures EmbedUrl(host + WatchMarker + id) == EmbedPrefix + id
  {
    var url := host + WatchMarker + id;
    var pre := host + "youtube.com/watch?";
    assert |pre| == |host| + 18;
    assert url == pre + "v=" + id;
    assert url[|host|..|host| + 20] == WatchMarker;
    assert Text.OccursAt(url, WatchMarker, |host|);
    assert Text.Contains(url, WatchMarker);
    assert url[|pre|..|pre| + 2] == "v=";
    assert Text.OccursAt(url, "v=", |pre|);
    forall j | 0 <= j < |pre| ensures !Text.OccursAt(url, "v=", j) {
      if j + 2 <= |pre| {
        assert url[j..j + 2] == pre[j..j + 2];
        assert !Text.OccursAt(pre, "v=", j);
      } else {
        assert url[j + 1] == 'v';
      }
    }
    var k := Text.IndexOf(url, "v=").value;
    assert k == |pre|;
    assert url[k + 2..] == id;
    assert Text.TakeBefore(url[k + 2..], "v=") == id;
    assert Text.TakeBefore(id, "&") == id;
  }

  /** `course.modules?.[0]?.lessons?.[0]`: only the first module is looked at. */
  function FirstLesson(c: Courses.Course): (r: Option<Courses.Lesson>)
    ensures r.Some? <==> |c.modules| > 0 && |c.modules[0].lessons| > 0
    ensures r.Some? ==> r.value == c.modules[0].lessons[0]
  {
    if |c.modules| > 0 && |c.modules[0].lessons| > 0 then Some(c.modules[0].lessons[0]) else None
  }

  /** A course whose first module is empty opens with no lesson selected, whatever the later modules hold. */
  lemma EmptyFirstModuleSelectsNothing(c: Courses.Course)
    requires |c.modules| > 0 && c.modules[0].lessons == []
    ensures FirstLesson(c) == None
  {
  }

  predicate HoldsLesson(m: Courses.CourseModule, lessonId: string) {
    exists l :: l in m.lessons && l.id == lessonId
  }

  /** The "Module n" label: one more than the index of the first module holding the lesson, so 0 when
      no module holds it. */
  function ModuleNumber(modules: seq<Courses.CourseModule>, lessonId: string): (n: int)
    ensures 0 <= n <= |modules|
    ensures n == 0 <==> forall i :: 0 <= i < |modules| ==> !HoldsLesson(modules[i], lessonId)
    ensures n > 0 ==> HoldsLesson(modules[n - 1], lessonId)
    ensures n > 0 ==> forall i :: 0 <= i < n - 1 ==> !HoldsLesson(modules[i], lessonId)
  {
    Lists.FindIndex(modules, m => HoldsLesson(m, lessonId)) + 1
  }

  /** The address the notes are saved to; without a selected lesson it names `undefined`. */
  function NotesUrl(courseId: Option<string>, lesson: Option<Courses.Lesson>): (r: string)
    ensures lesson.None? ==> r == "/courses/" + Text.Interpolate(courseId) + "/lessons/undefined/notes"
    ensures lesson.Some? ==> r == "/courses/" + Text.Interpolate(courseId) + "/lessons/" + lesson.value.id + "/notes"
  {
    "/courses/" + Text.Interpolate(courseId) + "/lessons/" + (if lesson.Some? then lesson.value.id else "undefined") + "/notes"
  }

  function CompleteUrl(courseId: Option<string>, lesson: Courses.Lesson): string {
    "/courses/" + Text.Interpolate(courseId) + "/lessons/" + lesson.id + "/complete"
  }

  class LessonPlayer {
    const routeId: Option<string>
    var selectedLesson: Option<Courses.Lesson>
    var notes: string
    var completed: bool

    constructor (routeId0: Option<string>)
      ensures routeId == routeId0 && selectedLesson == None && notes == "" && !completed
    {
      routeId := routeId0;
      selectedLesson := None;
      notes := "";
      completed := false;
    }

    /** The fetch effect: nothing without a route id; on success the course goes to the store and the
        first lesson of the first module, if any, is selected (its completion and notes are not loaded). */
    method LoadCourse(store: Courses.CourseStore, fetch: string -> Option<Courses.Course>)
      modifies store`currentCourse, this`selectedLesson
      ensures routeId.None? || routeId == Some("") || fetch(routeId.value).None? ==>
        store.currentCourse == old(store.currentCourse) && selectedLesson == old(selectedLesson)
      ensures routeId.Some? && routeId.value != "" && fetch(routeId.value).Some? ==>
        store.currentCourse == fetch(routeId.value)
        && selectedLesson == (if FirstLesson(fetch(routeId.value).value).Some?
                              then FirstLesson(fetch(routeId.value).value) else old(selectedLesson))
    {
      if routeId.None? || routeId.value == "" {
        return;
      }
      var course := fetch(routeId.value);
      if course.None? {
        return;
      }
      store.SetCurrentCourse(course);
      var first := FirstLesson(course.value);
      if first.Some? {
        selectedLesson := first;
      }
    }

    /** `handleLessonSelect`: a locked lesson cannot be chosen; otherwise its completion flag and notes
        are loaded, a missing flag counting as not completed and missing notes as empty. */
    method SelectLesson(lesson: Courses.Lesson)
      modifies this`selectedLesson, this`completed, this`notes
      ensures lesson.locked == Some(true) ==>
        selectedLesson == old(selectedLesson) && completed == old(completed) && notes == old(notes)
      ensures lesson.locked != Some(true) ==>
        selectedLesson == Some(lesson) && completed == (lesson.completed == Some(true))
        && notes == lesson.notes.GetOr("")
    {
      if lesson.locked == Some(true) {
        return;
      }
      selectedLesson := Some(lesson);
      completed := lesson.completed.GetOr(false);
      notes := lesson.notes.GetOr("");
    }

    method EditNotes(text: string)
      modifies this`notes
      ensures notes == text
    {
      notes := text;
    }

    /** `handleComplete`: with no lesson nothing is sent; the flag is set only when the server accepts. */
    method Complete(post: string -> bool) returns (sent: Option<string>)
      modifies this`completed
      ensures sent.Some? <==> selectedLesson.Some?
      ensures sent.Some? ==> sent.value == CompleteUrl(routeId, selectedLesson.value)
      ensures completed == (old(completed) || (sent.Some? && post(sent.value)))
    {
      if selectedLesson.None? {
        return None;
      }
      var url := CompleteUrl(routeId, selectedLesson.value);
      sent := Some(url);
      if post(url) {
        completed := true;
      }
    }

    /** The checkbox: the flag follows the box at once; checking it also calls `handleComplete`, whose
        failure does not undo the tick, and unchecking it tells the server nothing. */
    method ToggleComplete(checked: bool, post: string -> bool) returns (sent: Option<string>)
      modifies this`completed
      ensures completed == checked
      ensures sent.Some? <==> checked && selectedLesson.Some?
    {
      completed := checked;
      sent := None;
      if checked {
        sent := Complete(post);
      }
    }

    /** The "Save Notes" button: a request is always made, whether or not a lesson is selected. */
    method SaveNotes() returns (url: string, body: string)
      ensures url == NotesUrl(routeId, selectedLesson) && body == notes
    {
      url := NotesUrl(routeId, selectedLesson);
      body := notes;
    }
  }
}
