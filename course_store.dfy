/** The course store: the catalogue, the enrolled courses and the course being viewed. */
module Courses {
  import opened Wrappers
  import Lists

  datatype Difficulty = Beginner | Intermediate | Advanced

  datatype MentorRef = MentorRef(id: string, name: string, avatar: Option<string>)

  /** Prices per plan, in whole currency units. */
  datatype Price = Price(monthly: int, quarterly: int, annual: int)

  datatype Lesson = Lesson(
    id: string,
    title: string,
    videoUrl: string,
    duration: int,
    completed: Option<bool>,
    locked: Option<bool>,
    notes: Option<string>)

  datatype CourseModule = CourseModule(
    id: string,
    title: string,
    lessons: seq<Lesson>,
    locked: Option<bool>)

  datatype Course = Course(
    id: string,
    title: string,
    description: string,
    mentor: MentorRef,
    thumbnail: Option<string>,
    price: Price,
    category: string,
    difficulty: Difficulty,
    reviewCount: int,
    studentCount: int,
    modules: seq<CourseModule>,
    enrolled: Option<bool>,
    progress: Option<int>)

  /** The list `updateCourseProgress(id, p)` produces: every course with that id carries progress `p`
      as given, and nothing else about any course changes. */
  function WithProgress(cs: seq<Course>, id: string, p: int): (r: seq<Course>)
    ensures |r| == |cs|
    ensures forall i :: 0 <= i < |cs| ==> r[i] == cs[i].(progress := r[i].progress)
    ensures forall i :: 0 <= i < |cs| && cs[i].id == id ==> r[i].progress == Some(p)
    ensures forall i :: 0 <= i < |cs| && cs[i].id != id ==> r[i] == cs[i]
  {
    Lists.Patch(cs, (c: Course) => c.id == id, (c: Course) => c.(progress := Some(p)))
  }

  /** Updating the progress of a course that is not enrolled changes nothing. */
  lemma ProgressOfUnknownCourse(cs: seq<Course>, id: string, p: int)
    requires forall i :: 0 <= i < |cs| ==> cs[i].id != id
    ensures WithProgress(cs, id, p) == cs
  {
  }

  /** Two progress updates for the same course: the second wins. */
  lemma ProgressLastWriteWins(cs: seq<Course>, id: string, p: int, q: int)
    ensures WithProgress(WithProgress(cs, id, p), id, q) == WithProgress(cs, id, q)
  {
  }

  class CourseStore {
    var courses: seq<Course>
    var enrolledCourses: seq<Course>
    var currentCourse: Option<Course>

    constructor ()
      ensures courses == [] && enrolledCourses == [] && currentCourse == None
    {
      courses := [];
      enrolledCourses := [];
      currentCourse := None;
    }

    method SetCourses(cs: seq<Course>)
      modifies this`courses
      ensures courses == cs
    {
      courses := cs;
    }

    method SetEnrolledCourses(cs: seq<Course>)
      modifies this`enrolledCourses
      ensures enrolledCourses == cs
    {
      enrolledCourses := cs;
    }

    method SetCurrentCourse(c: Option<Course>)
      modifies this`currentCourse
      ensures currentCourse == c
    {
      currentCourse := c;
    }

    /** Rewrites the enrolled list only; `courses` and `currentCourse` keep their old values. */
    method UpdateCourseProgress(id: string, p: int)
      modifies this`enrolledCourses
      ensures enrolledCourses == WithProgress(old(enrolledCourses), id, p)
    {
      enrolledCourses := WithProgress(enrolledCourses, id, p);
    }
  }
}
