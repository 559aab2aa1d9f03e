// The study room: a course list (custom courses first, then the built-in
// ones of the page's language), a course view that opens on the first
// module, Prev and Next between modules where Next on the last module hands
// the course over to the quiz, and the tab chosen by the URL or by the
// navigation state.
module StudyRoom {
  import opened Wrappers
  import opened JsValue
  import opened SeqFilter

  /** A course and the ids of its modules, in order. */
  datatype Course = Course(id: Value, modules: seq<string>)

  /** `[...customCourses, ...defaultCourses]`. */
  function CourseList(custom: seq<Course>, defaults: seq<Course>): (r: seq<Course>)
    ensures |r| == |custom| + |defaults|
    ensures forall i :: 0 <= i < |custom| ==> r[i] == custom[i]
    ensures forall i :: 0 <= i < |defaults| ==> r[|custom| + i] == defaults[i]
  {
    custom + defaults
  }

  function CourseIdIs(id: Value): Course -> bool
  {
    (c: Course) => c.id == id
  }

  function ModuleIdIs(id: string): string -> bool
  {
    (m: string) => m == id
  }

  /** `activeCourseId ? COURSES.find(c => c.id === activeCourseId) : null`:
    * a falsy id selects nothing; otherwise the first course with that id. */
  function FindCourse(courses: seq<Course>, id: Option<Value>): (r: Option<Course>)
    ensures !Truthy(id) ==> r.None?
    ensures r.Some? ==> r.value in courses && Some(r.value.id) == id
    ensures Truthy(id) && r.None? ==> forall i :: 0 <= i < |courses| ==> courses[i].id != id.value
  {
    if !Truthy(id) then None
    else
      FindIndexMissing(CourseIdIs(id.value), courses);
      var k := FindIndex(CourseIdIs(id.value), courses);
      if k == -1 then None else Some(courses[k])
  }

  /** `activeModuleIndex`: 0 without a course, else the first index of the
    * active module id, or -1 when the course has no such module. */
  function ModuleIndex(course: Option<Course>, moduleId: string): (k: int)
    ensures course.None? ==> k == 0
    ensures course.Some? ==> -1 <= k < |course.value.modules|
    ensures course.Some? && k >= 0 ==> course.value.modules[k] == moduleId
    ensures course.Some? && k == -1 <==> course.Some? && moduleId !in course.value.modules
  {
    if course.None? then 0
    else
      FindIndexMissing(ModuleIdIs(moduleId), course.value.modules);
      FindIndex(ModuleIdIs(moduleId), course.value.modules)
  }

  /** In a course whose module ids are distinct, a module's own id finds
    * its own position. */
  lemma ModuleIndexOfDistinct(course: Course, k: nat)
    requires k < |course.modules|
    requires forall i, j :: 0 <= i < j < |course.modules| ==> course.modules[i] != course.modules[j]
    ensures ModuleIndex(Some(course), course.modules[k]) == k
  {
    FindIndexIs(ModuleIdIs(course.modules[k]), course.modules, k);
  }

  /** The course view shows exactly when the course resolves and holds the
    * active module; otherwise the list shows. */
  predicate ShowsCourse(course: Option<Course>, moduleId: string)
  {
    course.Some? && 0 <= ModuleIndex(course, moduleId)
  }

  lemma ShowsCourseIff(course: Option<Course>, moduleId: string)
    ensures ShowsCourse(course, moduleId) <==> course.Some? && moduleId in course.value.modules
  {
  }

  /** The tab effect: a URL tab id wins over a navigation-state tab, and
    * with neither the tab stays. */
  function ResolveTab(tabId: Option<string>, stateTab: Option<string>, current: string): (t: string)
    ensures tabId.Some? && tabId.value != [] ==> t == tabId.value
    ensures (tabId.None? || tabId.value == []) && stateTab.Some? && stateTab.value != [] ==> t == stateTab.value
    ensures (tabId.None? || tabId.value == []) && (stateTab.None? || stateTab.value == []) ==> t == current
  {
    if tabId.Some? && tabId.value != [] then tabId.value
    else if stateTab.Some? && stateTab.value != [] then stateTab.value
    else current
  }

  class StudyRoomState {
    /** The built-in courses of the page's language (`[]` when it has none). */
    const defaults: seq<Course>
    var customCourses: seq<Course>
    var activeTab: string
    var activeCourseId: Option<Value>
    var activeModuleId: string

    function Courses(): seq<Course>
      reads this
    {
      CourseList(customCourses, defaults)
    }

    function ActiveCourse(): Option<Course>
      reads this
    {
      FindCourse(Courses(), activeCourseId)
    }

    function ActiveIndex(): int
      reads this
    {
      ModuleIndex(ActiveCourse(), activeModuleId)
    }

    /** The Prev button is disabled on the first module. */
    predicate PrevEnabled()
      reads this
    {
      ActiveIndex() != 0
    }

    constructor(defaults: seq<Course>)
      ensures this.defaults == defaults && customCourses == []
      ensures activeTab == "curriculum" && activeCourseId.None? && activeModuleId == "m1"
      ensures ActiveCourse().None? && !ShowsCourse(ActiveCourse(), activeModuleId)
    {
      this.defaults := defaults;
      customCourses := [];
      activeTab := "curriculum";
      activeCourseId := None;
      activeModuleId := "m1";
    }

    /** The course load: the saved courses, or no change when loading
      * failed. */
    method LoadCustomCourses(saved: Option<seq<Course>>)
      modifies this
      ensures saved.Some? ==> customCourses == saved.value
      ensures saved.None? ==> customCourses == old(customCourses)
      ensures activeTab == old(activeTab) && activeCourseId == old(activeCourseId) && activeModuleId == old(activeModuleId)
    {
      if saved.Some? {
        customCourses := saved.value;
      }
    }

    /** The tab effect on the URL's tab id and the navigation state. */
    method ApplyTab(tabId: Option<string>, stateTab: Option<string>)
      modifies this
      ensures activeTab == ResolveTab(tabId, stateTab, old(activeTab))
      ensures customCourses == old(customCourses) && activeCourseId == old(activeCourseId) && activeModuleId == old(activeModuleId)
    {
      if tabId.Some? && tabId.value != [] {
        activeTab := tabId.value;
      } else if stateTab.Some? && stateTab.value != [] {
        activeTab := stateTab.value;
      }
    }

    /** A click on a course card: that course opens on its first module.
      * The course id is set first; on a card with no modules, reading the
      * first module's id then throws (`threw`), so the module id stays. */
    method OpenCourse(k: nat) returns (threw: bool)
      requires k < |Courses()|
      modifies this
      ensures activeCourseId == Some(old(Courses())[k].id)
      ensures threw <==> old(Courses())[k].modules == []
      ensures !threw ==> activeModuleId == old(Courses())[k].modules[0]
      ensures threw ==> activeModuleId == old(activeModuleId)
      ensures customCourses == old(customCourses) && activeTab == old(activeTab)
    {
      var course := Courses()[k];
      activeCourseId := Some(course.id);
      if course.modules == [] {
        return true;
      }
      activeModuleId := course.modules[0];
      threw := false;
    }

    /** A click on a module of the open course's outline. */
    method SelectModule(moduleId: string)
      modifies this
      ensures activeModuleId == moduleId
      ensures customCourses == old(customCourses) && activeCourseId == old(activeCourseId) && activeTab == old(activeTab)
    {
      activeModuleId := moduleId;
    }

    /** Prev in the course view: the module at max(0, i - 1). */
    method Prev()
      requires ShowsCourse(ActiveCourse(), activeModuleId)
      modifies this
      ensures activeModuleId == old(ActiveCourse()).value.modules[if old(ActiveIndex()) > 0 then old(ActiveIndex()) - 1 else 0]
      ensures customCourses == old(customCourses) && activeCourseId == old(activeCourseId) && activeTab == old(activeTab)
      ensures ShowsCourse(ActiveCourse(), activeModuleId)
      ensures !old(PrevEnabled()) ==> activeModuleId == old(activeModuleId)
    {
      var course := ActiveCourse().value;
      var i := ActiveIndex();
      var prevIndex := if i - 1 > 0 then i - 1 else 0;
      activeModuleId := course.modules[prevIndex];
    }

    /** Next in the course view: the following module, or on the last one
      * the quiz for this course (the answer is the course id handed to
      * the quiz; None while a module follows). */
    method Next() returns (quizFor: Option<Value>)
      requires ShowsCourse(ActiveCourse(), activeModuleId)
      modifies this
      ensures old(ActiveIndex()) < |old(ActiveCourse()).value.modules| - 1 ==>
        activeModuleId == old(ActiveCourse()).value.modules[old(ActiveIndex()) + 1] && quizFor.None?
      ensures old(ActiveIndex()) == |old(ActiveCourse()).value.modules| - 1 ==>
        activeModuleId == old(activeModuleId) && quizFor == Some(old(ActiveCourse()).value.id)
      ensures customCourses == old(customCourses) && activeCourseId == old(activeCourseId) && activeTab == old(activeTab)
      ensures ShowsCourse(ActiveCourse(), activeModuleId)
    {
      var course := ActiveCourse().value;
      var i := ActiveIndex();
      if i < |course.modules| - 1 {
        activeModuleId := course.modules[i + 1];
        quizFor := None;
      } else {
        quizFor := Some(course.id);
      }
    }

    /** The back arrow of the course view: back to the list. */
    method CloseCourse()
      modifies this
      ensures activeCourseId.None? && ActiveCourse().None?
      ensures customCourses == old(customCourses) && activeModuleId == old(activeModuleId) && activeTab == old(activeTab)
    {
      activeCourseId := None;
    }
  }

  /** In a course with distinct module ids, Prev and Next move the index by
    * exactly one step, Prev never below 0. */
  lemma StepsMoveByOne(course: Course, i: nat)
    requires i < |course.modules|
    requires forall a, b :: 0 <= a < b < |course.modules| ==> course.modules[a] != course.modules[b]
    ensures i + 1 < |course.modules| ==> ModuleIndex(Some(course), course.modules[i + 1]) == i + 1
    ensures ModuleIndex(Some(course), course.modules[if i > 0 then i - 1 else 0]) == (if i > 0 then i - 1 else 0)
  {
    if i + 1 < |course.modules| {
      ModuleIndexOfDistinct(course, i + 1);
    }
    ModuleIndexOfDistinct(course, if i > 0 then i - 1 else 0);
  }
}
