// The learner profile store: fields replaced by the store's actions, each
// action's new value a pure expression of the old state.
module UserStore {
  import opened Wrappers
  import opened JsValue

  /** The daily mission: its progress counter, its target and the rest of
    * its fields. */
  datatype Mission = Mission(progress: int, target: int, rest: Record)

  /** An entry of the learning-progress list. */
  datatype Course = Course(id: string, title: string, progress: int)

  const MaxRecentSessions := 5

  /** `Math.min(progress + 1, target)`. */
  function Advance(m: Mission): (r: Mission)
    ensures r.target == m.target && r.rest == m.rest
    ensures r.progress <= m.target
    ensures r.progress <= m.progress + 1
    ensures m.progress < m.target ==> r.progress == m.progress + 1
    ensures m.progress >= m.target ==> r.progress == m.target
  {
    m.(progress := if m.progress + 1 < m.target then m.progress + 1 else m.target)
  }

  /** Once the target is reached, completing again changes nothing. */
  lemma AdvanceAtTarget(m: Mission)
    requires m.progress == m.target
    ensures Advance(m) == m
  {
  }

  /** Completing a mission `n` times from below the target counts up by one
    * per call until the target and never past it. */
  function AdvanceTimes(m: Mission, n: nat): Mission
  {
    if n == 0 then m else Advance(AdvanceTimes(m, n - 1))
  }

  lemma {:induction false} AdvanceTimesBounded(m: Mission, n: nat)
    requires m.progress <= m.target
    ensures AdvanceTimes(m, n).progress == if m.progress + n <= m.target then m.progress + n else m.target
    ensures AdvanceTimes(m, n).target == m.target && AdvanceTimes(m, n).rest == m.rest
  {
    if n > 0 {
      AdvanceTimesBounded(m, n - 1);
    }
  }

  /** `[session, ...sessions].slice(0, 5)`. */
  function PrependCapped(sessions: seq<Value>, session: Value): (r: seq<Value>)
    ensures |r| == if |sessions| + 1 < MaxRecentSessions then |sessions| + 1 else MaxRecentSessions
    ensures r[0] == session
    ensures r[1..] == sessions[..|r| - 1]
  {
    var all := [session] + sessions;
    if |all| <= MaxRecentSessions then all else all[..MaxRecentSessions]
  }

  /** The list never grows past five, whatever its starting length, and the
    * entries that fall off are the oldest. */
  lemma PrependCappedKeepsNewest(sessions: seq<Value>, session: Value, i: nat)
    requires 0 < i < |PrependCapped(sessions, session)|
    ensures PrependCapped(sessions, session)[i] == sessions[i - 1]
    ensures |PrependCapped(sessions, session)| <= MaxRecentSessions
  {
    var r := PrependCapped(sessions, session);
    assert r[i] == r[1..][i - 1];
  }

  /** `learningProgress.map(c => c.id === courseId ? {...c, progress} : c)`. */
  function SetProgress(courses: seq<Course>, courseId: string, progress: int): (r: seq<Course>)
    ensures |r| == |courses|
    ensures forall i :: 0 <= i < |courses| ==>
      r[i] == if courses[i].id == courseId then courses[i].(progress := progress) else courses[i]
  {
    seq(|courses|, i requires 0 <= i < |courses| =>
      if courses[i].id == courseId then courses[i].(progress := progress) else courses[i])
  }

  /** Only the progress of the matching entries changes; ids, titles and
    * order stay, and an unknown id changes nothing. */
  lemma SetProgressFacts(courses: seq<Course>, courseId: string, progress: int)
    ensures forall i :: 0 <= i < |courses| ==>
      SetProgress(courses, courseId, progress)[i].id == courses[i].id
      && SetProgress(courses, courseId, progress)[i].title == courses[i].title
    ensures (forall i :: 0 <= i < |courses| ==> courses[i].id != courseId) ==>
      SetProgress(courses, courseId, progress) == courses
  {
  }

  /** `role === 'user' ? 'admin' : 'user'`. */
  function ToggleRole(role: string): (r: string)
    ensures role == "user" ==> r == "admin"
    ensures role != "user" ==> r == "user"
  {
    if role == "user" then "admin" else "user"
  }

  /** Toggling twice restores 'user' and 'admin'; any other role becomes
    * 'user' on the first toggle and 'admin' on the second. */
  lemma ToggleRoleTwice(role: string)
    ensures role == "user" || role == "admin" ==> ToggleRole(ToggleRole(role)) == role
    ensures role != "user" && role != "admin" ==> ToggleRole(role) == "user" && ToggleRole(ToggleRole(role)) == "admin"
  {
  }

  function Session(id: int, product: string, customer: string, score: int, date: string): Value
  {
    Obj(map["id" := Num(id), "product" := Str(product), "customer" := Str(customer), "score" := Num(score), "date" := Str(date)])
  }

  /** The seeded weakness analysis: a brightness objection, with a study
    * recommendation pointing at module m3. */
  function SeedWeakness(): (w: Value)
    ensures w.Obj? && Get(w.fields, "score") == Some(Num(65)) && Get(w.fields, "trend") == Some(Num(-12))
  {
    Obj(map[
      "category" := Str("Brightness Objection"),
      "score" := Num(65),
      "trend" := Num(-12),
      "description" := Str("Difficulty handling \"OLED is too dark\" objections."),
      "recommendedAction" := Obj(map[
        "type" := Str("study"),
        "title" := Str("QNED Brightness Comparison"),
        "link" := Str("/study"),
        "moduleId" := Str("m3")])])
  }

  function SeedSessions(): seq<Value>
  {
    [Session(1, "LG OLED G5", "Price Sensitive", 82, "2024-11-26"),
     Session(2, "LG QNED 90", "Tech Savvy", 75, "2024-11-25"),
     Session(3, "LG UHD UT80", "Elderly", 78, "2024-11-24")]
  }

  function SeedCourses(): seq<Course>
  {
    [Course("g5-usp", "OLED G5 USP Master", 65),
     Course("qned-tech", "QNED Technology", 40),
     Course("objection-basic", "Objection Handling Basics", 80)]
  }

  /** One card of the mission board. */
  function MissionCard(id: int, kind: string, title: string, description: string, xp: int,
                       progress: int, total: int, status: string, color: string, bg: string): Value
  {
    Obj(map["id" := Num(id), "type" := Str(kind), "title" := Str(title), "description" := Str(description),
            "xp" := Num(xp), "progress" := Num(progress), "total" := Num(total), "status" := Str(status),
            "color" := Str(color), "bg" := Str(bg)])
  }

  function SeedMissions(): seq<Value>
  {
    [MissionCard(1, "Daily", "Morning Warm-up", "Complete 1 Product Knowledge quiz.", 50, 0, 1, "active", "text-blue-500", "bg-blue-50"),
     MissionCard(2, "Scenario", "Price Defense Master", "Successfully handle 3 price objections in Roleplay.", 150, 1, 3, "active", "text-yellow-500", "bg-yellow-50"),
     MissionCard(3, "Co-op", "Team Challenge", "Achieve 100% team participation this week.", 300, 8, 10, "active", "text-purple-500", "bg-purple-50"),
     MissionCard(4, "Event", "OLED G5 Launch", "Complete the new product training module.", 500, 0, 1, "locked", "text-gray-400", "bg-gray-100")]
  }

  /** The seeded sessions are numbered 1 to 3, newest first, and the seeded
    * course ids are distinct. */
  lemma SeedListsFacts()
    ensures forall i :: 0 <= i < |SeedSessions()| ==> Get(SeedSessions()[i].fields, "id") == Some(Num(i + 1))
    ensures forall i, j :: 0 <= i < j < |SeedCourses()| ==> SeedCourses()[i].id != SeedCourses()[j].id
  {
  }

  class UserStoreState {
    /** The profile and the mission board; no action of the store changes
      * them. */
    const level: int
    const xp: int
    const nextLevelXp: int
    const missions: seq<Value>
    var role: string
    var weakness: Value
    var recentSessions: seq<Value>
    var learningProgress: seq<Course>
    var dailyMission: Option<Mission>
    var dailyMissionDate: Option<string>

    /** The seeded store: level 12 with 2450 of 5000 xp, role 'user', the
      * mock weakness analysis, sessions, courses and missions, and no
      * daily mission yet. */
    constructor()
      ensures level == 12 && xp == 2450 && nextLevelXp == 5000 && xp < nextLevelXp
      ensures role == "user" && weakness == SeedWeakness()
      ensures recentSessions == SeedSessions() && learningProgress == SeedCourses() && missions == SeedMissions()
      ensures dailyMission.None? && dailyMissionDate.None?
    {
      level, xp, nextLevelXp := 12, 2450, 5000;
      missions := SeedMissions();
      role := "user";
      weakness := SeedWeakness();
      recentSessions := SeedSessions();
      learningProgress := SeedCourses();
      dailyMission := None;
      dailyMissionDate := None;
    }

    /** `setDailyMission(mission)`, stamped with today's date string. */
    method SetDailyMission(mission: Option<Mission>, today: string)
      modifies this
      ensures dailyMission == mission && dailyMissionDate == Some(today)
      ensures role == old(role) && weakness == old(weakness) && recentSessions == old(recentSessions)
      ensures learningProgress == old(learningProgress)
    {
      dailyMission := mission;
      dailyMissionDate := Some(today);
    }

    /** `completeDailyMission()`: no mission, no change. */
    method CompleteDailyMission()
      modifies this
      ensures old(dailyMission).None? ==> dailyMission.None?
      ensures old(dailyMission).Some? ==> dailyMission == Some(Advance(old(dailyMission).value))
      ensures dailyMissionDate == old(dailyMissionDate) && role == old(role) && weakness == old(weakness)
      ensures recentSessions == old(recentSessions) && learningProgress == old(learningProgress)
    {
      if dailyMission.None? {
        return;
      }
      var m := dailyMission.value;
      var newProgress := if m.progress + 1 < m.target then m.progress + 1 else m.target;
      dailyMission := Some(m.(progress := newProgress));
    }

    method UpdateWeakness(newWeakness: Value)
      modifies this
      ensures weakness == newWeakness
      ensures role == old(role) && recentSessions == old(recentSessions) && learningProgress == old(learningProgress)
      ensures dailyMission == old(dailyMission) && dailyMissionDate == old(dailyMissionDate)
    {
      weakness := newWeakness;
    }

    /** `addSession(session)`: newest first, at most five kept. */
    method AddSession(session: Value)
      modifies this
      ensures recentSessions == PrependCapped(old(recentSessions), session)
      ensures role == old(role) && weakness == old(weakness) && learningProgress == old(learningProgress)
      ensures dailyMission == old(dailyMission) && dailyMissionDate == old(dailyMissionDate)
    {
      var all := [session] + recentSessions;
      recentSessions := if |all| <= MaxRecentSessions then all else all[..MaxRecentSessions];
    }

    method UpdateProgress(courseId: string, progress: int)
      modifies this
      ensures learningProgress == SetProgress(old(learningProgress), courseId, progress)
      ensures role == old(role) && weakness == old(weakness) && recentSessions == old(recentSessions)
      ensures dailyMission == old(dailyMission) && dailyMissionDate == old(dailyMissionDate)
    {
      learningProgress := SetProgress(learningProgress, courseId, progress);
    }

    method ToggleRoleAction()
      modifies this
      ensures role == ToggleRole(old(role))
      ensures weakness == old(weakness) && recentSessions == old(recentSessions) && learningProgress == old(learningProgress)
      ensures dailyMission == old(dailyMission) && dailyMissionDate == old(dailyMissionDate)
    {
      role := if role == "user" then "admin" else "user";
    }
  }
}
