// The mock operator backend: an in-memory database of tables (sequences of
// records) changed in place by the API client's methods, every answer
// wrapped in a success or error envelope.
module OperatorApi {
  import opened Wrappers
  import opened JsValue
  import opened SeqFilter

  const ApiVersion := "v2.0.0-mock"

  datatype Scope = Scope(regionId: string, countryId: Option<string>, branchId: Option<string>)

  /** Who is calling; the client never reassigns it. */
  datatype SessionContext = SessionContext(userId: string, role: string, scope: Scope)

  const DefaultSession := SessionContext("admin_001", "ADMIN", Scope("GLOBAL", None, None))

  /** `meta` of an envelope; error envelopes carry no scope. */
  datatype Meta = Meta(timestamp: string, version: string, scope: Option<Scope>)

  datatype ApiError = ApiError(code: string, message: Option<string>, details: Value)

  datatype Envelope = Envelope(success: bool, data: Value, meta: Meta, error: Option<ApiError>)

  /** `createResponse(data)`, stamped with the clock reading `now`. */
  function CreateResponse(data: Value, scope: Scope, now: string): (e: Envelope)
    ensures e.success && e.error.None?
    ensures e.data == data
    ensures e.meta.version == ApiVersion && e.meta.timestamp == now && e.meta.scope == Some(scope)
  {
    Envelope(true, data, Meta(now, ApiVersion, Some(scope)), None)
  }

  /** `createError(code, message)`: `details` defaults to null. */
  function CreateError(code: string, message: Option<string>, now: string): (e: Envelope)
    ensures !e.success && e.data == Null
    ensures e.error == Some(ApiError(code, message, Null))
    ensures e.meta.version == ApiVersion && e.meta.timestamp == now && e.meta.scope.None?
  {
    Envelope(false, Null, Meta(now, ApiVersion, None), Some(ApiError(code, message, Null)))
  }

  /** An envelope reports success exactly when it carries no error. */
  lemma EnvelopeKinds(data: Value, scope: Scope, code: string, message: Option<string>, now: string)
    ensures CreateResponse(data, scope, now).success <==> CreateResponse(data, scope, now).error.None?
    ensures CreateError(code, message, now).success <==> CreateError(code, message, now).error.None?
    ensures CreateResponse(data, scope, now) != CreateError(code, message, now)
  {
  }

  /** `{ key: [records] }` as a response payload. */
  function Listing(key: string, rs: seq<Record>): (v: Value)
    ensures v.Obj? && key in v.fields && v.fields[key].Arr? && |v.fields[key].items| == |rs|
  {
    Obj(map[key := Arr(seq(|rs|, i requires 0 <= i < |rs| => Obj(rs[i])))])
  }

  function Single(key: string, r: Record): Value
  {
    Obj(map[key := Obj(r)])
  }

  /** The record's `key` field is exactly `id`: the `x.key === id` test. */
  function IdIs(key: string, id: string): Record -> bool
  {
    r => HasId(r, key, id)
  }

  function IdIsNot(key: string, id: string): Record -> bool
  {
    r => !HasId(r, key, id)
  }

  // ---- Pure record builders ----

  /** The scenario `createScenario` stores: the caller's fields with a
    * generated id, version "v1.0" and unpublished, whatever the caller sent. */
  function NewScenario(scenario: Record, nowMs: nat): (s: Record)
    ensures Get(s, "scenarioId") == Some(Str("sc_" + NatToString(nowMs)))
    ensures Get(s, "versionId") == Some(Str("v1.0")) && Get(s, "published") == Some(Bool(false))
    ensures forall k :: k in scenario && k !in {"scenarioId", "versionId", "published"} ==> k in s && s[k] == scenario[k]
    ensures s.Keys == scenario.Keys + {"scenarioId", "versionId", "published"}
  {
    Merge(scenario, map["scenarioId" := Str("sc_" + NatToString(nowMs)), "versionId" := Str("v1.0"), "published" := Bool(false)])
  }

  /** `(record.version || 1) + 1`. */
  function BumpVersion(r: Record): (v: Value)
    ensures forall n :: Get(r, "version") == Some(Num(n)) && n != 0 ==> v == Num(n + 1)
    ensures !Truthy(Get(r, "version")) ==> v == Num(2)
  {
    PlusOne(Or(Get(r, "version"), Num(1)))
  }

  /** `{...old, ...updates, version: bumped}` (with `lastUpdated` for
    * materials): the supplied fields win over the stored ones, but never
    * over the bumped version. */
  function VersionedMerge(r: Record, updates: Record, stamp: Option<string>): (m: Record)
    ensures Get(m, "version") == Some(BumpVersion(r))
    ensures stamp.Some? ==> Get(m, "lastUpdated") == Some(Str(stamp.value))
    ensures forall k :: k in updates && k != "version" && (stamp.None? || k != "lastUpdated") ==> k in m && m[k] == updates[k]
    ensures forall k :: k in r && k !in updates && k != "version" && (stamp.None? || k != "lastUpdated") ==> k in m && m[k] == r[k]
    ensures forall k :: k in m ==> k in r || k in updates || k == "version" || (stamp.Some? && k == "lastUpdated")
  {
    var tail := if stamp.Some? then map["version" := BumpVersion(r), "lastUpdated" := Str(stamp.value)]
                else map["version" := BumpVersion(r)];
    Merge(Merge(r, updates), tail)
  }

  /** The quiz `createQuiz` stores: the caller's quiz id when truthy, else a
    * generated one; version 1. */
  function NewQuiz(quiz: Record, nowMs: nat, now: string): (q: Record)
    ensures Truthy(Get(quiz, "quizId")) ==> Get(q, "quizId") == Get(quiz, "quizId")
    ensures !Truthy(Get(quiz, "quizId")) ==> Get(q, "quizId") == Some(Str("quiz_" + NatToString(nowMs)))
    ensures Get(q, "version") == Some(Num(1)) && Get(q, "createdAt") == Some(Str(now))
    ensures forall k :: k in quiz && k !in {"quizId", "createdAt", "version"} ==> k in q && q[k] == quiz[k]
  {
    Merge(quiz, map["quizId" := Or(Get(quiz, "quizId"), Str("quiz_" + NatToString(nowMs))),
                    "createdAt" := Str(now), "version" := Num(1)])
  }

  /** The one-question quiz `generateQuiz` writes for a material. */
  function GeneratedQuiz(materialId: string, material: Record, nowMs: nat, now: string): (q: Record)
    ensures Get(q, "quizId") == Some(Str("quiz_" + NatToString(nowMs)))
    ensures Get(q, "materialId") == Some(Str(materialId))
    ensures Get(q, "title") == Some(Str("Quiz: " + Display(Get(material, "title"))))
    ensures Get(q, "version") == Some(Num(1))
  {
    var title := Display(Get(material, "title"));
    var question := map[
      "questionId" := Str("q1"),
      "type" := Str("mcq"),
      "question" := Str("What is the key selling point of " + title + "?"),
      "options" := Arr([Str("Price"), Str("Performance"), Str("Design"), Str("All of the above")]),
      "answer" := Num(3),
      "explanation" := Str("AI analyzed the content and determined these factors.")];
    map[
      "quizId" := Str("quiz_" + NatToString(nowMs)),
      "materialId" := Str(materialId),
      "title" := Str("Quiz: " + title),
      "questions" := Arr([Obj(question)]),
      "difficulty" := Num(2),
      "tags" := Arr([Str("auto"), Str("generated")]),
      "createdAt" := Str(now),
      "version" := Num(1)]
  }

  /** The date part of an ISO timestamp: `iso.split('T')[0]`. */
  function DatePart(iso: string): (d: string)
    ensures |d| <= |iso| && d == iso[..|d|]
    ensures 'T' !in d
    ensures |d| < |iso| ==> iso[|d|] == 'T'
  {
    if iso == [] || iso[0] == 'T' then [] else [iso[0]] + DatePart(iso[1..])
  }

  /** The user `createUser` stores: a generated id, the join date and
    * status 'Active' override the caller's fields. */
  function NewUser(user: Record, nowMs: nat, now: string): (u: Record)
    ensures Get(u, "id") == Some(Str("u_" + NatToString(nowMs)))
    ensures Get(u, "joined") == Some(Str(DatePart(now))) && Get(u, "status") == Some(Str("Active"))
    ensures forall k :: k in user && k !in {"id", "joined", "status"} ==> k in u && u[k] == user[k]
  {
    Merge(user, map["id" := Str("u_" + NatToString(nowMs)), "joined" := Str(DatePart(now)), "status" := Str("Active")])
  }

  // ---- Personas ----

  /** The entries of a record's `regions` array (none when it is not one). */
  function Regions(p: Record): seq<Value>
  {
    if "regions" in p && p["regions"].Arr? then p["regions"].items else []
  }

  function InRegion(region: string): Record -> bool
  {
    p => Str(region) in Regions(p) || Str("GLOBAL") in Regions(p)
  }

  /** The list `getPersonas(regionFilter)` answers with. */
  function PersonasFor(personas: seq<Record>, regionFilter: Option<string>): seq<Record>
  {
    if regionFilter.Some? && regionFilter.value != [] then Filter(InRegion(regionFilter.value), personas)
    else personas
  }

  /** With a non-empty filter, a persona is listed exactly when its regions
    * name the filter or GLOBAL, in the stored order; with none, all are. */
  lemma PersonasForFacts(personas: seq<Record>, regionFilter: Option<string>, p: Record)
    ensures regionFilter.None? || regionFilter.value == [] ==> PersonasFor(personas, regionFilter) == personas
    ensures regionFilter.Some? && regionFilter.value != [] ==>
      (p in PersonasFor(personas, regionFilter) <==>
        p in personas && (Str(regionFilter.value) in Regions(p) || Str("GLOBAL") in Regions(p)))
    ensures IsSubsequence(PersonasFor(personas, regionFilter), personas)
  {
    if regionFilter.Some? && regionFilter.value != [] {
      FilterMembership(InRegion(regionFilter.value), personas, p);
      FilterIsSubsequence(InRegion(regionFilter.value), personas);
    } else {
      FilterIsSubsequence(_ => true, personas);
      FilterAllPass(_ => true, personas);
    }
  }

  // ---- Gamification ----

  /** The gamification state of the simulated user `u_01`. */
  datatype XpState = XpState(currentXp: int, level: int, nextLevelXp: int)

  /** The XP step of `runSimulation`: 50 XP, and one level-up when the new
    * total reaches the threshold. */
  function AwardXp(g: XpState): XpState
  {
    var xp := g.currentXp + 50;
    if xp >= g.nextLevelXp then XpState(xp, g.level + 1, g.nextLevelXp + 1000)
    else g.(currentXp := xp)
  }

  /** `n` simulations in a row. */
  function AwardXpTimes(g: XpState, n: nat): XpState
  {
    if n == 0 then g else AwardXp(AwardXpTimes(g, n - 1))
  }

  /** One simulation adds 50 XP without resetting it and levels up at most
    * once, exactly when the new total reaches the threshold, which then
    * rises by 1000. */
  lemma AwardXpStep(g: XpState)
    ensures AwardXp(g).currentXp == g.currentXp + 50
    ensures AwardXp(g).level == g.level + 1 <==> g.currentXp + 50 >= g.nextLevelXp
    ensures AwardXp(g).level == g.level <==> g.currentXp + 50 < g.nextLevelXp
    ensures AwardXp(g).nextLevelXp - g.nextLevelXp == 1000 * (AwardXp(g).level - g.level)
  {
  }

  /** Over `n` simulations XP grows by exactly 50 per run, at most `n`
    * levels are gained, and the threshold rises by 1000 per level gained. */
  lemma {:induction false} AwardXpTimesFacts(g: XpState, n: nat)
    ensures AwardXpTimes(g, n).currentXp == g.currentXp + 50 * n
    ensures g.level <= AwardXpTimes(g, n).level <= g.level + n
    ensures AwardXpTimes(g, n).nextLevelXp - g.nextLevelXp == 1000 * (AwardXpTimes(g, n).level - g.level)
  {
    if n > 0 {
      AwardXpTimesFacts(g, n - 1);
      AwardXpStep(AwardXpTimes(g, n - 1));
    }
  }

  /** The `productContext?.type` of the simulation parameters. */
  function ProductType(params: Record): Option<Value>
  {
    if "productContext" in params && params["productContext"].Obj? then Get(params["productContext"].fields, "type")
    else None
  }

  /** The single simulated customer turn `runSimulation` answers with. Its
    * `stageId` is `params.initialStageId` as given: absent (undefined) when
    * the parameters have none, whatever value they carry otherwise. */
  function SimulatedTurns(params: Record): (r: Value)
    ensures r.Obj? && "turns" in r.fields && r.fields["turns"].Arr? && |r.fields["turns"].items| == 1
    ensures var turn := r.fields["turns"].items[0];
      turn.Obj? && Get(turn.fields, "stageId") == Get(params, "initialStageId")
    ensures var turn := r.fields["turns"].items[0];
      turn.Obj? && Get(turn.fields, "turnIndex") == Some(Num(1)) && Get(turn.fields, "speaker") == Some(Str("customer"))
      && Get(turn.fields, "firedRules") == Some(Arr([]))
  {
    var product := Display(Some(Or(ProductType(params), Str("this product"))));
    var turn := map[
      "turnIndex" := Num(1),
      "speaker" := Str("customer"),
      "utterance" := Str("(Simulated V2) Hello. I am interested in " + product + ". [MOCK: UPM Stats & XP Updated]"),
      "firedRules" := Arr([])];
    var stage := if "initialStageId" in params then map["stageId" := params["initialStageId"]] else map[];
    Obj(map["turns" := Arr([Obj(turn + stage)])])
  }

  /** The tables the client changes. `stats` is the simulated user's
    * session count, `game` their gamification state (either may be absent). */
  datatype Db = Db(
    catalog: seq<Value>,
    personas: seq<Record>,
    scenarios: seq<Record>,
    prompts: seq<Record>,
    upsellRules: seq<Record>,
    materials: seq<Record>,
    quizzes: seq<Record>,
    users: seq<Record>,
    totalSessions: Option<int>,
    game: Option<XpState>)

  class OperatorApiClient {
    var db: Db
    var session: SessionContext

    /** The client over the database loaded at start-up. */
    constructor(loaded: Db)
      ensures db == loaded && session == DefaultSession
    {
      db := loaded;
      session := DefaultSession;
    }

    /** `updateProductCatalog`: admins replace the catalog; anyone else gets
      * FORBIDDEN and the catalog stays as it was. */
    method UpdateProductCatalog(newCatalog: seq<Value>, now: string) returns (e: Envelope)
      modifies this
      ensures session == old(session)
      ensures old(session.role) != "ADMIN" ==>
        db == old(db) && e == CreateError("FORBIDDEN", Some("Admin only"), now)
      ensures old(session.role) == "ADMIN" ==>
        db == old(db).(catalog := newCatalog)
        && e == CreateResponse(Obj(map["catalog" := Arr(newCatalog)]), session.scope, now)
    {
      if session.role != "ADMIN" {
        e := CreateError("FORBIDDEN", Some("Admin only"), now);
        return;
      }
      db := db.(catalog := newCatalog);
      e := CreateResponse(Obj(map["catalog" := Arr(db.catalog)]), session.scope, now);
    }

    /** `getPersonas(regionFilter)`: changes nothing. */
    method GetPersonas(regionFilter: Option<string>, now: string) returns (e: Envelope)
      ensures e == CreateResponse(Listing("personas", PersonasFor(db.personas, regionFilter)), session.scope, now)
    {
      var list := db.personas;
      if regionFilter.Some? && regionFilter.value != [] {
        list := Filter(InRegion(regionFilter.value), list);
      }
      e := CreateResponse(Listing("personas", list), session.scope, now);
    }

    /** `createScenario`: appends exactly one record. */
    method CreateScenario(scenario: Record, nowMs: nat, now: string) returns (e: Envelope)
      modifies this
      ensures session == old(session)
      ensures db == old(db).(scenarios := old(db).scenarios + [NewScenario(scenario, nowMs)])
      ensures e == CreateResponse(Single("scenario", NewScenario(scenario, nowMs)), session.scope, now)
    {
      var s := NewScenario(scenario, nowMs);
      db := db.(scenarios := db.scenarios + [s]);
      e := CreateResponse(Single("scenario", s), session.scope, now);
    }

    /** The facade's `updateScenario(id, u)` as written: it forwards to an
      * `updateScenario` method the client class does not define, so the
      * call throws a TypeError and the scenarios stay as they were. */
    method UpdateScenarioAsWritten(scenarioId: string, updates: Record, now: string) returns (threw: bool)
      ensures threw
      ensures db == old(db) && session == old(session)
    {
      threw := true;
    }

    /** The facade's `deleteScenario(id)` as written: it forwards to a
      * `deleteScenario` method the client class does not define, so the
      * call throws a TypeError and the scenarios stay as they were. */
    method DeleteScenarioAsWritten(scenarioId: string, now: string) returns (threw: bool)
      ensures threw
      ensures db == old(db) && session == old(session)
    {
      threw := true;
    }

    /** `updateScenario` as intended, in the manner of the client's other
      * updates: merges the updates into the first scenario with that id;
      * NOT_FOUND and no change when there is none. */
    method UpdateScenario(scenarioId: string, updates: Record, now: string) returns (e: Envelope)
      modifies this
      ensures session == old(session)
      ensures var k := FindIndex(IdIs("scenarioId", scenarioId), old(db).scenarios);
        if k == -1 then db == old(db) && e == CreateError("NOT_FOUND", None, now)
        else
          var s := Merge(old(db).scenarios[k], updates);
          db == old(db).(scenarios := old(db).scenarios[k := s])
          && e == CreateResponse(Single("scenario", s), session.scope, now)
    {
      var k := FindIndex(IdIs("scenarioId", scenarioId), db.scenarios);
      if k != -1 {
        var s := Merge(db.scenarios[k], updates);
        db := db.(scenarios := db.scenarios[k := s]);
        e := CreateResponse(Single("scenario", s), session.scope, now);
        return;
      }
      e := CreateError("NOT_FOUND", None, now);
    }

    /** `deleteScenario` as intended, in the manner of the client's other
      * deletes: drops every scenario with that id; succeeds exactly when one
      * existed, and otherwise answers NOT_FOUND with the table unchanged. */
    method DeleteScenario(scenarioId: string, now: string) returns (e: Envelope)
      modifies this
      ensures session == old(session)
      ensures db == old(db).(scenarios := Filter(IdIsNot("scenarioId", scenarioId), old(db).scenarios))
      ensures e.success <==> exists i :: 0 <= i < |old(db).scenarios| && HasId(old(db).scenarios[i], "scenarioId", scenarioId)
      ensures e.success ==> e == CreateResponse(Obj(map["success" := Bool(true)]), session.scope, now)
      ensures !e.success ==> db == old(db) && e == CreateError("NOT_FOUND", None, now)
    {
      var initialLen := |db.scenarios|;
      FilterShrinksIff(IdIsNot("scenarioId", scenarioId), db.scenarios);
      db := db.(scenarios := Filter(IdIsNot("scenarioId", scenarioId), db.scenarios));
      if |db.scenarios| < initialLen {
        e := CreateResponse(Obj(map["success" := Bool(true)]), session.scope, now);
        return;
      }
      FilterAllPass(IdIsNot("scenarioId", scenarioId), old(db).scenarios);
      e := CreateError("NOT_FOUND", None, now);
    }

    /** `updatePrompt`: merges the content into the first prompt with that
      * id; NOT_FOUND and no change when there is none. */
    method UpdatePrompt(promptId: string, content: Record, now: string) returns (e: Envelope)
      modifies this
      ensures session == old(session)
      ensures var k := FindIndex(IdIs("promptId", promptId), old(db).prompts);
        if k == -1 then db == old(db) && e == CreateError("NOT_FOUND", None, now)
        else
          var p := Merge(old(db).prompts[k], content);
          db == old(db).(prompts := old(db).prompts[k := p])
          && e == CreateResponse(Single("prompt", p), session.scope, now)
    {
      var k := FindIndex(IdIs("promptId", promptId), db.prompts);
      if k != -1 {
        var p := Merge(db.prompts[k], content);
        db := db.(prompts := db.prompts[k := p]);
        e := CreateResponse(Single("prompt", p), session.scope, now);
        return;
      }
      e := CreateError("NOT_FOUND", None, now);
    }

    /** `createUpsellRule`: appends the rule. */
    method CreateUpsellRule(rule: Record, now: string) returns (e: Envelope)
      modifies this
      ensures session == old(session)
      ensures db == old(db).(upsellRules := old(db).upsellRules + [rule])
      ensures e == CreateResponse(Single("rule", rule), session.scope, now)
    {
      db := db.(upsellRules := db.upsellRules + [rule]);
      e := CreateResponse(Single("rule", rule), session.scope, now);
    }

    /** `updateUpsellRule`: replaces the first rule with that id, if any, and
      * reports success either way. */
    method UpdateUpsellRule(id: string, rule: Record, now: string) returns (e: Envelope)
      modifies this
      ensures session == old(session)
      ensures var k := FindIndex(IdIs("id", id), old(db).upsellRules);
        db == (if k == -1 then old(db) else old(db).(upsellRules := old(db).upsellRules[k := rule]))
      ensures e == CreateResponse(Single("rule", rule), session.scope, now)
    {
      var k := FindIndex(IdIs("id", id), db.upsellRules);
      if k != -1 {
        db := db.(upsellRules := db.upsellRules[k := rule]);
      }
      e := CreateResponse(Single("rule", rule), session.scope, now);
    }

    /** `deleteUpsellRule`: drops every rule with that id; always succeeds. */
    method DeleteUpsellRule(id: string, now: string) returns (e: Envelope)
      modifies this
      ensures session == old(session)
      ensures db == old(db).(upsellRules := Filter(IdIsNot("id", id), old(db).upsellRules))
      ensures e == CreateResponse(Obj(map["success" := Bool(true)]), session.scope, now)
    {
      db := db.(upsellRules := Filter(IdIsNot("id", id), db.upsellRules));
      e := CreateResponse(Obj(map["success" := Bool(true)]), session.scope, now);
    }

    /** `updateMaterial`: merges the updates into the first material with
      * that id, bumps its version and stamps it; NOT_FOUND otherwise. */
    method UpdateMaterial(materialId: string, updates: Record, now: string) returns (e: Envelope)
      modifies this
      ensures session == old(session)
      ensures var k := FindIndex(IdIs("materialId", materialId), old(db).materials);
        if k == -1 then db == old(db) && e == CreateError("NOT_FOUND", None, now)
        else
          var m := VersionedMerge(old(db).materials[k], updates, Some(now));
          db == old(db).(materials := old(db).materials[k := m])
          && e == CreateResponse(Single("material", m), session.scope, now)
    {
      var k := FindIndex(IdIs("materialId", materialId), db.materials);
      if k != -1 {
        var m := VersionedMerge(db.materials[k], updates, Some(now));
        db := db.(materials := db.materials[k := m]);
        e := CreateResponse(Single("material", m), session.scope, now);
        return;
      }
      e := CreateError("NOT_FOUND", None, now);
    }

    /** `createQuiz`: appends one version-1 quiz. */
    method CreateQuiz(quiz: Record, nowMs: nat, now: string) returns (e: Envelope)
      modifies this
      ensures session == old(session)
      ensures db == old(db).(quizzes := old(db).quizzes + [NewQuiz(quiz, nowMs, now)])
      ensures e == CreateResponse(Single("quiz", NewQuiz(quiz, nowMs, now)), session.scope, now)
    {
      var q := NewQuiz(quiz, nowMs, now);
      db := db.(quizzes := db.quizzes + [q]);
      e := CreateResponse(Single("quiz", q), session.scope, now);
    }

    /** `updateQuiz`: merges the updates into the first quiz with that id and
      * bumps its version; NOT_FOUND otherwise. */
    method UpdateQuiz(quizId: string, updates: Record, now: string) returns (e: Envelope)
      modifies this
      ensures session == old(session)
      ensures var k := FindIndex(IdIs("quizId", quizId), old(db).quizzes);
        if k == -1 then db == old(db) && e == CreateError("NOT_FOUND", None, now)
        else
          var q := VersionedMerge(old(db).quizzes[k], updates, None);
          db == old(db).(quizzes := old(db).quizzes[k := q])
          && e == CreateResponse(Single("quiz", q), session.scope, now)
    {
      var k := FindIndex(IdIs("quizId", quizId), db.quizzes);
      if k != -1 {
        var q := VersionedMerge(db.quizzes[k], updates, None);
        db := db.(quizzes := db.quizzes[k := q]);
        e := CreateResponse(Single("quiz", q), session.scope, now);
        return;
      }
      e := CreateError("NOT_FOUND", None, now);
    }

    /** `deleteQuiz`: drops every quiz with that id; succeeds exactly when one
      * existed, and otherwise answers NOT_FOUND with the table unchanged. */
    method DeleteQuiz(quizId: string, now: string) returns (e: Envelope)
      modifies this
      ensures session == old(session)
      ensures db == old(db).(quizzes := Filter(IdIsNot("quizId", quizId), old(db).quizzes))
      ensures e.success <==> exists i :: 0 <= i < |old(db).quizzes| && HasId(old(db).quizzes[i], "quizId", quizId)
      ensures e.success ==> e == CreateResponse(Obj(map["success" := Bool(true)]), session.scope, now)
      ensures !e.success ==> db == old(db) && e == CreateError("NOT_FOUND", None, now)
    {
      var initialLen := |db.quizzes|;
      FilterShrinksIff(IdIsNot("quizId", quizId), db.quizzes);
      db := db.(quizzes := Filter(IdIsNot("quizId", quizId), db.quizzes));
      if |db.quizzes| < initialLen {
        e := CreateResponse(Obj(map["success" := Bool(true)]), session.scope, now);
        return;
      }
      FilterAllPass(IdIsNot("quizId", quizId), old(db).quizzes);
      e := CreateError("NOT_FOUND", None, now);
    }

    /** `generateQuiz`: NOT_FOUND for an unknown material; otherwise appends
      * the generated quiz and marks that material's module completed. */
    method GenerateQuiz(materialId: string, nowMs: nat, now: string) returns (e: Envelope)
      modifies this
      ensures session == old(session)
      ensures var k := FindIndex(IdIs("materialId", materialId), old(db).materials);
        if k == -1 then db == old(db) && e == CreateError("NOT_FOUND", Some("Material not found"), now)
        else
          var q := GeneratedQuiz(materialId, old(db).materials[k], nowMs, now);
          var done := Obj(map["status" := Str("completed"), "moduleId" := q["quizId"]]);
          db == old(db).(quizzes := old(db).quizzes + [q],
                         materials := old(db).materials[k := old(db).materials[k]["autoGeneratedModule" := done]])
          && e == CreateResponse(Single("quiz", q), session.scope, now)
    {
      var k := FindIndex(IdIs("materialId", materialId), db.materials);
      if k == -1 {
        e := CreateError("NOT_FOUND", Some("Material not found"), now);
        return;
      }
      var q := GeneratedQuiz(materialId, db.materials[k], nowMs, now);
      db := db.(quizzes := db.quizzes + [q]);
      var done := Obj(map["status" := Str("completed"), "moduleId" := q["quizId"]]);
      db := db.(materials := db.materials[k := db.materials[k]["autoGeneratedModule" := done]]);
      e := CreateResponse(Single("quiz", q), session.scope, now);
    }

    /** The counters of `runSimulation`: one more session and the XP award,
      * each only when that state exists. */
    method RunSimulation(params: Record, now: string) returns (e: Envelope)
      modifies this
      ensures session == old(session)
      ensures db.totalSessions == (if old(db).totalSessions.Some? then Some(old(db).totalSessions.value + 1) else None)
      ensures db.game == (if old(db).game.Some? then Some(AwardXp(old(db).game.value)) else None)
      ensures db == old(db).(totalSessions := db.totalSessions, game := db.game)
      ensures e == CreateResponse(SimulatedTurns(params), session.scope, now)
    {
      if db.totalSessions.Some? {
        db := db.(totalSessions := Some(db.totalSessions.value + 1));
      }
      if db.game.Some? {
        var g := db.game.value;
        g := g.(currentXp := g.currentXp + 50);
        if g.currentXp >= g.nextLevelXp {
          g := g.(level := g.level + 1, nextLevelXp := g.nextLevelXp + 1000);
        }
        db := db.(game := Some(g));
      }
      e := CreateResponse(SimulatedTurns(params), session.scope, now);
    }

    /** `createUser`: appends the user with generated id, join date and
      * status. */
    method CreateUser(user: Record, nowMs: nat, now: string) returns (e: Envelope)
      modifies this
      ensures session == old(session)
      ensures db == old(db).(users := old(db).users + [NewUser(user, nowMs, now)])
      ensures e == CreateResponse(Single("user", NewUser(user, nowMs, now)), session.scope, now)
    {
      var u := NewUser(user, nowMs, now);
      db := db.(users := db.users + [u]);
      e := CreateResponse(Single("user", u), session.scope, now);
    }

    /** `updateUser`: merges the updates into the first user with that id;
      * NOT_FOUND otherwise. */
    method UpdateUser(userId: string, updates: Record, now: string) returns (e: Envelope)
      modifies this
      ensures session == old(session)
      ensures var k := FindIndex(IdIs("id", userId), old(db).users);
        if k == -1 then db == old(db) && e == CreateError("NOT_FOUND", None, now)
        else
          var u := Merge(old(db).users[k], updates);
          db == old(db).(users := old(db).users[k := u])
          && e == CreateResponse(Single("user", u), session.scope, now)
    {
      var k := FindIndex(IdIs("id", userId), db.users);
      if k != -1 {
        var u := Merge(db.users[k], updates);
        db := db.(users := db.users[k := u]);
        e := CreateResponse(Single("user", u), session.scope, now);
        return;
      }
      e := CreateError("NOT_FOUND", None, now);
    }

    /** `deleteUser`: drops every user with that id; succeeds exactly when one
      * existed, and otherwise answers NOT_FOUND with the table unchanged. */
    method DeleteUser(userId: string, now: string) returns (e: Envelope)
      modifies this
      ensures session == old(session)
      ensures db == old(db).(users := Filter(IdIsNot("id", userId), old(db).users))
      ensures e.success <==> exists i :: 0 <= i < |old(db).users| && HasId(old(db).users[i], "id", userId)
      ensures e.success ==> e == CreateResponse(Obj(map["success" := Bool(true)]), session.scope, now)
      ensures !e.success ==> db == old(db) && e == CreateError("NOT_FOUND", None, now)
    {
      var initialLen := |db.users|;
      FilterShrinksIff(IdIsNot("id", userId), db.users);
      db := db.(users := Filter(IdIsNot("id", userId), db.users));
      if |db.users| < initialLen {
        e := CreateResponse(Obj(map["success" := Bool(true)]), session.scope, now);
        return;
      }
      FilterAllPass(IdIsNot("id", userId), old(db).users);
      e := CreateError("NOT_FOUND", None, now);
    }
  }

  /** After a delete no record with the id is left, and every other record
    * keeps its multiplicity. */
  lemma DeleteRemovesExactly(rs: seq<Record>, key: string, id: string, r: Record)
    ensures forall i :: 0 <= i < |Filter(IdIsNot(key, id), rs)| ==> !HasId(Filter(IdIsNot(key, id), rs)[i], key, id)
    ensures !HasId(r, key, id) ==> multiset(Filter(IdIsNot(key, id), rs))[r] == multiset(rs)[r]
  {
    FilterCount(IdIsNot(key, id), rs, r);
  }

  /** Saving the drawer of a listed scenario: through the facade as written
    * the scenario keeps its old fields, while the intended update merges
    * the form into it. */
  method UpdateScenarioDiscrepancy(client: OperatorApiClient, scenarioId: string, form: Record, now: string)
    returns (asWritten: seq<Record>, intended: seq<Record>)
    requires FindIndex(IdIs("scenarioId", scenarioId), client.db.scenarios) != -1
    modifies client
    ensures asWritten == old(client.db.scenarios)
    ensures var k := FindIndex(IdIs("scenarioId", scenarioId), asWritten);
      0 <= k < |intended| == |asWritten| && intended[k] == Merge(asWritten[k], form)
  {
    var threw := client.UpdateScenarioAsWritten(scenarioId, form, now);
    asWritten := client.db.scenarios;
    var e := client.UpdateScenario(scenarioId, form, now);
    intended := client.db.scenarios;
  }

  /** Deleting a listed scenario: through the facade as written the
    * scenario is still there afterwards, while the intended delete leaves
    * no scenario with that id. */
  method DeleteScenarioDiscrepancy(client: OperatorApiClient, scenarioId: string, now: string)
    returns (asWritten: seq<Record>, intended: seq<Record>)
    requires exists i :: 0 <= i < |client.db.scenarios| && HasId(client.db.scenarios[i], "scenarioId", scenarioId)
    modifies client
    ensures exists i :: 0 <= i < |asWritten| && HasId(asWritten[i], "scenarioId", scenarioId)
    ensures forall i :: 0 <= i < |intended| ==> !HasId(intended[i], "scenarioId", scenarioId)
  {
    var threw := client.DeleteScenarioAsWritten(scenarioId, now);
    asWritten := client.db.scenarios;
    var e := client.DeleteScenario(scenarioId, now);
    intended := client.db.scenarios;
    DeleteRemovesExactly(old(client.db.scenarios), "scenarioId", scenarioId, map[]);
  }
}
