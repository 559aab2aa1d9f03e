# Retail-Trainer, modelled in Dafny

Retail-Trainer is a single-page sales training application for retail staff.
It has several parts:

- **Sales Lab.** A trainee sets up a simulated customer (traits, a persona
  preset, a product and a screen size). The trainee then role-plays a sale
  in a chat with a generative model and receives a scored feedback report.
  A rule engine suggests which product family to recommend and whether to
  upsell a larger screen.
- **Learning.** A study room shows courses and modules, a FAQ is searchable,
  a short quiz awards a badge, and an AI tutor chat can speak its answers.
- **Operator console.** Screens for quizzes, scenarios, the product catalog,
  users and uploaded content, backed by a mock operator service that keeps
  its tables in memory.
- **State.** Client-side stores for the learner profile, the application
  settings and the chat, plus a login service and a global settings service.

This project models that logic in Dafny, one module per source file:

- Values (records, reference tables, replies, envelopes) are datatypes.
  Functions and lemmas state what the rules compute.
- Services, stores and screens whose state changes step by step are classes.
  Their methods update the fields in place, and their `ensures` clauses give
  the whole new state.
- Loops (the stream accumulation, the listener notification, the file upload
  loop, the XP counter) are methods with loop invariants.
- Shared modules model the JavaScript building blocks the application relies
  on:
  - `JsText`: `trim`, `toLowerCase`, `includes`, `replace`;
  - `JsValue`: dynamic values, the object spread, truthiness, template
    strings;
  - `SeqFilter`: `filter`, `find`, `findIndex`;
  - `StableSort`: the stable `Array.prototype.sort`;
  - `Wrappers`: `Option` and key-ordered object literals.

Inputs the program cannot control become parameters:

- clock readings and random suffixes;
- the generative model's replies and analyses;
- what the browser's storage returns;
- the answers of the operator service.

Each asynchronous handler is modelled as running to completion before the
next event.

## Model

| member | source | states |
|---|---|---|
| RecommendationEngine.Entries | src/lib/recommendationEngine.js:53 | the entries list the four families in the scores object's key order (OLED, MRGB, QNED, UHD), each with its own score |
| RecommendationEngine.EntryOfFamily | src/lib/recommendationEngine.js:53 | every family sits at its key position among the entries |
| RecommendationEngine.BestIsFirstTop | src/lib/recommendationEngine.js:53-57 | the best match has the top score, and among families tied at the top it is the first in key order (the sort is stable) |
| RecommendationEngine.AlternativeIndex | src/lib/recommendationEngine.js:53-58 | the alternative is the top-scoring entry once the best match is set aside, the first in key order among ties |
| RecommendationEngine.AlternativeIsRunnerUp | src/lib/recommendationEngine.js:53-58 | the alternative differs from the best match, scores at least as high as every other family, and wins ties by key order |
| RecommendationEngine.BestOf | src/lib/recommendationEngine.js:53-57 | the best match is the family at the first index, in key order, of the top score among the entries |
| RecommendationEngine.AlternativeOf | src/lib/recommendationEngine.js:53-58 | the alternative is the family at the first index, in key order, of the top score among the entries left once the best match is removed |
| RecommendationEngine.Ranking | src/lib/recommendationEngine.js:53-58 | best match and alternative differ; the best match has the top score, the alternative the top score among the other families, each winning ties by key order |
| RecommendationEngine.CalculateProductScores | src/lib/recommendationEngine.js:16-60 | the loop's scores are the sum of the weight rows of the traits plus the persona adjustment; best match and alternative are distinct, top and runner-up, ties broken by key order |
| RecommendationEngine.CalculateUpsellScore | src/lib/recommendationEngine.js:69-106 | the counter ends at 1 + the persona term (+2 for premium_lifestyle, gamer, family_user; -2 for budget_seeker) + the trait terms + 1 for 30s/40s/50s, between -3 and 12; 'Strong' exactly when it is at least 3, 'Soft' exactly for 1 and 2, 'None' otherwise |
| RecommendationEngine.AddTraitTerms | src/lib/recommendationEngine.js:83-89 | the trait factors add exactly the trait term to the running score, each factor once whatever the repetitions |
| RecommendationEngine.TraitTotalConcat | src/lib/recommendationEngine.js:26-34 | the trait part of the scores over a concatenation is the sum of the parts |
| RecommendationEngine.TraitAddsItsRow | src/lib/recommendationEngine.js:26-34 | each trait adds exactly its weight row, wherever it stands in the list |
| RecommendationEngine.UnknownTraitChangesNothing | src/lib/recommendationEngine.js:27-28 | a trait id without a weight row (brand_focused, for one) leaves the scores unchanged |
| RecommendationEngine.TraitOrderIrrelevant | src/lib/recommendationEngine.js:26-34 | the order of the traits does not change the scores |
| RecommendationEngine.NeutralInputsScoreZero | src/lib/recommendationEngine.js:16-59 | with no traits and a persona other than the three adjusted ids every family scores 0, so the best match is OLED and the alternative MRGB |
| RecommendationEngine.GamerAdjustmentUnreachable | src/lib/recommendationEngine.js:37-49 | for every shipped persona only the premium_lifestyle and budget_seeker adjustments can apply; the 'gamer' branch never fires because the gaming persona's id is hardcore_gamer |
| RecommendationEngine.UpsellIgnoresRepeats | src/lib/recommendationEngine.js:83-89 | repeating a trait does not change the upsell score: each trait test is an `includes` |
| SalesLabData.SnakeKey | src/components/sales-lab/SalesLabSetup.jsx:47 | the recommendation id of a trait key keeps its length and has no '-' and no upper-case ASCII letter |
| SalesLabData.AllTraitsInOrder | src/constants/salesLabData.js:177-194 | `ALL_TRAITS` is exactly the fourteen trait definition keys, in declaration order |
| SalesLabData.PersonaTraitsDefined | src/constants/salesLabData.js:1-142 | every persona's surface traits are trait definition keys |
| SalesLabData.PersonaTraitCounts | src/constants/salesLabData.js:1-142 | every persona has two surface traits, except tech_expert, which has three |
| SalesLabData.PersonaIds | src/constants/salesLabData.js:1-142 | the persona ids in `PERSONAS` order |
| SalesLabData.UpsellTriggerKeys | src/constants/salesLabData.js:222-298 | the upsell table has one entry per persona id, in persona order, and then social_host, which is not a persona |
| SalesLabData.DifficultyLevelsOneToFive | src/constants/salesLabData.js:144-175 | the difficulty levels are exactly 1 to 5, in increasing order |
| SalesLabData.AdjacentAscendingIsStrict | src/constants/salesLabData.js:203-217 | a size list whose neighbours ascend is strictly ascending throughout |
| SalesLabData.CatalogModelsWellFormed | src/constants/salesLabData.js:196-220 | every catalog model offers at least one size, with sizes strictly ascending |
| SalesLabData.CategoriesOnlyForTv | src/constants/salesLabData.js:197-200 | only the TV type has a category list (OLED, QNED, UHD, Micro LED); the other types have none |
| SalesLabData.SnakeKeysPriceQuick | src/components/sales-lab/SalesLabSetup.jsx:47 | the snake-cased ids of Price-sensitive and Quick-decider are price_sensitive and quick_decider |
| SalesLabData.SnakeKeysTechDeliberate | src/components/sales-lab/SalesLabSetup.jsx:47 | the snake-cased ids of Tech-oriented and Deliberate are tech_oriented and deliberate |
| SalesLabData.SnakeKeysGamerBrand | src/components/sales-lab/SalesLabSetup.jsx:47 | the snake-cased ids of Gamer-oriented and Brand-focused are gamer_oriented and brand_focused |
| SalesLabData.SnakeKeysDesignFamily | src/components/sales-lab/SalesLabSetup.jsx:47 | the snake-cased ids of Design-focused and Family-oriented are design_focused and family_oriented |
| SalesLabData.SnakeKeysDurabilityUi | src/components/sales-lab/SalesLabSetup.jsx:47 | the snake-cased ids of Durability-focused and UI-simplicity are durability_focused and ui_simplicity |
| SalesLabData.SnakeKeysEnvironmentMovie | src/components/sales-lab/SalesLabSetup.jsx:47 | the snake-cased ids of Environment-sensitive and Movie-lover are environment_sensitive and movie_lover |
| SalesLabData.SnakeKeysSportsSocial | src/components/sales-lab/SalesLabSetup.jsx:47 | the snake-cased ids of Sports-fan and Social-host are sports_fan and social_host |
| SalesLabData.WeightsForEveryTraitButBrand | src/constants/salesLabData.js:300-314 | `TRAIT_WEIGHTS` has a row for the snake-cased id of every trait key except Brand-focused, and no other rows |
| OperatorApi.CreateResponse | src/services/operatorApi.js:67-77 | a success envelope carries the data, no error, the mock API version, the clock reading and the caller's scope |
| OperatorApi.CreateError | src/services/operatorApi.js:79-87 | an error envelope is unsuccessful, carries null data, the code and message with null details, the clock reading as its timestamp, and no scope |
| OperatorApi.EnvelopeKinds | src/services/operatorApi.js:67-87 | an envelope reports success exactly when it carries no error, so a response is never an error |
| OperatorApi.Listing | src/services/operatorApi.js:188 | a `{ key: [records] }` payload holds one array item per record |
| OperatorApi.NewScenario | src/services/operatorApi.js:231 | the stored scenario is the caller's with id `sc_<clock>`, version 'v1.0' and published false; every other field is kept |
| OperatorApi.BumpVersion | src/services/operatorApi.js:372-376 | the next version is the old numeric version plus one, or 2 when the old one is falsy |
| OperatorApi.VersionedMerge | src/services/operatorApi.js:374-377 | the merged record has the bumped version, the update's fields win over the old ones, the old fields survive otherwise, nothing else is added |
| OperatorApi.NewQuiz | src/services/operatorApi.js:404-416 | the stored quiz keeps a truthy caller id, else gets `quiz_<clock>`; version 1 and the creation time; other fields kept |
| OperatorApi.GeneratedQuiz | src/services/operatorApi.js:443-482 | the generated quiz has id `quiz_<clock>`, the material id, the title 'Quiz: ' plus the material's title, and version 1 |
| OperatorApi.DatePart | src/services/operatorApi.js:603 | the join date is the part of the ISO timestamp before the first 'T' |
| OperatorApi.NewUser | src/services/operatorApi.js:597-609 | the stored user gets id `u_<clock>`, the join date and status 'Active'; other fields kept |
| OperatorApi.PersonasForFacts | src/services/operatorApi.js:182-188 | without a filter every persona is listed; with one, exactly the personas whose regions include it or 'GLOBAL', in order |
| OperatorApi.AwardXpStep | src/services/operatorApi.js:563-571 | one simulation adds 50 XP and levels up exactly when the new XP reaches the threshold, which then rises by 1000 |
| OperatorApi.AwardXpTimesFacts | src/services/operatorApi.js:563-571 | over n simulations XP grows by 50n, the level by at most n, and the threshold by 1000 per level gained |
| OperatorApi.OperatorApiClient.constructor | src/services/operatorApi.js:24-59 | the client starts on the loaded database with the default admin session |
| OperatorApi.OperatorApiClient.UpdateProductCatalog | src/services/operatorApi.js:153-161 | a non-admin gets FORBIDDEN and nothing changes; an admin replaces the catalog and gets it back |
| OperatorApi.OperatorApiClient.GetPersonas | src/services/operatorApi.js:182-189 | answers with the filtered persona list and changes nothing |
| OperatorApi.OperatorApiClient.CreateScenario | src/services/operatorApi.js:228-236 | appends exactly the new scenario and answers with it |
| OperatorApi.OperatorApiClient.UpdateScenarioAsWritten | src/services/operatorApi.js:737 | the facade's update entry forwards to a client method that does not exist: it always throws and the scenarios stay as they were |
| OperatorApi.OperatorApiClient.DeleteScenarioAsWritten | src/services/operatorApi.js:738 | the facade's delete entry forwards to a client method that does not exist: it always throws and the scenarios stay as they were |
| OperatorApi.OperatorApiClient.UpdateScenario | src/services/operatorApi.js:249-259 | the intended update, after the client's other updates: merges into the first scenario with the id, NOT_FOUND and no change without one |
| OperatorApi.OperatorApiClient.DeleteScenario | src/services/operatorApi.js:624-634 | the intended delete, after the client's other deletes: drops every scenario with the id, succeeds exactly when one existed, NOT_FOUND and no change otherwise |
| OperatorApi.UpdateScenarioDiscrepancy | src/services/operatorApi.js:737 | for a listed scenario, the shipped update leaves the table as it was while the intended one merges the form into that scenario |
| OperatorApi.DeleteScenarioDiscrepancy | src/services/operatorApi.js:738 | for a listed scenario, the shipped delete leaves it in the table while the intended one leaves no scenario with that id |
| OperatorApi.OperatorApiClient.UpdatePrompt | src/services/operatorApi.js:249-259 | merges the content into the first prompt with that id; NOT_FOUND and no change when there is none |
| OperatorApi.OperatorApiClient.CreateUpsellRule | src/services/operatorApi.js:262-266 | appends the rule and answers with it |
| OperatorApi.OperatorApiClient.UpdateUpsellRule | src/services/operatorApi.js:268-273 | replaces the first rule with that id, if any, and answers with the given rule either way |
| OperatorApi.OperatorApiClient.DeleteUpsellRule | src/services/operatorApi.js:275-279 | drops every rule with that id and always answers success |
| OperatorApi.OperatorApiClient.UpdateMaterial | src/services/operatorApi.js:368-384 | merges the updates into the first material with that id and bumps its version; NOT_FOUND and no change otherwise |
| OperatorApi.OperatorApiClient.CreateQuiz | src/services/operatorApi.js:404-417 | appends one version-1 quiz and answers with it |
| OperatorApi.OperatorApiClient.UpdateQuiz | src/services/operatorApi.js:419-429 | merges the updates into the first quiz with that id and bumps its version; NOT_FOUND and no change otherwise |
| OperatorApi.OperatorApiClient.DeleteQuiz | src/services/operatorApi.js:431-441 | drops every quiz with that id; succeeds exactly when one existed, NOT_FOUND and no change otherwise |
| OperatorApi.OperatorApiClient.GenerateQuiz | src/services/operatorApi.js:443-483 | NOT_FOUND for an unknown material; otherwise appends the generated quiz and answers with it |
| OperatorApi.OperatorApiClient.RunSimulation | src/services/operatorApi.js:525-590 | one more total session and the XP award when the simulated user has stats; nothing else changes; answers with the single simulated turn |
| OperatorApi.SimulatedTurns | src/services/operatorApi.js:580-589 | the answer holds exactly one turn: turn 1, spoken by the customer, with no fired rules and the parameters' `initialStageId` as its stage, absent when they have none |
| OperatorApi.OperatorApiClient.CreateUser | src/services/operatorApi.js:597-610 | appends exactly the new user and answers with it |
| OperatorApi.OperatorApiClient.UpdateUser | src/services/operatorApi.js:612-622 | merges the updates into the first user with that id; NOT_FOUND and no change otherwise |
| OperatorApi.OperatorApiClient.DeleteUser | src/services/operatorApi.js:624-634 | drops every user with that id; succeeds exactly when one existed, NOT_FOUND and no change otherwise |
| OperatorApi.DeleteRemovesExactly | src/services/operatorApi.js:431-441 | after a delete no record with the id is left, and every other record keeps its count |
| UserManagement.FindUser | src/services/userManagement.js:47 | a found user is a mock user with exactly that e-mail |
| UserManagement.FindUserIff | src/services/userManagement.js:12-34 | a user is found exactly for the three mock e-mail addresses |
| UserManagement.RoleIndex | src/services/userManagement.js:84-86 | the rank of a role in LEARNER < TRAINER < OPERATOR < ADMIN, or -1 exactly for a role not in the list |
| UserManagement.HasRoleRanks | src/services/userManagement.js:81-88 | logged out grants nothing; logged in, a listed role is granted exactly when the user's rank is at least the required rank |
| UserManagement.HasRoleOrder | src/services/userManagement.js:81-88 | every user has their own role, an ADMIN has every role, and a granted role grants every lower one |
| UserManagement.UnlistedRoleGranted | src/services/userManagement.js:85-87 | a required role outside the hierarchy ranks -1 and is granted to every logged-in user |
| UserManagement.UserManagementService.constructor | src/services/userManagement.js:37-42 | the service starts logged in as the admin with a `mock_token_<clock>` token |
| UserManagement.UserManagementService.Login | src/services/userManagement.js:46-55 | a known e-mail replaces the current user and token and answers success with the user; an unknown one changes nothing and answers 'User not found' |
| UserManagement.UserManagementService.Logout | src/services/userManagement.js:57-61 | clears the user and the token and answers success |
| UserManagement.UserManagementService.GetScopeContext | src/services/userManagement.js:72-75 | the current user's scope, or null exactly when logged out |
| UserManagement.UserManagementService.IsAuthenticated | src/services/userManagement.js:77-79 | a user is logged in, exactly when there is a scope to hand out |
| UserManagement.UserManagementService.HasRole | src/services/userManagement.js:81-88 | false when logged out; a logged-in user has their own role, an ADMIN has every role, and a role outside the hierarchy is granted to every logged-in user |
| UserManagement.AfterLogout | src/services/userManagement.js:57-88 | after logout the service is unauthenticated, has no scope and grants no role |
| SystemSettings.DefaultConfig | src/services/systemSettings.js:12-36 | the factory configuration has version 'v2.0.0-default' and the load time as `updatedAt` |
| SystemSettings.FeatureStatus | src/services/systemSettings.js:55-58 | a missing or null toggle table throws a TypeError; a feature without a toggle (or a falsy one) reads false; a truthy object toggle gives its `enabled` field, a truthy non-object `undefined` |
| SystemSettings.DefaultFeatures | src/services/systemSettings.js:26-31 | in the factory configuration three features are on, teamMissions is off, any other key has no toggle |
| SystemSettings.FeatureStatusAfterMerge | src/services/systemSettings.js:74-79 | after an update, features read from the partial's toggle table when it carries one, and from the old configuration's otherwise |
| SystemSettings.MergeSettings | src/services/systemSettings.js:74-79 | the new configuration has the new version and time, each top-level key of the update replaces the old one whole, other keys stay |
| SystemSettings.WithoutFacts | src/services/systemSettings.js:98-100 | unsubscribing removes every registration of the callback and keeps the others, in order |
| SystemSettings.SystemSettingsService.constructor | src/services/systemSettings.js:39-43 | the service starts on the factory configuration with no listeners |
| SystemSettings.SystemSettingsService.GetConfig | src/services/systemSettings.js:47-49 | the configuration as it is now |
| SystemSettings.SystemSettingsService.GetFeatureStatus | src/services/systemSettings.js:55-58 | on the current configuration: a TypeError exactly when the toggle table is missing or null, and false for a key the table does not hold |
| SystemSettings.SystemSettingsService.OnReload | src/services/systemSettings.js:95-97 | registers the callback at the end |
| SystemSettings.SystemSettingsService.Unsubscribe | src/services/systemSettings.js:98-100 | drops every registration of the callback |
| SystemSettings.SystemSettingsService.NotifyListeners | src/services/systemSettings.js:103-111 | every listener is called once, in registration order, with the current configuration; a throwing listener does not stop the others |
| SystemSettings.SystemSettingsService.UpdateSettings | src/services/systemSettings.js:66-89 | merges the update, keeps the listeners, calls each of them with the new configuration and answers success with the new version |
| UserStore.Advance | src/store/userStore.js:98-100 | completing the mission raises progress by one below the target and caps it at the target; target and other fields are kept |
| UserStore.AdvanceAtTarget | src/store/userStore.js:98 | once the target is reached, completing again changes nothing |
| UserStore.AdvanceTimesBounded | src/store/userStore.js:96-102 | n completions from below the target count up by one each until the target, then stay |
| UserStore.PrependCapped | src/store/userStore.js:105 | the new session comes first, followed by the newest earlier ones, at most five in all |
| UserStore.PrependCappedKeepsNewest | src/store/userStore.js:105 | the list never exceeds five entries and keeps the earlier sessions in order behind the new one |
| UserStore.SetProgress | src/store/userStore.js:106-108 | every entry with the course id gets the new progress; the others are unchanged |
| UserStore.SetProgressFacts | src/store/userStore.js:107 | only progress values change (ids and titles never do), and an unknown id changes nothing |
| UserStore.ToggleRole | src/store/userStore.js:109 | 'user' becomes 'admin'; every other role becomes 'user' |
| UserStore.ToggleRoleTwice | src/store/userStore.js:109 | toggling twice restores 'user' and 'admin'; any other role ends as 'admin' |
| UserStore.UserStoreState.constructor | src/store/userStore.js:3-92 | level 12 with 2450 of 5000 xp, role 'user', the seeded weakness analysis, sessions, courses and missions, and no daily mission or date |
| UserStore.SeedWeakness | src/store/userStore.js:11-22 | the seeded weakness analysis is an object with score 65 and trend -12 |
| UserStore.SeedListsFacts | src/store/userStore.js:25-36 | the seeded sessions are numbered 1 to 3 in order and the seeded course ids are distinct |
| UserStore.UserStoreState.SetDailyMission | src/store/userStore.js:95 | stores the mission with today's date; nothing else changes |
| UserStore.UserStoreState.CompleteDailyMission | src/store/userStore.js:96-102 | without a mission nothing changes; otherwise the mission advances |
| UserStore.UserStoreState.UpdateWeakness | src/store/userStore.js:104 | replaces the weakness analysis only |
| UserStore.UserStoreState.AddSession | src/store/userStore.js:105 | recent sessions become the capped list with the new session first |
| UserStore.UserStoreState.UpdateProgress | src/store/userStore.js:106-108 | learning progress is updated for the course id only |
| UserStore.UserStoreState.ToggleRoleAction | src/store/userStore.js:109 | the role toggles; nothing else changes |
| AppStore.ToggleLanguage | src/store/appStore.js:8 | 'ko' becomes 'en'; every other language becomes 'ko' |
| AppStore.ToggleLanguageTwice | src/store/appStore.js:8 | toggling twice restores 'ko' and 'en'; es or pt-br ends as 'en' |
| AppStore.AddBadgeTo | src/store/appStore.js:11-15 | the badge is in the result; a badge already earned leaves the list unchanged, a new one is appended |
| AppStore.AddBadgeIdempotent | src/store/appStore.js:11-15 | adding a badge twice is adding it once, and a duplicate-free list stays duplicate-free |
| AppStore.AppStoreState.constructor | src/store/appStore.js:4-6 | language 'ko', no badges, demo mode off |
| AppStore.AppStoreState.SetLanguage | src/store/appStore.js:7 | sets the language only |
| AppStore.AppStoreState.ToggleLanguageAction | src/store/appStore.js:8 | toggles the language only |
| AppStore.AppStoreState.ToggleDemoMode | src/store/appStore.js:9 | flips demo mode only |
| AppStore.AppStoreState.AddBadge | src/store/appStore.js:11-15 | earned badges become the list with the badge added once |
| ChatStore.AppendMessage | src/store/chatStore.js:47-49 | one message more at the end, the earlier ones unchanged, carrying the caller's fields and the clock reading as id |
| ChatStore.AppendKeepsPrefix | src/store/chatStore.js:47-49 | appending two messages keeps every earlier message in place |
| ChatStore.ChatStoreState.constructor | src/store/chatStore.js:4-45 | no messages, not typing, no scenario or feedback, the seeded sessions |
| ChatStore.ChatStoreState.AddMessage | src/store/chatStore.js:47-49 | messages become the list with the message appended; nothing else changes |
| ChatStore.ChatStoreState.SetTyping | src/store/chatStore.js:51 | sets the typing flag only |
| ChatStore.ChatStoreState.AddSession | src/store/chatStore.js:53-55 | the session goes first, without a cap; nothing else changes |
| ChatStore.ChatStoreState.ResetChat | src/store/chatStore.js:57 | empties the messages only |
| SalesLabSetup.MatchedPersona | src/components/sales-lab/SalesLabSetup.jsx:34-36 | a matched persona is in the persona table and every one of its surface traits is selected |
| SalesLabSetup.MatchedPersonaNone | src/components/sales-lab/SalesLabSetup.jsx:34-36 | no persona is matched exactly when no persona has all its surface traits selected |
| SalesLabSetup.MatchedPersonaIsFirst | src/components/sales-lab/SalesLabSetup.jsx:34-36 | the first covered persona in table order is the one matched |
| SalesLabSetup.MappedTraitId | src/components/sales-lab/SalesLabSetup.jsx:40-49 | the recommendation id of a trait text has the text's length |
| SalesLabSetup.StartTraitId | src/components/sales-lab/SalesLabSetup.jsx:148 | the id sent at start has the text's length and no space, hyphen or upper-case letter |
| SalesLabSetup.MappedTraits | src/components/sales-lab/SalesLabSetup.jsx:40-49 | one mapped trait per selected trait |
| SalesLabSetup.TraitKeysHaveNoSpace | src/constants/salesLabData.js:177-194 | no trait definition key contains a space |
| SalesLabSetup.MappedAgreesWithStart | src/components/sales-lab/SalesLabSetup.jsx:40-49 | the screen's recommendation id and the start id agree on every text |
| SalesLabSetup.KnownTraitWeights | src/components/sales-lab/SalesLabSetup.jsx:47 | a definition key maps to its snake-cased key, which has a weight row exactly when it is not Brand-focused |
| SalesLabSetup.ToggleTraitFacts | src/components/sales-lab/SalesLabSetup.jsx:72-79 | a selected trait is removed and the others are kept; a new trait is appended below two selections and refused at two |
| SalesLabSetup.ToggleKeepsCap | src/components/sales-lab/SalesLabSetup.jsx:72-79 | from at most two traits, toggling never selects more than two |
| SalesLabSetup.PresetBypassesCap | src/components/sales-lab/SalesLabSetup.jsx:81-86 | the tech_expert preset selects three traits, and toggling a new trait then changes nothing |
| SalesLabSetup.PresetMatchesDesignFirst | src/components/sales-lab/SalesLabSetup.jsx:81-86 | the design_first preset is matched as brand_loyalist, which comes first in the table with the same traits |
| SalesLabSetup.StartTraits | src/components/sales-lab/SalesLabSetup.jsx:147-153 | one started trait per selected trait |
| SalesLabSetup.StartTraitsFacts | src/components/sales-lab/SalesLabSetup.jsx:147-153 | a started trait carries the recommendation id of its text, and a definition exactly when its text is a definition key |
| SalesLabSetup.LargeSizeFlags | src/components/sales-lab/SalesLabSetup.jsx:255 | a size is an upsell target exactly when the upsell is Strong and the size is at least 75 |
| SalesLabSetup.HighlightFlags | src/components/sales-lab/SalesLabSetup.jsx:256 | a size is highlighted exactly when it is a trigger size or an upsell target |
| SalesLabSetup.SalesLabSetupState.constructor | src/components/sales-lab/SalesLabSetup.jsx:14-22 | TV, OLED, its first model at 55, Price-sensitive and Tech-oriented, the second difficulty, 30s, Male, modal closed |
| SalesLabSetup.SalesLabSetupState.ToggleTrait | src/components/sales-lab/SalesLabSetup.jsx:72-79 | the selection is toggled; nothing else changes |
| SalesLabSetup.SalesLabSetupState.HandlePresetSelect | src/components/sales-lab/SalesLabSetup.jsx:81-86 | copies the persona's traits, age group and gender and closes the modal; the product choice is kept |
| SalesLabSetup.SalesLabSetupState.SelectCategory | src/components/sales-lab/SalesLabSetup.jsx:198 | selects the category and its first model, keeping the size |
| SalesLabSetup.SalesLabSetupState.SelectModel | src/components/sales-lab/SalesLabSetup.jsx:220 | selects the model and its first size |
| SalesLabSetup.SalesLabSetupState.ProductScoresView | src/components/sales-lab/SalesLabSetup.jsx:51-59 | no scores exactly when no persona matches; otherwise the engine's scores, whose best match has the top score and whose alternative is the runner-up, each winning ties by key order |
| SalesLabSetup.SalesLabSetupState.UpsellScoreView | src/components/sales-lab/SalesLabSetup.jsx:61-69 | no score exactly when no persona matches; otherwise the engine's score, Strong exactly when it reaches 3 |
| SalesLabSetup.SalesLabSetupState.SizeHighlights | src/components/sales-lab/SalesLabSetup.jsx:253-256 | per size of the model, upsell target and highlight as the two flag functions say |
| SalesLabSetup.SalesLabSetupState.HandleStart | src/components/sales-lab/SalesLabSetup.jsx:145-167 | the persona name or "Custom Customer", the started traits, age, gender, the model with the size, and the difficulty |
| SalesLabSetup.InitialSelectionMatchesNobody | src/components/sales-lab/SalesLabSetup.jsx:34-36 | the initial selection matches no persona, so the customer is "Custom Customer" |
| SalesLabChat.StepIndex | src/components/sales-lab/SalesLabChat.jsx:236 | the position of a stage id in the five sales stages, -1 exactly when it is not one of them |
| SalesLabChat.NextStep | src/components/sales-lab/SalesLabChat.jsx:236-238 | the stage never moves back; it changes exactly when the proposal is present and later than the current stage, and then becomes the proposal |
| SalesLabChat.StepsNeverGoBack | src/components/sales-lab/SalesLabChat.jsx:236-238 | over any series of analyses the stage index never drops, a known stage stays known and closing stays closing |
| SalesLabChat.Discover | src/components/sales-lab/SalesLabChat.jsx:239-242 | the list grows, by the proposed id at the end, exactly when the id is present, belongs to a customer trait and is not yet listed |
| SalesLabChat.DiscoverKeepsValid | src/components/sales-lab/SalesLabChat.jsx:239-242 | discovery keeps the list free of repeats and made of the customer's trait ids |
| SalesLabChat.GoodbyeHasBye | src/components/sales-lab/SalesLabChat.jsx:258 | text containing "goodbye" contains "bye" |
| SalesLabChat.EndsConversationIff | src/components/sales-lab/SalesLabChat.jsx:257-259 | a reply ends the closing stage exactly when its lower-cased text contains one of the seven keywords other than "goodbye" |
| SalesLabChat.ErrorTextFor | src/components/sales-lab/SalesLabChat.jsx:56 | the Korean error line in Korean and the English one otherwise |
| SalesLabChat.EndSessionResult | src/components/sales-lab/SalesLabChat.jsx:290-299 | truthy feedback is handed on; otherwise the fallback report with score 75, the failure summary and no scores |
| SalesLabChat.BlocksRoute | src/components/sales-lab/SalesLabChat.jsx:41-44 | leaving is held back exactly when the session has not ended, has messages and the move goes to another path |
| SalesLabChat.SalesLabChatState.BlocksNavigation | src/components/sales-lab/SalesLabChat.jsx:41-44 | the chat's blocker never holds back after the session ended or before any message, and holds back every move to another path otherwise |
| SalesLabChat.SalesLabChatState.constructor | src/components/sales-lab/SalesLabChat.jsx:20-26 | a fresh session starts empty at greeting; a resumed one takes its saved messages, stage (greeting when empty), traits and hint; the session is valid exactly when fresh or its saved traits are distinct traits of the customer |
| SalesLabChat.SalesLabChatState.StartRoleplay | src/components/sales-lab/SalesLabChat.jsx:345-365 | the messages become the customer's opening line, or the error line when it failed; from then on, while the session runs, every move to another route is held back |
| SalesLabChat.SalesLabChatState.HandleSend | src/components/sales-lab/SalesLabChat.jsx:218-271 | refused for blank text, a reply in progress or an ended session; otherwise the user message and exactly one customer message (the reply, or the error line when the service call threw) are appended, the analysis applied, and the session ends only at closing with a goodbye; valid discovered traits stay valid; an ended session stays ended and never blocks navigation, a running one blocks every move to another route |
| SalesLabChat.SalesLabChatState.Exchange | src/components/sales-lab/SalesLabChat.jsx:225-270 | an accepted send appends the user message and one customer message, applies the analysis against the stage at sending, and ends the session only on a closing goodbye |
| SalesLabChat.SalesLabChatState.AcceptSend | src/components/sales-lab/SalesLabChat.jsx:226-232 | appends the user message, clears the input and the hint and marks a reply in progress |
| SalesLabChat.SalesLabChatState.ApplyAnalysis | src/components/sales-lab/SalesLabChat.jsx:235-243 | stage, discovered traits and hint follow the analysis against the stage captured at sending; valid traits stay valid |
| SalesLabChat.SalesLabChatState.ApplyReply | src/components/sales-lab/SalesLabChat.jsx:253-270 | one customer message (the reply, or the error line when the service call threw) is appended; the session ends and auto mode stops on a closing goodbye |
| SalesLabChat.SalesLabChatState.HandleEndSession | src/components/sales-lab/SalesLabChat.jsx:290-301 | hands on the end-session result; only the in-progress flag changes |
| SalesLabPage.SessionRecord | src/pages/SalesLab.jsx:28 | the result's own fields with id set to the clock and date to the ISO time |
| SalesLabPage.FindSession | src/pages/SalesLab.jsx:42 | a found session is listed and has the id; none exactly when no session has it |
| SalesLabPage.NewestSessionFound | src/pages/SalesLab.jsx:28-44 | a session just filed is found by its id, even when an older one carries the same id |
| SalesLabPage.SalesLabPageState.constructor | src/pages/SalesLab.jsx:10-14 | setup phase with no configuration, saved session or result |
| SalesLabPage.SalesLabPageState.HandleStartRoleplay | src/pages/SalesLab.jsx:16-20 | role-play phase with the configuration and the saved data |
| SalesLabPage.SalesLabPageState.HandleEndSession | src/pages/SalesLab.jsx:22-32 | the draft is discarded exactly when the result is truthy; the dated session is shown and filed first in the store; the rest of the store is unchanged |
| SalesLabPage.SalesLabPageState.HandleBackToSetup | src/pages/SalesLab.jsx:34-39 | back to setup with nothing kept |
| SalesLabPage.SalesLabPageState.HandleViewSession | src/pages/SalesLab.jsx:41-47 | a found session is shown in the feedback phase; an unknown id changes nothing |
| SalesLabPage.SalesLabPageState.ViewHistory | src/pages/SalesLab.jsx:62 | history phase, nothing else changes |
| SalesLabPage.SalesLabPageState.GoToSetup | src/pages/SalesLab.jsx:110 | setup phase, keeping the configuration and the result |
| SalesLabFeedback.LabelLanguage | src/components/sales-lab/SalesLabFeedback.jsx:50-52 | the screen's language when it has report labels, English otherwise |
| SalesLabFeedback.Field | src/components/sales-lab/SalesLabFeedback.jsx:55 | a field is found only on an object result that has it |
| SalesLabFeedback.SanitizeReport | src/components/sales-lab/SalesLabFeedback.jsx:55-62 | each shown field is the result's when it has the right type (truthy for the mission), and the fixed default otherwise |
| SalesLabFeedback.EmptyReportDefaults | src/components/sales-lab/SalesLabFeedback.jsx:55-62 | a report without fields shows every default |
| SalesLabFeedback.ChartEntryOf | src/components/sales-lab/SalesLabFeedback.jsx:66-70 | a null score has no bar; otherwise out of 100, with the string subject or 'Unknown' and the numeric score or 0 |
| SalesLabFeedback.RawScores | src/components/sales-lab/SalesLabFeedback.jsx:65 | the scores array when it is an array, else nothing |
| SalesLabFeedback.ChartData | src/components/sales-lab/SalesLabFeedback.jsx:65-81 | one bar per raw score in order, the five fallback skills at 0 when there is none, and no chart when a score is null |
| SalesLabFeedback.BarColourOf | src/components/sales-lab/SalesLabFeedback.jsx:118-119 | green from 80, yellow from 60 to 79, red below 60 |
| SalesLabFeedback.BarColourMonotone | src/components/sales-lab/SalesLabFeedback.jsx:118-119 | a higher score never gets a worse colour |
| Gemini.IndexOf | src/lib/gemini.js:232 | a found index is an occurrence of the marker, -1 otherwise |
| Gemini.IndexOfIsFirst | src/lib/gemini.js:232 | no occurrence comes before the index found, and -1 means there is none |
| Gemini.Split | src/lib/gemini.js:232 | splitting yields at least one piece |
| Gemini.SplitJoin | src/lib/gemini.js:232 | joining the pieces with the separator gives the text back |
| Gemini.PrefixBeforeFirst | src/lib/gemini.js:233 | the text before the first marker holds no marker |
| Gemini.SplitFirst | src/lib/gemini.js:232-234 | the first piece is the text up to the first marker (all of it without one) and holds no marker; there is more than one piece exactly when the marker occurs |
| Gemini.TrimIsSlice | src/lib/gemini.js:233-234 | trimming keeps a contiguous slice of the text |
| Gemini.TrimKeepsAbsence | src/lib/gemini.js:233 | trimming cannot create an occurrence |
| Gemini.SliceOccurrence | src/lib/gemini.js:232-234 | an occurrence inside a slice is one in the whole text |
| Gemini.ParseReplyFacts | src/lib/gemini.js:229-235 | role-play text passes through; otherwise the display text is the trimmed text before the first marker and never holds one, and the speech is the trimmed second piece or the display text without markdown characters |
| Gemini.ParseReply | src/lib/gemini.js:229-235 | a role-play reply is the model text as display and as speech; otherwise the display text never holds the speech marker |
| Gemini.ConcatAppend | src/lib/gemini.js:276-280 | concatenating chunk lists distributes over appending them |
| Gemini.ConcatSnoc | src/lib/gemini.js:278 | one more chunk appends that chunk to the full text |
| Gemini.InstructionNamesMarker | src/lib/gemini.js:254-271 | a role-play message gets no instruction; every other instruction names the marker |
| Gemini.LangName | src/lib/gemini.js:66-72 | an unsupported language code is named English |
| Gemini.SendMessageStream | src/lib/gemini.js:243-293 | without a key the error line is emitted once and nothing is sent; otherwise the message plus its instruction is sent, every chunk is passed on in order, and the reply is the one sendMessage builds from the joined chunks, or the error pair when the stream fails |
| Gemini.Accumulate | src/lib/gemini.js:275-280 | the chunks handed to `onChunk` are the streamed chunks in order, and the full text is their concatenation |
| Gemini.RemoveAll | src/lib/gemini.js:476 | removing a pattern never lengthens the text |
| Gemini.NoDoubleTickAfter | src/lib/gemini.js:476 | text that does not open a fence has none of its remainder start with two backticks once fences are removed |
| Gemini.RemoveFencesLeavesNone | src/lib/gemini.js:476 | no fence survives the removal of fences |
| Gemini.CleanJsonHasNoFence | src/lib/gemini.js:476 | cleaned feedback and course text holds no code fence |
| Gemini.RemoveAllIdle | src/lib/gemini.js:476 | a pattern that does not occur is not removed |
| Gemini.CleanPlainText | src/lib/gemini.js:476 | text without a backtick is only trimmed |
| AIChatbot.WelcomeText | src/pages/AIChatbot.jsx:87-94 | the Korean, Spanish or Portuguese welcome for those languages, the English one for any other |
| AIChatbot.ErrorLine | src/pages/AIChatbot.jsx:302 | the label table's error line, English for an unknown language, never empty |
| AIChatbot.AnswerText | src/pages/AIChatbot.jsx:290-302 | the reply's display text, or the non-empty page error line when the service call threw |
| AIChatbot.Spoken | src/pages/AIChatbot.jsx:295-298 | something is spoken exactly when a reply came back in voice mode; nothing when the service call threw |
| AIChatbot.FailedCallShowsServiceError | src/lib/gemini.js:237-240 | a model failure the service catches is shown as the service's Korean error text, which differs from the page's error line in every language but Korean |
| AIChatbot.FailedCallSpokenAsServiceError | src/lib/gemini.js:237-240 | in voice mode that Korean error text is also spoken, as it is |
| AIChatbot.ErrorTextSpokenAsIs | src/pages/AIChatbot.jsx:206-207 | stripping markdown leaves the service's error text unchanged, so voice mode speaks it as it is |
| AIChatbot.ErrorLineIsNotServiceError | src/pages/AIChatbot.jsx:302 | the page's error line differs from the service's Korean error text in every language but Korean |
| Gemini.FailedCallReply | src/lib/gemini.js:237-240 | a failed model call behind a configured key, in roleplay or not, answers with the generic Korean error text as display and as speech (the streamed call maps a broken stream to the same reply) |
| Gemini.SendMessageReply | src/lib/gemini.js:196-241 | without an API key the fixed key-error pair (two different texts); behind a key a failed call gives the generic error as display and speech, a role-play reply passes through, and any other reply shows no speech marker |
| AIChatbot.Message | src/pages/AIChatbot.jsx:286-293 | a message holds exactly its role and text |
| AIChatbot.TextToSend | src/pages/AIChatbot.jsx:276 | a non-empty text passed in wins; otherwise the transcript in auto mode and the input field otherwise |
| AIChatbot.SpeechOf | src/pages/AIChatbot.jsx:206 | the spoken text has no '*', '#' or '`' and only characters of the text |
| AIChatbot.SpeechOfPlainText | src/pages/AIChatbot.jsx:206 | text free of those characters is spoken as it is |
| AIChatbot.TopicsOnlyBeforeFirstSend | src/pages/AIChatbot.jsx:431 | the recommended topics show after the welcome alone and not once a send has added its two messages |
| AIChatbot.AIChatbotState.constructor | src/pages/AIChatbot.jsx:27-38 | empty input, not listening, voice mode off, not initialised |
| AIChatbot.AIChatbotState.InitChat | src/pages/AIChatbot.jsx:79-96 | the first successful start empties the chat and posts the welcome alone; later starts and a failed one change nothing |
| AIChatbot.AIChatbotState.Exchange | src/pages/AIChatbot.jsx:286-293 | the user message then the answer are appended, with typing off at the end |
| AIChatbot.AIChatbotState.SendText | src/pages/AIChatbot.jsx:280-303 | the exchange is appended, the input cleared, listening stopped, and the speech returned only in voice mode |
| AIChatbot.AIChatbotState.StopInput | src/pages/AIChatbot.jsx:282-285 | a send stops listening (when a recogniser exists) and clears the input, leaving the voice mode and the initialisation flag alone |
| AIChatbot.AIChatbotState.HandleSend | src/pages/AIChatbot.jsx:275-304 | blank text changes nothing; any other text appends exactly the user message and the answer |
| AIChatbot.AIChatbotState.HandleClearChatAsWritten | src/pages/AIChatbot.jsx:310-314 | the handler throws on entry, every time, and leaves the chat and the initialisation flag as they were |
| AIChatbot.AIChatbotState.HandleClearChat | src/pages/AIChatbot.jsx:310-314 | the chat is emptied and the welcome will be posted again |
| AIChatbot.ClearChatDiscrepancy | src/pages/AIChatbot.jsx:311 | on a non-empty chat the shipped handler keeps the messages while the intended one empties them |
| QuizPage.FourOptions | src/pages/Quiz.jsx:10-64 | four options with exactly the named one correct |
| QuizPage.BuiltInQuestions | src/pages/Quiz.jsx:10-64 | four built-in questions numbered from 1, each with four options |
| QuizPage.ChoiceIsCorrect | src/pages/Quiz.jsx:105 | the answer is the correctness of the first option with the chosen id |
| QuizPage.ChoiceIsCorrectIff | src/pages/Quiz.jsx:105 | with distinct option ids, the chosen option's own flag decides |
| QuizPage.QuizState.constructor | src/pages/Quiz.jsx:71-79 | the built-in questions, first index, nothing selected, score 0, no result |
| QuizPage.QuizState.LoadQuiz | src/pages/Quiz.jsx:81-95 | a stored quiz replaces the questions; otherwise they stay; the round is unchanged |
| QuizPage.QuizState.OptionClick | src/pages/Quiz.jsx:101-110 | an answered question ignores clicks; otherwise the choice is recorded and the score rises by one exactly when it is correct |
| QuizPage.QuizState.Finish | src/pages/Quiz.jsx:117-123 | the result shows; a score of three or more earns the master badge once |
| QuizPage.QuizState.NextAsWritten | src/pages/Quiz.jsx:112-124 | the guard counts the four built-in questions, whatever quiz is showing |
| QuizPage.QuizState.Next | src/pages/Quiz.jsx:112-124 | the next question of the quiz showing, or the result on its last one; the index never leaves the questions |
| QuizPage.QuizState.Retry | src/pages/Quiz.jsx:126-132 | a fresh round on the same questions |
| QuizPage.ShortQuizDiscrepancy | src/pages/Quiz.jsx:113 | on the second of two stored questions, Next as written moves to a question that does not exist |
| QuizPage.LongQuizDiscrepancy | src/pages/Quiz.jsx:113 | on the fourth of six stored questions, Next as written ends the round while the intended Next moves on |
| StudyRoom.CourseList | src/pages/StudyRoom.jsx:42 | the custom courses in order, then the built-in ones in order |
| StudyRoom.FindCourse | src/pages/StudyRoom.jsx:63 | no id gives no course; a found course is listed with that id; none found means no course has it |
| StudyRoom.ModuleIndex | src/pages/StudyRoom.jsx:64 | 0 without a course; otherwise an index of the module with that id, -1 exactly when the course has no such module |
| StudyRoom.ModuleIndexOfDistinct | src/pages/StudyRoom.jsx:64 | with distinct module ids, a module's own id finds its position |
| StudyRoom.ShowsCourseIff | src/pages/StudyRoom.jsx:63-75 | the course view shows exactly when the course resolves and holds the active module |
| StudyRoom.ResolveTab | src/pages/StudyRoom.jsx:52-61 | a URL tab id wins, then the navigation-state tab; otherwise the tab is kept |
| StudyRoom.StudyRoomState.constructor | src/pages/StudyRoom.jsx:26-49 | no custom courses, the curriculum tab, no open course and module m1 |
| StudyRoom.StudyRoomState.LoadCustomCourses | src/pages/StudyRoom.jsx:28-35 | the saved courses replace the custom ones; a failed load changes nothing |
| StudyRoom.StudyRoomState.ApplyTab | src/pages/StudyRoom.jsx:52-61 | the tab becomes the resolved tab; nothing else changes |
| StudyRoom.StudyRoomState.OpenCourse | src/pages/StudyRoom.jsx:260-263 | the clicked course becomes active; it opens on its first module, or, for a course with no modules, the click throws after setting the course and the module stays as it was |
| StudyRoom.StudyRoomState.SelectModule | src/pages/StudyRoom.jsx:201 | the clicked module becomes active |
| StudyRoom.StudyRoomState.Prev | src/pages/StudyRoom.jsx:166-170 | the module at max(0, i - 1) becomes active, the course view stays shown, and where the button is disabled (first module) nothing would change |
| StudyRoom.StudyRoomState.Next | src/pages/StudyRoom.jsx:176-183 | the following module, or on the last one the quiz for this course; the course view stays shown |
| StudyRoom.StudyRoomState.CloseCourse | src/pages/StudyRoom.jsx:81 | back to the course list |
| StudyRoom.StepsMoveByOne | src/pages/StudyRoom.jsx:167-179 | with distinct module ids, Next moves the index up by one and Prev down by one, stopping at 0 |
| StudyRoomFaq.LocalText | src/components/study/StudyRoomFAQ.jsx:48-49 | the text in the language when non-empty, else the English text, else empty |
| StudyRoomFaq.FilteredFaqs | src/components/study/StudyRoomFAQ.jsx:42-56 | the kept entries in their original order; an entry is kept exactly when it has a question and an answer, is in the category (or 'all') and its lower-cased question or answer contains the lower-cased query |
| StudyRoomFaq.EmptySearchShowsAll | src/components/study/StudyRoomFAQ.jsx:42-56 | an empty query in 'all' shows every entry with a question and an answer |
| StudyRoomFaq.FilterSameCallback | src/components/study/StudyRoomFAQ.jsx:44-56 | two callbacks agreeing on every entry keep the same entries |
| StudyRoomFaq.SearchIgnoresCase | src/components/study/StudyRoomFAQ.jsx:51-53 | queries that differ only in letter case give the same entries |
| StudyRoomFaq.Toggle | src/components/study/StudyRoomFAQ.jsx:105 | clicking the open entry closes it; any other opens alone |
| StudyRoomFaq.ToggleTwice | src/components/study/StudyRoomFAQ.jsx:105 | clicking twice restores the open entry only when it was that entry or none |
| StudyRoomFaq.StudyRoomFaqState.constructor | src/components/study/StudyRoomFAQ.jsx:15-18 | empty query, category 'all', nothing open, no stored entries |
| StudyRoomFaq.StudyRoomFaqState.LoadDynamicFaqs | src/components/study/StudyRoomFAQ.jsx:20-35 | the stored list, or empty when what was stored is not a list or reading failed |
| StudyRoomFaq.StudyRoomFaqState.SetSearchQuery | src/components/study/StudyRoomFAQ.jsx:15 | sets the query only |
| StudyRoomFaq.StudyRoomFaqState.SelectCategory | src/components/study/StudyRoomFAQ.jsx:16 | sets the category only |
| StudyRoomFaq.StudyRoomFaqState.ToggleEntry | src/components/study/StudyRoomFAQ.jsx:105 | the open entry toggles; nothing else changes |
| QuizBuilder.NewQuestionFields | src/pages/admin/QuizBuilder.jsx:72-80 | an mcq "New Question" with answer 0, empty explanation and the clock in its id |
| QuizBuilder.RemoveAt | src/pages/admin/QuizBuilder.jsx:97 | every element but the one at the index, in order; an index outside removes nothing |
| QuizBuilder.RemoveAtCount | src/pages/admin/QuizBuilder.jsx:97 | exactly one copy of the removed element is dropped and nothing else |
| QuizBuilder.QuizBuilderState.constructor | src/pages/admin/QuizBuilder.jsx:12-21 | a draft titled "New Quiz" at difficulty 2, no tags, no questions |
| QuizBuilder.QuizBuilderState.LoadExisting | src/pages/admin/QuizBuilder.jsx:35-41 | a loaded quiz replaces the draft; otherwise a material id names and links the draft |
| QuizBuilder.QuizBuilderState.AddQuestion | src/pages/admin/QuizBuilder.jsx:72-83 | one new question at the end with a fresh two-option array; the others are the same |
| QuizBuilder.QuizBuilderState.UpdateQuestion | src/pages/admin/QuizBuilder.jsx:85-89 | only the field of question idx changes, and the question keeps its options array |
| QuizBuilder.QuizBuilderState.UpdateOption | src/pages/admin/QuizBuilder.jsx:91-95 | the option is written into the shared array in place; the question list is the same |
| QuizBuilder.QuizBuilderState.RemoveQuestion | src/pages/admin/QuizBuilder.jsx:96-99 | the questions become the list without index idx |
| QuizBuilder.QuizBuilderState.Save | src/pages/admin/QuizBuilder.jsx:44-54 | an update of the URL's quiz when it names one, a create otherwise |
| QuizBuilder.QuizBuilderState.MaterialToUse | src/pages/admin/QuizBuilder.jsx:62 | the URL's material, else the draft's |
| QuizBuilder.QuizBuilderState.Generate | src/pages/admin/QuizBuilder.jsx:56-70 | without a material nothing is asked and nothing changes; otherwise that material is asked for, a generated quiz replaces the draft, and generating ends off |
| QuizBuilder.SharedOptionsSeeEdit | src/pages/admin/QuizBuilder.jsx:91-93 | a question list taken before the option edit shows the new option too |
| ScenarioBuilder.SelectedScenario | src/pages/admin/ScenarioBuilder.jsx:51 | a found scenario is listed and has the selected id; none exactly when no scenario has it |
| ScenarioBuilder.CreatedIsSelected | src/pages/admin/ScenarioBuilder.jsx:43-51 | a created scenario with a new id is the one the selection finds |
| ScenarioBuilder.CreateRequest | src/pages/admin/ScenarioBuilder.jsx:37-41 | the title, the description and no stages |
| ScenarioBuilder.ScenarioBuilderState.constructor | src/pages/admin/ScenarioBuilder.jsx:10-17 | loading, no scenarios, nothing selected, modal closed, empty form |
| ScenarioBuilder.ScenarioBuilderState.LoadData | src/pages/admin/ScenarioBuilder.jsx:23-33 | a listed result replaces the scenarios and, with nothing selected, selects the first; a failure keeps them; loading ends off |
| ScenarioBuilder.ScenarioBuilderState.HandleCreate | src/pages/admin/ScenarioBuilder.jsx:35-49 | a blank title sends nothing and changes nothing; otherwise the request is sent, and a created scenario is appended and selected (null without an id) and the form cleared and closed; a failed create leaves list, selection, form and modal as they were |
| ScenarioBuilder.ScenarioBuilderState.AddCreated | src/pages/admin/ScenarioBuilder.jsx:43-47 | the created scenario is appended and selected, the modal closed and the form cleared |
| ScenarioManagement.Shown | src/pages/admin/ScenarioManagement.jsx:21-24 | no data shows nothing; otherwise exactly the scenarios whose lower-cased title or description contains the lower-cased term, in order |
| ScenarioManagement.EmptySearchShowsAll | src/pages/admin/ScenarioManagement.jsx:21-24 | an empty term shows every scenario in order |
| ScenarioManagement.SearchIgnoresCase | src/pages/admin/ScenarioManagement.jsx:21-24 | terms that differ only in letter case show the same scenarios |
| ScenarioManagement.DrawerForm | src/pages/admin/ScenarioManagement.jsx:141-146 | the edited scenario's title, description, difficulty and published flag, each falsy one replaced by its default ('', '', 1, false); a new scenario gets every default |
| ScenarioManagement.SaveRoute | src/pages/admin/ScenarioManagement.jsx:148-151 | a submit while editing routes to the update of the edited scenario, otherwise to a create; the shipped update entry throws (see Findings) |
| AdminUsers.FilteredUsers | src/pages/admin/UserManagement.jsx:15-18 | exactly the users whose lower-cased name or email contains the lower-cased term, in order |
| AdminUsers.EmptyTermShowsAll | src/pages/admin/UserManagement.jsx:4-18 | an empty term shows every user; all five of the fixed table |
| AdminUsers.SearchIgnoresCase | src/pages/admin/UserManagement.jsx:15-18 | terms that differ only in letter case show the same users |
| CatalogManager.AllModels | src/pages/admin/ProductCatalogManager.jsx:31 | the flattened list is at least as long as each category list, and a single category flattens to its own list |
| CatalogManager.AllModelsConcat | src/pages/admin/ProductCatalogManager.jsx:31 | flattening the entries of two consecutive key ranges gives the first range's models followed by the second's |
| CatalogManager.AllModelsBlocks | src/pages/admin/ProductCatalogManager.jsx:31 | in key order, the k-th category's models sit as one block right after the models of the categories before it |
| CatalogManager.AllModelsMembership | src/pages/admin/ProductCatalogManager.jsx:31 | a model is listed exactly when some category lists it |
| CatalogManager.AllModelsLength | src/pages/admin/ProductCatalogManager.jsx:31 | the flattened list is as long as all category lists together |
| CatalogManager.FilteredModels | src/pages/admin/ProductCatalogManager.jsx:32-36 | exactly the listed models whose lower-cased name contains the term and which are in the active category (any, for 'All'), in order |
| CatalogManager.EmptySearchShowsAll | src/pages/admin/ProductCatalogManager.jsx:32-36 | an empty search on 'All' shows every model |
| CatalogManager.AllCategories | src/pages/admin/ProductCatalogManager.jsx:38 | the first type's categories come first, and a single type flattens to its own list |
| CatalogManager.AllCategoriesConcat | src/pages/admin/ProductCatalogManager.jsx:38 | flattening two consecutive key ranges of types gives the first range's categories followed by the second's |
| CatalogManager.AllCategoriesBlocks | src/pages/admin/ProductCatalogManager.jsx:38 | in key order, the k-th type's categories sit as one block right after the categories of the types before it |
| CatalogManager.TabBlock | src/pages/admin/ProductCatalogManager.jsx:38 | behind the leading 'All', the k-th type's block starts one position later and the next type's block starts right after it |
| CatalogManager.CategoryTabs | src/pages/admin/ProductCatalogManager.jsx:38 | 'All' first; then, for each type in key order, that type's categories as one block starting one past the total length of the earlier types' lists |
| AdminLayout.DashboardOnlyOnItsPath | src/components/layout/AdminLayout.jsx:67-69 | the dashboard item is highlighted exactly on '/admin' |
| AdminLayout.DesktopActive | src/components/layout/AdminLayout.jsx:68-70 | a highlighted sidebar item's path is a prefix of the pathname, and the item is highlighted on its own path |
| AdminLayout.MobileActive | src/components/layout/AdminLayout.jsx:122 | a highlighted bottom-bar item has a path that is a prefix of the pathname, and an item with a path is highlighted on that path |
| AdminLayout.SiblingPathNotActive | src/components/layout/AdminLayout.jsx:68-70 | a path that extends an item's path without a '/' right after it never highlights the item; one continuing with '/' highlights every item but the dashboard |
| AdminLayout.DashActiveEverywhere | src/components/layout/AdminLayout.jsx:122 | the bottom bar's Dash item, lacking the dashboard exception, is highlighted on every admin path where the sidebar's dashboard is not |
| AdminLayout.MoreNeverActive | src/components/layout/AdminLayout.jsx:122 | the pathless More item is never highlighted |
| AdminLayout.AtMostOneDesktopActive | src/components/layout/AdminLayout.jsx:67-70 | for any path at most one sidebar item is highlighted |
| AdminLayout.TitleItem | src/components/layout/AdminLayout.jsx:103 | the title comes from the sidebar item whose path equals the pathname, and there is none exactly when no item has it |
| AdminLayout.TitleFrom | src/components/layout/AdminLayout.jsx:103 | the first item from position k whose path equals the pathname, none exactly when there is no such item |
| AdminLayout.MorePaths | src/components/layout/AdminLayout.jsx:153 | the More drawer lists the sidebar items after the first three, in order |
| ContentManagement.FileType | src/pages/admin/ContentManagement.jsx:85-88 | 'image' exactly for image/ types, 'video' for video/ types, 'pdf' for application/pdf and 'other' for everything else |
| ContentManagement.NewFileRecord | src/pages/admin/ContentManagement.jsx:90-98 | the clock reading and a suffix as id, the upload's name, size and type, the upload time, status Uploaded |
| ContentManagement.DateEntries | src/pages/admin/ContentManagement.jsx:24 | each file paired with its date |
| ContentManagement.SortedEntriesPairDates | src/pages/admin/ContentManagement.jsx:24 | every entry the date sort yields still pairs a file with its own date |
| ContentManagement.FilesNewestFirstSorted | src/pages/admin/ContentManagement.jsx:24 | the loaded list holds the stored files, each once, with dates never increasing |
| ContentManagement.FilesNewestFirstStable | src/pages/admin/ContentManagement.jsx:24 | files with the same date keep their stored order in the loaded list |
| ContentManagement.NoDotAfterExtension | src/pages/admin/ContentManagement.jsx:155 | after a match of the extension pattern no '.' follows |
| ContentManagement.ExtensionUnique | src/pages/admin/ContentManagement.jsx:155 | the extension pattern matches at one place at most |
| ContentManagement.ExtensionOfPrefix | src/pages/admin/ContentManagement.jsx:155 | for a name ending in a character other than '/' and '.', a match is the '.' just before it or a match of the shorter name |
| ContentManagement.NoExtensionAfterSlashOrDot | src/pages/admin/ContentManagement.jsx:155 | a name ending in '/' or '.' has no match |
| ContentManagement.FindExtension | src/pages/admin/ContentManagement.jsx:155 | a position found is a match; none found means the pattern matches nowhere |
| ContentManagement.Topic | src/pages/admin/ContentManagement.jsx:155 | the topic is a prefix of the name: the name up to the match, or the whole name without one |
| ContentManagement.TopicOfNamed | src/pages/admin/ContentManagement.jsx:155 | a base name plus '.' and an extension without '/' or '.' gives the base name back |
| ContentManagement.TopicDropsOneExtension | src/pages/admin/ContentManagement.jsx:155 | archive.tar.gz gives archive.tar, .env gives the empty topic, notes. is kept |
| ContentManagement.FallbackContent | src/pages/admin/ContentManagement.jsx:151-153 | the text sent in place of the contents starts with "File Name: " and names the file |
| ContentManagement.StripIds | src/pages/admin/ContentManagement.jsx:166 | every entry loses its id and keeps every other field |
| ContentManagement.WritesOf | src/pages/admin/ContentManagement.jsx:158-168 | the course gets id gen_ plus the clock and a true isCustom, its other fields from the answer; the quiz is stored under that id; FAQ entries are stored without ids exactly when the answer has them |
| ContentManagement.MarkGenerated | src/pages/admin/ContentManagement.jsx:171 | exactly the files with the id gain the generated flag; nothing else about any file changes |
| ContentManagement.MarkGeneratedOthersUnchanged | src/pages/admin/ContentManagement.jsx:171 | files with another id are unchanged, and marking twice is marking once |
| ContentManagement.StrLessAsymmetric | src/pages/admin/ContentManagement.jsx:34 | string order is asymmetric |
| ContentManagement.StrLessTotal | src/pages/admin/ContentManagement.jsx:34 | any two different strings are ordered one way or the other |
| ContentManagement.StrLessTransitive | src/pages/admin/ContentManagement.jsx:34 | string order is transitive |
| ContentManagement.NotLessTransitive | src/pages/admin/ContentManagement.jsx:34 | "not below" is transitive |
| ContentManagement.InsertById | src/pages/admin/ContentManagement.jsx:34 | inserting adds exactly that course |
| ContentManagement.InsertByIdBounded | src/pages/admin/ContentManagement.jsx:34 | inserting below a bound keeps every id below it |
| ContentManagement.InsertByIdSorted | src/pages/admin/ContentManagement.jsx:34 | inserting into a list sorted by id, highest first, keeps it sorted |
| ContentManagement.SortByIdDesc | src/pages/admin/ContentManagement.jsx:34 | the sort is a permutation with ids never increasing |
| ContentManagement.CustomNewestFirst | src/pages/admin/ContentManagement.jsx:34 | exactly the custom courses, each as often as stored, highest id first |
| ContentManagement.Reverse | src/pages/admin/ContentManagement.jsx:43 | the stored entries, last stored first |
| ContentManagement.ContentManagementState.constructor | src/pages/admin/ContentManagement.jsx:10-15 | the resources tab, no files, courses or FAQ entries, not uploading or generating |
| ContentManagement.ContentManagementState.LoadFiles | src/pages/admin/ContentManagement.jsx:21-28 | the stored files newest first; a failed read keeps the list |
| ContentManagement.ContentManagementState.LoadCourses | src/pages/admin/ContentManagement.jsx:30-38 | the custom courses, highest id first; a failed read keeps the list |
| ContentManagement.ContentManagementState.LoadFaqs | src/pages/admin/ContentManagement.jsx:40-47 | the stored entries, last stored first; a failed read keeps the list |
| ContentManagement.ContentManagementState.ProcessFiles | src/pages/admin/ContentManagement.jsx:81-110 | one record per upload, in order, from its own clock reading; the reloaded list newest first; the resources tab; not uploading at the end |
| ContentManagement.ContentManagementState.StartGenerate | src/pages/admin/ContentManagement.jsx:136-156 | refused while a generation runs; otherwise the file becomes the one generating and the topic, fallback content and language are requested |
| ContentManagement.ContentManagementState.FinishGenerate | src/pages/admin/ContentManagement.jsx:156-182 | a successful answer writes the course, quiz and FAQ entries, marks the file and reloads courses and entries, each list kept as it was when its reload fails; any other answer writes nothing; no generation runs afterwards |
| ContentManagement.OverlappingGenerate | src/pages/admin/ContentManagement.jsx:137 | a second click while a generation runs requests nothing and keeps the first file generating |
| RecommendationEngine.TraitIds | src/lib/recommendationEngine.js:83 | the trait ids are one per selected trait, in the order the traits were selected |
| RecommendationEngine.PersonaUpsellTerm | src/lib/recommendationEngine.js:73-80 | +2 exactly for premium_lifestyle, gamer and family_user, -2 exactly for budget_seeker, 0 exactly without a persona or for any other id |
| RecommendationEngine.TraitUpsellTerm | src/lib/recommendationEngine.js:82-89 | the traits move the upsell score by between -2 (price sensitive alone) and +8 (every positive driver) |
| RecommendationEngine.AgeUpsellTerm | src/lib/recommendationEngine.js:92 | one point exactly for the 30s, 40s and 50s groups, none otherwise |
| StableSort.SortDescSorted | src/lib/recommendationEngine.js:53 | sorting the score entries by descending score yields a permutation of them that is ordered by score |
| StableSort.SortDesc | src/lib/recommendationEngine.js:53 | the sorted entries are as many as the entries (permutation and order in SortDescSorted, stability in SortDescStable) |
| StableSort.SortDescHead | src/lib/recommendationEngine.js:53-57 | the first sorted entry is the first entry with the top score, followed by the sorted rest: the sort is stable |
| StableSort.SortDescSecond | src/lib/recommendationEngine.js:53-58 | the second sorted entry is the first top-scoring entry once the first one is set aside |
| StableSort.InsertStable | src/lib/recommendationEngine.js:53 | an inserted entry lands ahead of every entry it ties with, and the others keep their order |
| StableSort.SortDescStable | src/lib/recommendationEngine.js:53 | the sort is stable: the entries with any one score come out in their original order |
| SeqFilter.Filter | src/services/operatorApi.js:434 | `filter` keeps no more elements than it was given, and each one it keeps passes the callback |
| SeqFilter.FilterMembership | src/components/study/StudyRoomFAQ.jsx:44 | a value is in the filtered list exactly when it is in the list and passes the callback |
| SeqFilter.FilterIsSubsequence | src/components/study/StudyRoomFAQ.jsx:44 | the filtered list keeps the original order |
| SeqFilter.FilterCount | src/services/operatorApi.js:434 | a value that passes occurs as often as before, and one that fails does not occur at all |
| SeqFilter.FilterAllPass | src/pages/admin/UserManagement.jsx:15-18 | when every element passes, the filter returns the list unchanged |
| SeqFilter.FilterShrinksIff | src/services/operatorApi.js:434 | the filtered list is shorter exactly when some element fails the callback |
| SeqFilter.FilterConcat | src/components/study/StudyRoomFAQ.jsx:43-44 | filtering a concatenation is concatenating the filtered parts (the built-in and the stored FAQ entries) |
| SeqFilter.FindIndex | src/services/operatorApi.js:421 | `findIndex` is -1 or an index whose element passes, with no passing element before it |
| SeqFilter.FindIndexMissing | src/services/operatorApi.js:421 | `findIndex` is -1 exactly when no element passes |
| SeqFilter.FindIndexIs | src/services/operatorApi.js:421 | the first passing index is what `findIndex` returns |
| JsText.TrimStart | src/lib/gemini.js:233 | the leading part of `trim` drops only white space and stops at the first other character |
| JsText.TrimEnd | src/lib/gemini.js:233 | the trailing part of `trim` drops only white space and stops at the last other character |
| JsText.BlankIffAllSpace | src/pages/admin/ScenarioBuilder.jsx:36 | `!s.trim()` holds exactly when every character of the string is white space |
| JsText.LowerChar | src/pages/admin/UserManagement.jsx:16 | an upper-case letter becomes its lower-case letter and every other character is kept |
| JsText.Lower | src/pages/admin/UserManagement.jsx:16-17 | `toLowerCase` keeps the length and lowers each character on its own |
| JsText.LowerIdempotent | src/pages/admin/UserManagement.jsx:16-17 | lowering twice is lowering once, and no upper-case letter survives |
| JsText.IncludesIff | src/components/study/StudyRoomFAQ.jsx:55 | `includes` holds exactly when the text occurs at some position |
| JsText.IncludesEmpty | src/pages/admin/UserManagement.jsx:16 | every string includes the empty search term |
| JsText.ReplaceChar | src/components/sales-lab/SalesLabSetup.jsx:148 | replacing one character everywhere keeps the length and changes exactly the occurrences of that character |
| JsText.RemoveChars | src/lib/gemini.js:234 | removing the markdown characters leaves none of them, and only drops characters |
| JsText.RemoveCharsKeeps | src/lib/gemini.js:234 | every other character occurs as often as before |
| JsText.RemoveCharsIdle | src/lib/gemini.js:234 | a text without those characters is left unchanged |
| JsValue.Get | src/pages/admin/QuizBuilder.jsx:86 | a property read finds a value exactly when the record has the key |
| JsValue.Merge | src/pages/admin/QuizBuilder.jsx:86 | an object spread has both key sets, the later object's values winning |
| JsValue.Or | src/pages/admin/ScenarioManagement.jsx:144-145 | `a \|\| b` is `a` when it is truthy and `b` otherwise |
| JsValue.NatToString | src/pages/admin/ContentManagement.jsx:159 | the decimal text of a clock reading is a non-empty digit string without a leading zero |
| JsValue.NatToStringRoundTrip | src/pages/admin/ContentManagement.jsx:159 | reading the decimal text back gives the number |
| JsValue.Display | src/services/operatorApi.js:453 | a string shows as itself in a template and a missing value shows as "undefined" |
| JsValue.PlusOne | src/services/operatorApi.js:423 | adding one to a numeric version gives the next number |
| Assoc.Keys | src/components/sales-lab/SalesLabSetup.jsx:42 | `Object.keys` lists one key per entry, in order |
| Assoc.LookupFindsKey | src/components/sales-lab/SalesLabSetup.jsx:42 | a lookup succeeds exactly when the key is listed, and then returns that entry's value |

## Left out

- Rendering, styling, routing and icons are not modelled; only the state and the values the screens derive are.
- The generative-model SDK, speech recognition and speech synthesis, timers and `window.location.reload` are left out. Replies, analyses and stream chunks are parameters.
- IndexedDB and `localStorage` are left out. What they return is a parameter. A write that fails is not modelled, and neither is the error alert it raises.
- Floating point is left out. The content manager keeps the byte size of a file, not its `toFixed(2) + ' MB'` text.
- Concurrency is left out. Each handler finishes before the next event.
- ContentManagement.ContentManagementState.StartGenerate: the `await` of course generation is split into a start and a finish step (FinishGenerate), so an overlapping click lands between them.
- ContentManagement.NewFileRecord: the random part of a file id is a parameter, and the id and the upload date share one clock reading.
- The content manager's drag highlight (`isDragging`) and its delete handlers (a confirmation dialog plus a database delete) are not modelled.
- ContentManagement.SortByIdDesc: the sort comparator is not consistent for equal ids, so the order it gives to equal ids is not modelled. Ids are compared with Dafny's character order, not UTF-16 code units, and course ids are modelled as strings.
- JsText.Lower: `toLowerCase` is modelled on the ASCII letters only. Other letters are left as they are.
- SalesLabSetup.SalesLabSetupState.constructor: the random configuration the setup screen picks when it opens (`Math.random`) is not modelled. The model starts from the initial defaults the state declares.
- SalesLabSetup.PresetMatchesDesignFirst: the design_first preset's traits match the brand_loyalist persona first. This is stated as it behaves, not as a defect.
- RecommendationEngine.GamerAdjustmentUnreachable: the 'gamer' persona branch never fires, because the shipped persona id is 'hardcore_gamer'. This is stated as a lemma, not as a defect.
- RecommendationEngine.CalculateProductScores: the `difficulty` argument is never read, so it is not a parameter.
- SalesLabChat.SalesLabChatState.HandleSend: `sessionContext` is never reassigned after it is created, so it is not state. The analysis of a message is applied before its reply arrives. Both use the values captured when the message was sent, and they change different fields.
- The admin menu labels are not modelled. Every translation table lacks `adminMenu`, so the sidebar as written reads a property of `undefined` when it renders. Only the highlighting, title and drawer rules are modelled.
- QuizPage.QuizState.LoadQuiz: a stored quiz whose question array is empty still replaces the built-in questions, because an empty array is truthy. The model keeps that behaviour.
- The mock service's artificial delays, console logging and webhook export calls are not modelled.
- JsValue.Get: a property read finds own keys only. Keys JavaScript inherits from `Object.prototype` (`constructor`, `toString`, `__proto__` and the like) read as absent, so `getFeatureStatus('constructor')` reads false in the model where JavaScript reads `Object.enabled`, which is `undefined`.
- SystemSettings.FeatureStatus: a toggle table that is a string or an array is read as having no toggles. In JavaScript, its index and `length` properties would be found as toggles.
- OperatorApi.OperatorApiClient.UpdateScenario and OperatorApi.OperatorApiClient.DeleteScenario: the client has no implementation of either. They follow the shape of the client's `updatePrompt` and `deleteUser`.
- The facade's persona entries (`getPersona`, `createPersona`, `updatePersona`, `deletePersona`) also forward to client methods that do not exist. No screen in this model calls them, so they are not modelled.

## Findings

| source | as written | input that shows it | evidently intended | confidence | as-written member | corrected member |
|---|---|---|---|---|---|---|
| src/pages/Quiz.jsx:113 | `handleNext` compares the next index with `QUESTIONS.length`, the four built-in questions | a stored quiz with 2 questions: Next on question 2 moves to index 2, past the end; a stored quiz with 6 questions: the result screen appears after question 4 | compare with the number of active questions | not executed | QuizPage.QuizState.NextAsWritten, QuizPage.ShortQuizDiscrepancy, QuizPage.LongQuizDiscrepancy | QuizPage.QuizState.Next |
| src/pages/AIChatbot.jsx:310-314 | `handleClearChat` calls `clearMessages`, which the chat store does not define | any click on the clear button: the call throws on its first line, so the messages stay and the initialisation flag is not reset | empty the messages with the store's `resetChat` and reset the flag, so the welcome line is posted again | not executed | AIChatbot.AIChatbotState.HandleClearChatAsWritten, AIChatbot.ClearChatDiscrepancy | AIChatbot.AIChatbotState.HandleClearChat |
| src/services/operatorApi.js:737-738 | the facade's `updateScenario` and `deleteScenario` forward to `apiInstance.updateScenario` and `apiInstance.deleteScenario`, which the client class does not define | saving an edited scenario in the scenario drawer, or deleting one from the table: the call throws a TypeError and the scenario table is unchanged | merge the form into the scenario with that id, and remove the scenario with that id, as the client's other update and delete methods do | not executed | OperatorApi.OperatorApiClient.UpdateScenarioAsWritten, OperatorApi.OperatorApiClient.DeleteScenarioAsWritten, OperatorApi.UpdateScenarioDiscrepancy, OperatorApi.DeleteScenarioDiscrepancy | OperatorApi.OperatorApiClient.UpdateScenario, OperatorApi.OperatorApiClient.DeleteScenario |
