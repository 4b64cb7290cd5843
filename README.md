# Mockly core, modelled in Dafny

Mockly is a mock-interview application. The user picks a company and an
interview type on the landing page, or fills in the three-step setup wizard.
The backend enriches that configuration and sends it to a prompt workflow.
The workflow prepares a voice agent and calls back with the session's
prompts. The user waits on a polling page, takes a behavioural or technical
interview with the voice agent, and reads the feedback on one of two results
pages.

This project models the logic of that flow. It covers:

- the backend's interview routes (`/init`, `/prompt`, the workflow callback);
- the bearer-token guard `authMiddleware`, on its own. The server shown
  mounts only the auth routes, and nothing installs the guard in front of
  the interview routes, so their `req.userId` may be undefined; the model
  takes the user id as any JSON value, undefined included;
- the pages' state machines, validators and lookups;
- the two feedback adapters with their display helpers;
- the `cn` class-name joiner.

JavaScript values are modelled by the `Js.Json` datatype. `Js` also defines:

- truthiness;
- `||` (first truthy) and `??` (first non-null);
- property reads that throw on `null` and `undefined`;
- `typeof`, `trim`, `split`;
- string conversion of values as template literals and `join` perform them.

Component state and `localStorage` are classes whose methods change their
fields. Each such method states its whole new state. Pure helpers are
functions, and their properties are proved as lemmas. The two database
tables are a class (`Store.Db`). Each route handler is a method proved equal
to a step function (`Callback.CallbackStep`, `InterviewRoutes.PromptStep`),
and the route's properties are proved about that function.

Foreign calls become parameters:

- `fetch` replies and their failures;
- `jwt.verify`;
- `JSON.parse` and `JSON.stringify`;
- the environment variables;
- microphone permission;
- the voice SDK's status.

The two results pages share identical copies of `getScoreColor`,
`formatTime`, the transcript rewrite and `generateWaveformSamples`:

- ResultsPage.jsx:44-51, 74-88, 214-237 and 422-427;
- ResultsTechnicalPage.jsx:46-53, 79-95, 254-277 and 471-476.

Each is defined once, in the modules `Feedback` and `Waveform`. The two
interview pages share `getStoredCv`, which is `Browser.StoredCv`.

## Model

| member | source | states |
|---|---|---|
| Feedback.MessageFields | apps/frontend/src/component/page/ResultsPage.jsx:44-51 | A present transcript entry gets id index+1; its role is assistant exactly for `agent`/`assistant`. Its text falls back from text to message to `''`. Its start time is kept unless null or undefined, so 0 survives. |
| Feedback.RewriteFrom | apps/frontend/src/component/page/ResultsPage.jsx:44-51 | Mapping the transcript throws exactly when some entry is null or undefined. Otherwise it keeps the length and rewrites entry i with number start+i. |
| Feedback.TranscriptRewrite | apps/frontend/src/component/page/ResultsPage.jsx:44-51 | An absent transcript gives null and a truthy non-array throws. A list without holes gives as many entries, numbered 1..n in order, each rewritten by the entry rule. |
| Feedback.ScoreColorBands | apps/frontend/src/component/page/ResultsPage.jsx:214-237 | The three palettes are chosen exactly for scores ≥ 8, for [5, 8) and for < 5. The bands are disjoint and cover every score. |
| Feedback.ScoreBandMonotone | apps/frontend/src/component/page/ResultsPage.jsx:214-237 | A higher score never gets a lower band. |
| Feedback.FormatTimeWhole | apps/frontend/src/component/page/ResultsPage.jsx:422-427 | A null time gives null. A whole number of seconds k shows k div 60, a colon, and k mod 60 padded to two digits. |
| Feedback.ClockOf | apps/frontend/src/component/page/ResultsPage.jsx:424-426 | Any time in [60q + r, 60q + r + 1) shows q minutes and the two-digit r seconds. |
| Feedback.FormatTimeRoundTrip | apps/frontend/src/component/page/ResultsPage.jsx:422-427 | Reading the `m:ss` clock of k seconds back gives k, so m·60 + ss is the input. |
| Feedback.FormatTimeFraction | apps/frontend/src/component/page/ResultsPage.jsx:424-426 | For a non-negative time, the clock depends only on the whole seconds. |
| Feedback.SumBounds | apps/frontend/src/component/page/ResultsPage.jsx:623 | The sum of n scores in [lo, hi] lies in [n·lo, n·hi]. |
| Feedback.MeanBounds | apps/frontend/src/component/page/ResultsPage.jsx:623 | The mean of a non-empty score list lies between its lowest and highest score, and times the count gives back the sum. |
| Waveform.GenerateWaveformSamples | apps/frontend/src/component/page/ResultsPage.jsx:74-88 | The loop with its clamped cursor computes exactly the bar-by-bar reference definition `WaveformSpec`. |
| Waveform.AmplitudeBounds | apps/frontend/src/component/page/ResultsPage.jsx:83 | Every amplitude lies in [0.25, 0.85). |
| Waveform.WaveformShape | apps/frontend/src/component/page/ResultsPage.jsx:74-88 | There are exactly `bars` values. An empty text gives all 0.25; otherwise every value lies in [0.25, 0.85). The clamped cursor never passes the last character. |
| Waveform.CursorAdvance | apps/frontend/src/component/page/ResultsPage.jsx:80-85 | The cursor advances one step per bar until it reaches the last character, and then stays there. |
| Waveform.Samples | apps/frontend/src/component/page/ResultsPage.jsx:73-88 | On any value: it throws exactly when the value is truthy, not a string, and bars are asked for. Otherwise it gives `bars` values, and a string is sampled by `WaveformSpec`. |
| Waveform.SilentWaveform | apps/frontend/src/component/page/ResultsPage.jsx:73-74 | Audio whose base64 is falsy gives 64 flat bars of 0.25. |
| Waveform.PlayerShown | apps/frontend/src/component/page/ResultsPage.jsx:712 | The player is rendered exactly for truthy audio, so falsy audio draws nothing; truthy audio whose base64 is falsy draws 64 flat bars of 0.25. |
| Waveform.PageWaveformCases | apps/frontend/src/component/page/ResultsPage.jsx:73-89 | The behavioural page's bars throw exactly when `audio.base64` is truthy and not a string. A non-empty string gives 64 heights in [0.25, 0.85). |
| Waveform.NumericBase64Throws | apps/frontend/src/component/page/ResultsPage.jsx:75-81 | A numeric base64 throws. |
| ResultsPage.TransformNull | apps/frontend/src/component/page/ResultsPage.jsx:19-41 | The adapter returns null exactly for a falsy payload and for one whose feedback (or the data itself) has no truthy metrics. |
| ResultsPage.EmptyArrayThrows | apps/frontend/src/component/page/ResultsPage.jsx:25-29 | An empty top-level array leaves `data` undefined, and reading `data.feedback` throws. |
| ResultsPage.FirstElementOnly | apps/frontend/src/component/page/ResultsPage.jsx:25 | Of an array payload only element 0 is read: the result is that of element 0 sent alone. |
| ResultsPage.TransformRecord | apps/frontend/src/component/page/ResultsPage.jsx:44-61 | A record has: `feedback.metrics` unchanged and truthy; `overall_feedback` or `''`; the data's audio; a transcript that is null exactly when absent, otherwise rewritten entry by entry. |
| ResultsPage.OverallBounds | apps/frontend/src/component/page/ResultsPage.jsx:623 | On a list of scores: the unguarded mean is NaN exactly for an empty list; otherwise it lies between the lowest and highest score. |
| Feedback.ScoresOf | apps/frontend/src/component/page/ResultsPage.jsx:623 | Reading the scores off a list of metrics throws exactly when some metric is null or undefined. The scores are known exactly when every metric has a numeric score; they are those scores, in order. |
| Feedback.ScoresWithin | apps/frontend/src/component/page/ResultsPage.jsx:623 | Metrics whose scores lie within bounds give a list of scores, all within those bounds. |
| ResultsPage.ReportOverall | apps/frontend/src/component/page/ResultsPage.jsx:623 | On the metrics of every record the adapter makes: the score line throws exactly when the metrics are not an array or hold a missing entry. An empty array shows NaN. A non-empty array of bounded scores shows a value within the bounds. |
| ResultsPage.ObjectMetricsThrow | apps/frontend/src/component/page/ResultsPage.jsx:606-623 | Metrics sent as an object still make a record, and its score line throws. |
| ResultsPage.SampleTurnFields | apps/frontend/src/component/page/constants.js:19-24 | Each fixture turn rewrites to its number, its role, its text and its start time. |
| ResultsPage.SampleTransforms | apps/frontend/src/component/page/constants.js:1-26 | The fixture, whatever its four prose texts say, transforms to a record with its six metrics, its overall text, its candidate answer and no audio. |
| ResultsPage.SampleTranscript | apps/frontend/src/component/page/constants.js:1-26 | The fixture's transcript becomes four entries: the first is the assistant at second 2, and the fourth, with id 4, is the user. |
| ResultsPage.SampleTurnsRewrite | apps/frontend/src/component/page/constants.js:1-26 | The fixture's four turns rewrite without error, with ids 1 to 4. |
| ResultsPage.NestedTransform | apps/frontend/src/component/page/ResultsPage.jsx:19-41 | A `{feedback, transcript, audio}` payload with truthy metrics is read through the nested feedback: its metrics, overall text (or `''`), candidate answer, rewritten transcript and audio. |
| ResultsTechnicalPage.TransformTotal | apps/frontend/src/component/page/ResultsTechnicalPage.jsx:22-32 | Null comes back exactly for a falsy payload. An empty array still throws, and every record's metrics are truthy. |
| ResultsTechnicalPage.TransformYieldsRecord | apps/frontend/src/component/page/ResultsTechnicalPage.jsx:22-67 | A truthy payload yields a record when its data is present and its transcript is absent or a list without holes. |
| ResultsTechnicalPage.MetricsChoice | apps/frontend/src/component/page/ResultsTechnicalPage.jsx:42 | Metrics are the object feedback's truthy metrics, else the data's, else `[]`; they are never falsy. |
| ResultsTechnicalPage.OverallFeedbackChoice | apps/frontend/src/component/page/ResultsTechnicalPage.jsx:56-59 | A string feedback is the text itself. Otherwise the text is `overall_feedback`, then the nested `feedback`, then `''`. |
| ResultsTechnicalPage.LenientExtendsStrict | apps/frontend/src/component/page/ResultsTechnicalPage.jsx:19-67 | Every payload the behavioural adapter turns into a record also gives a record here, with the same metrics, transcript and audio. |
| ResultsTechnicalPage.RawFromStateChoice | apps/frontend/src/component/page/ResultsTechnicalPage.jsx:565-573 | A truthy `raw` wins. Otherwise an object is assembled exactly when feedback, transcript or audio is truthy, and it carries those three unchanged. |
| ResultsTechnicalPage.GuardedOverallAgrees | apps/frontend/src/component/page/ResultsTechnicalPage.jsx:718-721 | On a list of scores: the guarded mean is null exactly where the unguarded one is NaN. Elsewhere the two agree, and the value lies between the lowest and highest score. |
| ResultsTechnicalPage.GuardedReportOverall | apps/frontend/src/component/page/ResultsTechnicalPage.jsx:718-721 | On the metrics of every record this page makes: an empty array, or an object without `length`, hides the score. A string passes the guard and throws. On an array it throws exactly where the behavioural page does. A non-empty array of bounded scores shows the behavioural page's value, within the bounds. |
| ResultsTechnicalPage.ObjectMetricsHidden | apps/frontend/src/component/page/ResultsTechnicalPage.jsx:718-721 | Metrics sent as an object hide the score here, where the behavioural page throws on the same payload. |
| ResultsTechnicalPage.WaveformsAgree | apps/frontend/src/component/page/ResultsTechnicalPage.jsx:97 | The `|| ''` fallback changes nothing: the technical page draws the same bars as the behavioural page, and throws on the same audio. Truthy audio whose base64 is falsy draws 64 flat bars. |
| Store.FindFirstOwned | apps/backend/routes/interviewRoutes.js:55-59 | The owner filter drops out for an undefined user id. The result is none exactly when no row passes the filter; otherwise it is the earliest row that does. |
| Store.UnfilteredLookup | apps/backend/routes/interviewRoutes.js:45-59 | With an undefined user id the lookup returns the first row of a non-empty table whoever owns it, and none only for an empty table. |
| Store.InsertKeepsUnique | apps/backend/routes/interviewCallbackRoutes.js:37-42 | Adding a row with a new id keeps the agent ids unique, and the id is then present. |
| Store.Db.CreateAgent | apps/backend/routes/interviewRoutes.js:125-130 | The insert succeeds exactly for a new id and then appends the row; a duplicate id leaves the table unchanged. |
| Store.Db.UpdateSession | apps/backend/routes/interviewCallbackRoutes.js:21-30 | The update fails exactly for an unknown id. Otherwise it changes only that row, and agents are untouched. |
| Callback.PromptPrecedence | apps/backend/routes/interviewCallbackRoutes.js:9-11 | The interview prompt is `interview_prompt`, else `interview_primpot`, else unset. The feedback prompt is `feedback_prompt_final`, else `feedback_prompt`, else unset. |
| Callback.HandleCallback | apps/backend/routes/interviewCallbackRoutes.js:16-52 | The handler's reply and the tables it leaves are those of the step function `CallbackStep`. |
| Callback.FailureChangesNothing | apps/backend/routes/interviewCallbackRoutes.js:17-19 | A missing id is a 400 and an unknown id a 500, both without any change. The reply is 200 exactly when the session exists. |
| Callback.OnlyTargetSessionChanges | apps/backend/routes/interviewCallbackRoutes.js:21-30 | Only the addressed session changes. Each payload column takes a truthy value and otherwise keeps the old one; owner and status are never written. |
| Callback.AgentInsertedIff | apps/backend/routes/interviewCallbackRoutes.js:32-45 | An agent row is added exactly when: the agent id is truthy; no row has it; the session has an owner. The new row is owned by that owner. |
| Callback.CallbackKeepsUnique | apps/backend/routes/interviewCallbackRoutes.js:32-45 | The callback keeps the agent ids unique. |
| Callback.CallbackIdempotent | apps/backend/routes/interviewCallbackRoutes.js:21-45 | Delivering a payload twice gives the same reply and tables as one delivery, with no second agent row. |
| InterviewRoutes.Init | apps/backend/routes/interviewRoutes.js:12-27 | A falsy body is a 400; any other body is a 200 that echoes the config unchanged. |
| InterviewRoutes.AttachProfile | apps/backend/routes/interviewRoutes.js:74-80 | The profile step in place gives the config `WithProfile` describes. |
| InterviewRoutes.AttachRubric | apps/backend/routes/interviewRoutes.js:83-98 | The rubric step in place gives the config `WithRubric` describes. |
| InterviewRoutes.Enrich | apps/backend/routes/interviewRoutes.js:63-102 | Writing the config field by field gives the enriched config `Enriched`. |
| InterviewRoutes.RecordAgent | apps/backend/routes/interviewRoutes.js:116-144 | The reply and the agent table after the workflow's answer are those of `AfterWebhook`; sessions are untouched. |
| InterviewRoutes.Forward | apps/backend/routes/interviewRoutes.js:55-144 | After a successful lookup: the reply and the agent table are those of `AfterWebhook`, for the looked-up agent's id (any first row when the user id is undefined) and the enriched config, and that config is the one sent. |
| InterviewRoutes.HandlePrompt | apps/backend/routes/interviewRoutes.js:30-148 | The handler's reply, agent table and sent config are those of the step function `PromptStep`. |
| InterviewRoutes.LookupFailureStops | apps/backend/routes/interviewRoutes.js:68-71 | A failed agent lookup answers 500, changes nothing and sends nothing to the workflow. |
| InterviewRoutes.SentConfig | apps/backend/routes/interviewRoutes.js:61-102 | The sent config carries the looked-up agent's id (or null) and the user id. Profile and rubric replace the client's value exactly when found. Every other field is the client's. |
| InterviewRoutes.RubricKeyChoice | apps/backend/routes/interviewRoutes.js:83-89 | The rubric key is `behavioral_<seniority>` or `behavioral_dsa_<seniority>` by mode, and `''` for any other mode. |
| InterviewRoutes.EnrichmentFound | apps/backend/routes/interviewRoutes.js:74-98 | A rubric is attached exactly when its key has a truthy table entry. A profile is attached exactly when the preset names a truthy table entry. |
| InterviewRoutes.WebhookFailureNoAgent | apps/backend/routes/interviewRoutes.js:116-147 | A workflow answer that is not OK, or cannot be read, gives 500 and records no agent. |
| InterviewRoutes.AgentCreatedIff | apps/backend/routes/interviewRoutes.js:123-144 | An agent is recorded exactly when: the lookup found no row (for an undefined user id, the table is empty); the answer carries a truthy unused `agent_id`. It is recorded with the request's user id. When the lookup finds a row, no agent is added. A 200 returns the workflow's body unchanged. |
| InterviewRoutes.UnidentifiedUserReusesFirstAgent | apps/backend/routes/interviewRoutes.js:45-67 | Without a user id, the config carries the first agent's id of a non-empty table and no agent is added, whatever the workflow answers. |
| InterviewRoutes.UnidentifiedUserExample | apps/backend/routes/interviewRoutes.js:45-144 | A table with one agent `a1` owned by `u1`, no user id, and a workflow answering `agent_id` `a2`: the config is sent with `a1`, the reply is the workflow's body, and no agent is created. |
| InterviewRoutes.PromptKeepsUnique | apps/backend/routes/interviewRoutes.js:123-136 | `/prompt` keeps the agent ids unique. |
| Auth.AuthMiddleware | apps/backend/middleware/authMiddleware.js:3-36 | The middleware answers the decision's 401 and leaves the request as it was, or records the user id and e-mail and calls `next`. `next` runs exactly when the request passes. |
| Auth.BearerStripped | apps/backend/middleware/authMiddleware.js:13-15 | From `Bearer <t>` exactly seven characters are removed, once: the token is t. |
| Auth.RawHeaderVerbatim | apps/backend/middleware/authMiddleware.js:13-15 | A header without the exact, case-sensitive prefix is the token itself. |
| Auth.MissingHeaderRejected | apps/backend/middleware/authMiddleware.js:8-11 | Without a header the answer is 401 `No token provided`, whatever the verifier says. |
| Auth.PassesIff | apps/backend/middleware/authMiddleware.js:19-34 | A request passes exactly when: a header is present; the token verifies; the claims have a truthy `userId`. The user id and e-mail are the claims'. Every rejection is a 401. |
| InterviewSetup.StepLaws | apps/frontend/src/component/page/InterviewSetup.jsx:168-169 | The step stays in 1..3. Next at 3 and back at 1 are no-ops, and back undoes next below 3 (and next undoes back above 1). |
| InterviewSetup.UpdateFieldFrame | apps/frontend/src/component/page/InterviewSetup.jsx:158-166 | `updateField` sets exactly `form[section][field]`; every other section and field is unchanged. |
| InterviewSetup.SubmitRouteChoice | apps/frontend/src/component/page/InterviewSetup.jsx:198-199 | The route is `/behavioural` exactly for the `behavioral` mode, otherwise `/technical`. The initial form goes behavioural, and editing another field keeps the route. |
| InterviewSetup.KeyDownSpec | apps/frontend/src/component/page/InterviewSetup.jsx:61-66 | A tag is added exactly on Enter with non-blank text. The tag is then the trimmed text, with no outer whitespace, and the box is cleared; otherwise the box is kept. |
| InterviewSetup.RemoveTag | apps/frontend/src/component/page/InterviewSetup.jsx:397 | No survivor equals the removed tag, and the list never grows. |
| InterviewSetup.RemoveTagConcat | apps/frontend/src/component/page/InterviewSetup.jsx:397 | Removal works piece by piece, so survivors keep their order. |
| InterviewSetup.RemoveTagCounts | apps/frontend/src/component/page/InterviewSetup.jsx:397 | Every equal entry goes and every other entry stays as often as it was there. An absent tag leaves the list unchanged. |
| InterviewSetup.AddRemove | apps/frontend/src/component/page/InterviewSetup.jsx:396-397 | Adding then removing a tag that was not there gives the list back. |
| InterviewSetup.CvContentOfDataUrl | apps/frontend/src/component/page/InterviewSetup.jsx:452-453 | For a `data:<type>;base64,<payload>` URL (section 3 of RFC 2397), the stored content is the payload. |
| InterviewSetup.HeaderReachesGuard | apps/frontend/src/component/page/InterviewSetup.jsx:175-184 | Were `authMiddleware` mounted in front of the prompt route (the server shown mounts it nowhere), it would take the raw stored token unchanged as the token, and a missing token as the text `null`. |
| InterviewSetup.Wizard.constructor | apps/frontend/src/component/page/InterviewSetup.jsx:130-156 | The wizard starts at step 1 with the default form. |
| InterviewSetup.Wizard.NextStep | apps/frontend/src/component/page/InterviewSetup.jsx:168 | The step becomes `NextOf` of the old step, and the form is unchanged. |
| InterviewSetup.Wizard.PrevStep | apps/frontend/src/component/page/InterviewSetup.jsx:169 | The step becomes `PrevOf` of the old step, and the form is unchanged. |
| InterviewSetup.Wizard.UpdateField | apps/frontend/src/component/page/InterviewSetup.jsx:158-166 | The form becomes `UpdatedForm` of the old form. |
| InterviewSetup.Wizard.AddTagTo | apps/frontend/src/component/page/InterviewSetup.jsx:396 | The list field gains the tag at its end. |
| InterviewSetup.Wizard.RemoveTagFrom | apps/frontend/src/component/page/InterviewSetup.jsx:397 | The filtering loop leaves the list field equal to `RemoveTag` of the old list. |
| InterviewSetup.Wizard.AttachCv | apps/frontend/src/component/page/InterviewSetup.jsx:448-460 | `candidate.cv_file` becomes the file record, whose content is the data URL's payload. |
| InterviewSetup.Wizard.Submit | apps/frontend/src/component/page/InterviewSetup.jsx:171-200 | The request carries the raw token header. The page navigates by the mode whatever the request's outcome. |
| InterviewSetup.Wizard.KeyDownIn | apps/frontend/src/component/page/InterviewSetup.jsx:61-66 | On Enter with text, the trimmed tag is appended and the box cleared; otherwise the form is unchanged. |
| TechnicalInterview.TemplatesTitled | apps/frontend/src/component/page/TechnicalInterviewPage.jsx:38-91 | Every template is filed under its own title. |
| TechnicalInterview.BuildProblemFromString | apps/frontend/src/component/page/TechnicalInterviewPage.jsx:97-101 | An empty title gives the dummy problem, and a title with a template gets that template. |
| TechnicalInterview.TitleKept | apps/frontend/src/component/page/TechnicalInterviewPage.jsx:97-114 | A non-empty string title stays the problem's title, whether it has a template or gets the custom wrapper. |
| TechnicalInterview.CustomProblemEmbedsTitle | apps/frontend/src/component/page/TechnicalInterviewPage.jsx:104-114 | An unknown non-empty title gives a `custom-problem` that embeds the title in its description and starter code. |
| TechnicalInterview.BuildProblemTotal | apps/frontend/src/component/page/TechnicalInterviewPage.jsx:97-101 | Falsy titles give the dummy. The result is missing only for a title with no computed string form. |
| TechnicalInterview.ArrayTitleLookup | apps/frontend/src/component/page/TechnicalInterviewPage.jsx:97-103 | `["Two Sum"]` is looked up as the string and gets that template, whose title is not the array. |
| TechnicalInterview.AgentIdForCompanyCases | apps/frontend/src/component/page/TechnicalInterviewPage.jsx:121-132 | Google and meta have their own agents, and every other company the general one. |
| TechnicalInterview.SessionAgentPrecedence | apps/frontend/src/component/page/TechnicalInterviewPage.jsx:316 | The session's agent wins, then the stored one, then the company default; the chosen id is never empty. |
| TechnicalInterview.FirstCases | apps/frontend/src/component/page/TechnicalInterviewPage.jsx:359 | Only an array with a truthy first element is unwrapped. An empty or falsy-led array is kept whole, so an array never becomes undefined. |
| TechnicalInterview.StartGuard | apps/frontend/src/component/page/TechnicalInterviewPage.jsx:306-316 | A call starts exactly when not connected or connecting and the microphone is granted, with the agent chosen by precedence. |
| TechnicalInterview.SnapshotConversationId | apps/frontend/src/component/page/TechnicalInterviewPage.jsx:272-282 | The snapshot carries code, title, company and CV. It has `conversation_id` exactly when one exists, and then it equals it. |
| TechnicalInterview.SubmitBodyConversationId | apps/frontend/src/component/page/TechnicalInterviewPage.jsx:410-419 | The evaluation request always carries `conversation_id`, null when there is none, and the user's code. |
| TechnicalInterview.HandOverReachesResults | apps/frontend/src/component/page/TechnicalInterviewPage.jsx:428-439 | A truthy reply travels as `raw`, and the results page takes exactly it as its payload. |
| TechnicalInterview.TechnicalPage.constructor | apps/frontend/src/component/page/TechnicalInterviewPage.jsx:240-242 | The page starts with the dummy problem, its starter code and no agent. |
| TechnicalInterview.TechnicalPage.LoadSessionAgent | apps/frontend/src/component/page/TechnicalInterviewPage.jsx:220-225 | A truthy `agentId` in the session reply is kept and stored; anything else changes nothing. |
| TechnicalInterview.TechnicalPage.LoadProblem | apps/frontend/src/component/page/TechnicalInterviewPage.jsx:358-367 | The problem is built from the reply's title (the dummy when it failed), and the editor is reset to the starter code. |
| TechnicalInterview.TechnicalPage.SubmitAndComplete | apps/frontend/src/component/page/TechnicalInterviewPage.jsx:393-446 | The call is ended exactly when connected. The request is the evaluation body. The page navigates with the hand-over state, or stays when the reply cannot be read, and always clears `isSubmitting`. |
| Browser.StoredCvCases | apps/frontend/src/component/page/BehaviouralInterviewPage.jsx:12-21 | A missing, empty or unparseable stored CV reads as null; otherwise it is what the parser made of it. |
| BehaviouralInterview.CallAgentPrecedence | apps/frontend/src/component/page/BehaviouralInterviewPage.jsx:176 | The session's agent wins, then the stored one, then `AGENT_ID`; the call always gets a non-empty agent. |
| BehaviouralInterview.OrbColorsLookup | apps/frontend/src/component/page/BehaviouralInterviewPage.jsx:87-91 | A listed company gets its entry and any other company, or none, the default. As the table stands, every company gets the same teal theme. |
| BehaviouralInterview.OrbStateCases | apps/frontend/src/component/page/BehaviouralInterviewPage.jsx:231-239 | Test mode shows the test state. Otherwise the orb is idle exactly when not connected, and when connected it speaks exactly while the agent speaks. |
| BehaviouralInterview.ResultsStateFields | apps/frontend/src/component/page/BehaviouralInterviewPage.jsx:127-132 | The results state carries the company and the CV. |
| BehaviouralInterview.BehaviouralPage.CompleteInterview | apps/frontend/src/component/page/BehaviouralInterviewPage.jsx:117-136 | The call is ended exactly when connected. The page goes to `/results` with company and CV unless ending throws, and `isSubmitting` is always cleared. |
| SessionWaiting.RotationCycles | apps/frontend/src/component/page/SessionWaiting.jsx:23-26 | After k ticks from the first message, message k mod 8 is shown: the index stays in [0, 8) and cycles. |
| SessionWaiting.InterviewRouteChoice | apps/frontend/src/component/page/SessionWaiting.jsx:65-67 | An unset or `behavioral` pending mode leads to `/behavioural/<id>`, and any other mode to `/technical/<id>`. |
| SessionWaiting.WaitingPage.constructor | apps/frontend/src/component/page/SessionWaiting.jsx:20-21 | The page starts at the first message, with no error and no polling. |
| SessionWaiting.WaitingPage.Tick | apps/frontend/src/component/page/SessionWaiting.jsx:24-26 | A tick advances the message index cyclically and changes nothing else. |
| SessionWaiting.WaitingPage.Start | apps/frontend/src/component/page/SessionWaiting.jsx:31-40 | Without a session id nothing happens. Without a token the page goes to `/login` and never polls. Otherwise polling starts. |
| SessionWaiting.WaitingPage.Stop | apps/frontend/src/component/page/SessionWaiting.jsx:78-81 | The cleanup ends polling and makes later answers ignored. |
| SessionWaiting.WaitingPage.HandleReply | apps/frontend/src/component/page/SessionWaiting.jsx:42-73 | Answers after cleanup are ignored. Failures set the network error; not-OK sets `body.error` or the default; not-ready changes nothing. Ready stores the session (and a truthy agent id) and navigates by the pending mode. |
| Landing.CvPayloadFields | apps/frontend/src/App.jsx:281-292 | For a data URL `<meta>,<data>` (section 3 of RFC 2397), `base64` is the data. The MIME type falls back to `application/octet-stream`. |
| Landing.CvPayloadNoComma | apps/frontend/src/App.jsx:281-292 | A non-empty result without a comma still gives a payload, with `base64` equal to `''`. |
| Landing.CvHandOver | apps/frontend/src/App.jsx:64-68 | Given that the parser inverts the stringifier, a CV stored at start is read back unchanged by the interview pages, and no CV reads back as null. |
| Landing.LandingPage.constructor | apps/frontend/src/App.jsx:19-42 | The page starts from the stored company, type and CV, and goes to `/login` without a token. |
| Landing.LandingPage.CompanyClick | apps/frontend/src/App.jsx:158-167 | Clicking the selected company clears it and its key; clicking another selects and stores it. |
| Landing.LandingPage.ToggleType | apps/frontend/src/App.jsx:112-121 | The toggle is ignored while no company is chosen. Toggling the selected type clears it and its key; toggling another selects and stores it. |
| Landing.LandingPage.LoadCv | apps/frontend/src/App.jsx:281-296 | A string reader result replaces the CV with its payload; anything else keeps the CV. |
| Landing.LandingPage.Start | apps/frontend/src/App.jsx:54-78 | A no-op unless ready. Otherwise it stores company and type, stores the CV or drops a stale one, and navigates to `/<type>` with the choice. |
| ClassNames.TruthyKeys | apps/frontend/src/lib/utils.js:7-11 | An object contributes exactly the keys it gives truthy values, and nothing else. |
| ClassNames.TruthyKeysConcat | apps/frontend/src/lib/utils.js:7-11 | Keys come out in entry order: the keys of two consecutive runs of entries are the first run's keys followed by the second's. |
| ClassNames.TruthyKeysSingle | apps/frontend/src/lib/utils.js:7-11 | One entry gives its key exactly when its value is truthy. |
| ClassNames.PiecesConcat | apps/frontend/src/lib/utils.js:2-13 | The pieces of consecutive arguments are concatenated, in argument order. |
| ClassNames.FalsyIgnored | apps/frontend/src/lib/utils.js:4 | A falsy argument contributes nothing wherever it stands. |
| ClassNames.StringsInOrder | apps/frontend/src/lib/utils.js:5 | Non-empty strings are kept, in argument order. |
| ClassNames.CnTwoStrings | apps/frontend/src/lib/utils.js:14-15 | Two class strings are joined by one space, and `cn()` is `''`. |
| ClassNames.CnDropsScalars | apps/frontend/src/lib/utils.js:12 | Truthy numbers and booleans are dropped. |
| ClassNames.CnObject | apps/frontend/src/lib/utils.js:7-11 | `{on: true, off: false, lg: 2}` gives `on lg`. |
| ClassNames.CnNestedArray | apps/frontend/src/lib/utils.js:6 | Arrays are spliced one level only, so a nested array prints comma-joined. |
| ClassNames.CnTrimmed | apps/frontend/src/lib/utils.js:14-15 | The result never starts or ends with whitespace. It is empty exactly when the joined pieces are blank. |
| Registration.ValidateOrder | apps/frontend/src/component/page/Register.jsx:30-42 | A request goes out exactly when the passwords agree and are at least 8 UTF-16 units long. A mismatch is reported first; 8 units pass and 7 do not. |
| Registration.RequestBodyFields | apps/frontend/src/component/page/Register.jsx:50-54 | The body carries name, e-mail and password, and no confirmation. |
| Registration.RegisterPage.constructor | apps/frontend/src/component/page/Register.jsx:7-14 | The form starts with four empty fields, no error and not loading. |
| Registration.RegisterPage.Change | apps/frontend/src/component/page/Register.jsx:17-23 | Only the named field changes, and the error is cleared. |
| Registration.RegisterPage.Submit | apps/frontend/src/component/page/Register.jsx:25-74 | A request is sent exactly when validation passes; a failed check shows its message. Only an OK reply stores token and user and goes to `/dashboard`. Other replies show `data.error` or `Registration failed`. Loading always ends. |
| Registration.MissingTokenStored | apps/frontend/src/component/page/Register.jsx:64 | An OK reply without a token stores the text `undefined`. |

## Left out

- Animation and canvas code is not modelled. That covers the orb, the particle text, and the radar chart and metric card geometry, which are drawn with `Math.random`, trigonometry and animation frames.
- Presentational pages and static data are not modelled: dashboard, home, header, profile, loading pages, UI wrappers and mock data.
- `toFixed(1)`, percentage rounding and other number display formatting are left out: they are floating-point formatting.
- Floating point and NaN are not modelled. Scores, times and amplitudes are exact reals. The only NaN modelled is the empty-list mean (`ResultsPage.Overall`).
- Feedback.ScoresOf does not compute a sum over a score that is not a number (JavaScript gives NaN or a concatenated string there): it returns `Ok(None)`, and the score lines show an uncomputed value.
- ResultsTechnicalPage.HasMetrics does not compute the guard for an object whose `length` is a string, an array or an object: it returns `None`.
- Only the single-step decision on each reply or tick is modelled. Timers and concurrency are left out:
  - the 3-second message and poll intervals;
  - overlapping poll requests;
  - the 5-second snapshot debounce;
  - React effect ordering.
- Foreign services are inputs, not behaviour:
  - `fetch` to the backend, the workflow and the problem service;
  - the voice SDK, `getUserMedia`, `FileReader`;
  - `JSON.parse`, `JSON.stringify`, `jwt.verify`;
  - environment variables.
- The `details` text next to the 500 errors, and console logging, are left out. The `details` text is a foreign exception's message.
- The ORM wrappers, user routes, server setup, debug script and build configuration are not part of this model.
- `typeof window === 'undefined'` (server-side rendering) is not modelled: a browser is assumed.
- The interview pages' effect that stores `currentSessionId` from the route (TechnicalInterviewPage.jsx:199-203) is left out. It is one unconditional store. The back button's cancel request is left out too: it goes to a route that is not part of this model.
- The behavioural page's session lookup is the same code as the technical page's. It is modelled once, as `TechnicalInterview.TechnicalPage.LoadSessionAgent`.
- BehaviouralInterview.StartCall only picks the agent (`CallAgentPrecedence`). The alert shown when starting fails is not modelled.
- The snapshot's own `fetch` and its failure are left out; only its payload is modelled.
- Prisma's `findFirst` order is not specified by the code. The model takes rows in insertion order (`Store.FindFirstOwned`).
- InterviewRoutes.AfterWebhook records an agent created without a user id as `Agent(id, Undefined)`. Whether the database accepts an agent without an owner depends on a schema that is not part of this model.
- The database errors of the callback route other than an unknown session are not modelled. That includes a racing duplicate agent insert.
- InterviewRoutes.PromptStep: `req.body` is assumed to be what `express.json()` produces, an object, an array or nothing (`ParsedBody`). The repeated `!interviewConfig` check at interviewRoutes.js:48-50 can never fire and is modelled once.
- Js.ToText: the decimal form of a non-integral number is not computed and gives `None`. This carries through to several members:
  - TechnicalInterview.BuildProblem returns `None` for a non-integral numeric title.
  - ClassNames.Cn returns `None` when such a number is spliced in from an array.
  - InterviewRoutes.RubricKey forms no key for such a seniority.
- TechnicalInterview.TechnicalPage.LoadSessionAgent requires a truthy `agentId` to have a computed string form (see `Js.ToText`). `localStorage.setItem` would store its decimal text.
- TechnicalInterview.TechnicalPage.LoadProblem requires the reply's title to have a computed string form, for the same reason.
- SessionWaiting.WaitingPage.HandleReply requires a truthy `agentId` of a ready reply to have a computed string form, for the same reason.
- Registration.RegisterPage.Submit requires the token of an OK reply to have a computed string form, for the same reason. It keeps the error as the value given to `new Error`, not its string conversion.
- TechnicalInterview.BuildProblem looks templates up in a plain map. In JavaScript an inherited key such as `constructor` finds a truthy value on the object prototype, which the page would return as the problem.
- BehaviouralInterview.OrbColors looks colours up in a plain map, so an inherited key such as `constructor` gets the default theme rather than the prototype's value.
- InterviewRoutes.ProfileOf looks profiles up in a plain map, so a preset naming an inherited key such as `constructor` attaches no profile, where the route would attach the prototype's function.
- Js.Lookup: an `Obj` may repeat a key, which no parsed or literal object does; the first entry wins there, where `JSON.parse` keeps the last. The all-inputs lemmas also cover such values.
- ClassNames.TruthyKeys: object entries are taken in insertion order. `Object.entries` would list integer-like keys first.
- Waveform.WeightedSum and waveform lengths count characters. The source counts UTF-16 code units (`length`, `charCodeAt`), which differ for characters outside the Basic Multilingual Plane.
- Feedback.FormatTime does not model the non-finite times (NaN, Infinity) a double can hold.
- Feedback.FormatTime takes a number or null, while a transcript entry's `timestart` is any JSON value. The pages call it on every present start time, and JavaScript coerces a string, a boolean or an object to a number (`"75"` shows 1:15, `true` 0:01, an object NaN:NaN). Start times that are not numbers are not modelled.
- InterviewSetup.Wizard.Submit models the `Authorization` header and the navigation. The request body is `JSON.stringify(formData)` and is not modelled, and the reply is ignored by the source.
- Landing.LandingPage.ToggleType models the disabled grid (App.jsx:121) as the guard of `handleToggle` at App.jsx:217.
