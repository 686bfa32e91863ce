# SmartHealth business rules in Dafny

This project models the decision logic of the SmartHealth web application, a
platform where patients and doctors sign up, patients book appointments that
doctors approve or reject, two chat assistants triage what the user writes or
says, and an image page sends medical images to hosted vision models and
presents the findings. The model covers:

- **Chat triage.** Symptom extraction, the running severity score and its
  Mild/Moderate/Severe label, specialization inference by keyword scores, the
  alias list of a specialization, and the de-duplicating doctor lookup.
- **The voice companion ("Haven").** Transcript cleanup, reply shortening, and
  the turn-taking flag that decides when speech is listened to.
- **Mental-health scoring.** The mental-health scores computed from recent chat
  sessions.
- **Appointments.** Appointment records and their status updates, and the
  patient and doctor API routes that guard them.
- **Validators.** The upload, signup, register, e-mail, password and user-data
  checks.
- **Image analysis.** Model selection, parsing of the vision model's answer
  text, ordering of findings, and normalisation of Hugging Face replies.
- **Page and context state.** The auth context, the FAQ toggle, the booking
  page and the vision page.

Each source file of the core is a Dafny module, with two split in two:
components/synaptix-ai/chat-interface.tsx becomes `Triage` and
`ChatSpecialization`, and app/api/analyze-image/route.ts becomes `Findings`
(the parsing and ordering of the answer text) and `AnalyzeImageRoute`. The
MongoDB `ObjectId` check is the module `ObjectIds`. Code that only computes is
written as functions and lemmas. Code that updates state step by step uses
methods over classes:

- the appointment and user stores;
- the auth context;
- the Haven session and its analytics;
- the booking, signup and vision pages;
- loops with their invariants.

All external answers are parameters of the operations that consume them: the
AI models' text, database reads, `fetch` replies, the clock, random draws,
password hashing and `Number(...)` parsing. Shared modules:

- `Js`: JavaScript truthiness and `||`.
- `Text`: JavaScript whitespace, `trim`, `toLowerCase`, `includes`, `split`
  and `join`.
- `Seqs`: sub-lists, duplicate-free lists and removal.
- `Scan`: the small regular-expression scanners used on the AI text.
- `Session`: the session cookie as the routes read it.

## Model

| member | source | states |
|---|---|---|
| Triage.ExtractedOccur | components/synaptix-ai/chat-interface.tsx:40-47 | every extracted symptom occurs in the lower-cased text |
| Triage.ExtractedInDict | components/synaptix-ai/chat-interface.tsx:42-46 | only dictionary entries are extracted |
| Triage.ExtractedComplete | components/synaptix-ai/chat-interface.tsx:40-47 | every dictionary entry that occurs in the lower-cased text is extracted |
| Triage.ExtractedDistinctInOrder | components/synaptix-haven/haven-chat.tsx:56-67 | the symptoms come without repeats and in dictionary order |
| Triage.CollectSymptoms | components/synaptix-haven/haven-chat.tsx:56-67 | the push loop of the companion's extractor yields exactly the filtered dictionary of the chat page |
| Triage.SeverityDelta | components/synaptix-ai/chat-interface.tsx:53-57 | the severity change of one message lies between -1 and 5 |
| Triage.SeverityDeltaSpec | components/synaptix-ai/chat-interface.tsx:53-57 | the change is +3 for a grave keyword, plus 2 for a worrying one, minus 1 for a reassuring one, each group counted once |
| Triage.SameGroupsSameDelta | components/synaptix-ai/chat-interface.tsx:53-57 | two messages that hit the same keyword groups get the same severity change |
| Triage.ChestPainAddsAtLeastFour | components/synaptix-ai/chat-interface.tsx:54-55 | "chest pain" hits both the +3 and the +2 groups |
| Triage.SeverityLabel | components/synaptix-ai/chat-interface.tsx:60-65 | Severe exactly from 6, Moderate exactly from 2 to 5, Mild exactly below 2 |
| Triage.SeverityLabelMonotone | components/synaptix-ai/chat-interface.tsx:60-65 | a higher score never gives a milder label |
| Triage.SessionAnalytics.constructor | components/synaptix-ai/chat-interface.tsx:35-37 | counters start at zero with no symptoms |
| Triage.SessionAnalytics.UpdateFromUser | components/synaptix-ai/chat-interface.tsx:49-58 | one more message, the symptom set only grows by the extracted symptoms, the score moves by the message's delta |
| ChatSpecialization.ScorePositiveIff | components/synaptix-ai/chat-interface.tsx:82-113 | a bucket is positive exactly when one of its keyword alternations matched; dermatology also needs no orthopedic match |
| ChatSpecialization.DampeningRule | components/synaptix-ai/chat-interface.tsx:113 | an orthopedic match cancels the dermatology score, never below 0; a cast mention alone does not |
| ChatSpecialization.ScoreBuckets | components/synaptix-ai/chat-interface.tsx:82-113 | the step-by-step bucket updates give the declared scores |
| ChatSpecialization.FirstMax | components/synaptix-ai/chat-interface.tsx:115 | the stable descending sort's head is a maximal bucket, and the first one among equals |
| ChatSpecialization.InferSpecialization | components/synaptix-ai/chat-interface.tsx:68-118 | no answer exactly when every bucket is at most 0; otherwise the earliest maximal specialization |
| ChatSpecialization.GetSpecAliases | components/synaptix-ai/chat-interface.tsx:120-132 | the alias list is never empty |
| ChatSpecialization.AliasesOfInferred | components/synaptix-ai/chat-interface.tsx:120-130 | each inferable specialization is tried under its own name first |
| ChatSpecialization.UnrecognisedSpecIsItsOwnAlias | components/synaptix-ai/chat-interface.tsx:131 | a specialization matching no branch yields just itself |
| ChatSpecialization.PushUnseen | components/synaptix-ai/chat-interface.tsx:144-146 | the results grow at the end by doctors from the answer, ids stay distinct, and every answered id ends up present |
| ChatSpecialization.AddUnseen | components/synaptix-ai/chat-interface.tsx:144-146 | the loop with its seen set computes that extension and keeps the seen set equal to the result ids |
| ChatSpecialization.PrefixQuery | components/synaptix-ai/chat-interface.tsx:152 | the fallback query is the first min(6, length) characters |
| ChatSpecialization.FirstHitIsFirst | components/synaptix-ai/chat-interface.tsx:139-150 | aliases are tried in order and the first one with any doctor decides |
| ChatSpecialization.FirstHitNone | components/synaptix-ai/chat-interface.tsx:139-150 | the alias loop finds nothing exactly when every alias answers empty |
| ChatSpecialization.RecommendedDistinct | components/synaptix-ai/chat-interface.tsx:136-163 | the recommended doctors have pairwise distinct ids |
| ChatSpecialization.FetchDoctorsForSpec | components/synaptix-ai/chat-interface.tsx:134-165 | the lookup loop returns the alias-then-prefix recommendation, without repeated ids |
| Haven.RemoveFillers | components/synaptix-haven/haven-chat.tsx:97-99 | removing filler words never lengthens the text |
| Haven.RemoveFillersIdempotent | components/synaptix-haven/haven-chat.tsx:97-99 | removing fillers twice is removing them once |
| Haven.CollapseSpaces | components/synaptix-haven/haven-chat.tsx:100 | collapsing never lengthens the text and keeps a leading non-space character |
| Haven.DropSpaceBeforePunct | components/synaptix-haven/haven-chat.tsx:101 | dropping spaces before punctuation never lengthens the text and keeps a leading non-space character |
| Haven.CollapseSpacesNoDoubleSpace | components/synaptix-haven/haven-chat.tsx:100 | after collapsing, no two whitespace characters are adjacent |
| Haven.DropLeavesNoSpaceBeforePunct | components/synaptix-haven/haven-chat.tsx:101 | no whitespace is left directly before `,` `.` `!` or `?` |
| Haven.DropKeepsNoDoubleSpace | components/synaptix-haven/haven-chat.tsx:100-101 | the punctuation step keeps spaces single |
| Haven.CleanupTranscript | components/synaptix-haven/haven-chat.tsx:95-103 | the cleaned transcript is trimmed and no longer than the input |
| Haven.CleanupTranscriptTidy | components/synaptix-haven/haven-chat.tsx:95-103 | the cleaned transcript has no double space and no space before punctuation |
| Haven.SplitSentences | components/synaptix-haven/haven-chat.tsx:333 | the split after `.` `!` `?` gives pieces with no inner sentence break, each but the last ending a sentence, and none after the first starting with whitespace |
| Haven.SplitJoinSingleSpaced | components/synaptix-haven/haven-chat.tsx:333 | joining the pieces with one space gives back a single-spaced text |
| Haven.SplitOfSentenceJoin | components/synaptix-haven/haven-chat.tsx:333 | splitting the one-space join of sentence pieces gives back exactly those pieces |
| Haven.FirstSentences | components/synaptix-haven/haven-chat.tsx:333 | the joined text splits into exactly the first three sentences of the input, or all of them when there are fewer |
| Haven.ShortenAI | components/synaptix-haven/haven-chat.tsx:332-336 | an uncut reply holds exactly the first three sentences; a cut reply is the first 350 characters of them plus `…`; at most 351 characters, non-empty for non-empty text |
| Haven.ShortenIsPrefix | components/synaptix-haven/haven-chat.tsx:332-336 | a shortened single-spaced reply is a prefix of the original, up to the ellipsis |
| Haven.ShortTextUnchanged | components/synaptix-haven/haven-chat.tsx:332-336 | up to three sentences within 350 characters come back unchanged |
| Haven.FallbackUnchanged | components/synaptix-haven/haven-chat.tsx:362-363 | the fallback reply survives shortening |
| Haven.KeptChunkReachesFinalText | components/synaptix-haven/haven-chat.tsx:220-228 | a final chunk with confidence of at least 0.5 reaches the final text |
| Haven.DroppedChunksLeaveNoFinalText | components/synaptix-haven/haven-chat.tsx:224-225 | when every final chunk is low-confidence there is no final text |
| Haven.GatherResults | components/synaptix-haven/haven-chat.tsx:218-231 | the result loop gathers exactly the kept final text and the interim text |
| Haven.Hear | components/synaptix-haven/haven-chat.tsx:218-254 | one batch of results gives the interim text, the buffer with the kept final text appended, and a quick flush exactly for final text without interim text |
| Haven.AppendFinal | components/synaptix-haven/haven-chat.tsx:241-243 | the utterance buffer stays trimmed |
| Haven.AppendFinalSpec | components/synaptix-haven/haven-chat.tsx:241-243 | blank final text leaves the buffer; otherwise the buffer becomes trim(buffer + " " + trim(text)) |
| Haven.HavenSession.constructor | components/synaptix-haven/haven-chat.tsx:37-45 | empty buffer, no reply awaited, no previous reply |
| Haven.HavenSession.OnResult | components/synaptix-haven/haven-chat.tsx:213-254 | results are ignored while a reply is awaited; otherwise the interim text is replaced, the kept final text appended, and the quick flush armed only for final text without interim text |
| Haven.HavenSession.FinalizeUtterance | components/synaptix-haven/haven-chat.tsx:105-119 | nothing happens while a reply is awaited or when the cleaned buffer is empty; otherwise the cleaned text becomes a user message, analytics take it in, the buffer empties and the reply is awaited |
| Haven.HavenSession.Submit | components/synaptix-haven/haven-chat.tsx:109-117 | the utterance is posted: buffer and interim text cleared, analytics updated, message appended, reply awaited |
| Haven.HavenSession.ReceiveReply | components/synaptix-haven/haven-chat.tsx:360-402 | as written: a reply equal to the last one changes nothing, not even the turn; a new reply is appended and remembered, and ends the turn when speech is unavailable |
| Haven.HavenSession.ReceiveReplyEndingTurn | components/synaptix-haven/haven-chat.tsx:364-366 | corrected: a repeated reply is still not shown but ends the turn; afterwards the session listens unless a new reply is being spoken |
| Haven.HavenSession.SpeechEnded | components/synaptix-haven/haven-chat.tsx:383-388 | the end of speech hands the turn back to the user and changes nothing else |
| Haven.RepeatedReplyIgnoresSpeech | components/synaptix-haven/haven-chat.tsx:214-217 | as written, after a repeated fallback reply without speech the user's next words are ignored and nothing is sent |
| Haven.RepeatedReplyEndsTurn | components/synaptix-haven/haven-chat.tsx:364-366 | with the correction, the same session takes the next words into its buffer |
| MentalHealth.CountSeverity | app/api/mental-health/route.ts:36-37 | a severity count is at most the number of sessions |
| MentalHealth.CountMentalHealth | app/api/mental-health/route.ts:44-47 | the count of mental-health sessions is at most the number of sessions |
| MentalHealth.Trend | app/api/mental-health/route.ts:62 | "+5% this week" exactly above 75, "Stable" exactly above 50 up to 75, "-3% this week" otherwise |
| MentalHealth.Assess | app/api/mental-health/route.ts:28-73 | all five scores lie in [0,100], the trend follows the overall score, the session count is reported |
| MentalHealth.ScoreSessions | app/api/mental-health/route.ts:28-75 | the in-sequence `-=`/`+=` updates and clamps compute that assessment |
| MentalHealth.Get | app/api/mental-health/route.ts:11-76 | 401 exactly when there is no session id; 500 exactly when `new ObjectId` refuses the id; otherwise the assessment of the recent sessions |
| MentalHealth.NoSessionsBaseline | app/api/mental-health/route.ts:28-35 | no sessions give 80, 30, 25, 85, 75 and "+5% this week" |
| MentalHealth.RawSnoc | app/api/mental-health/route.ts:36-52 | one more session shifts each raw score by its severity and mental-health contributions |
| MentalHealth.MoreSessionsNeverImprove | app/api/mental-health/route.ts:39-60 | adding sessions never raises overall, mood or sleep and never lowers stress or anxiety |
| MentalHealth.SevereSessionCosts15 | app/api/mental-health/route.ts:39-56 | a Severe session lowers the unclamped overall score by 15 |
| Session.SessionId | app/api/mental-health/route.ts:12-13 | a caller is identified exactly when the parsed session has a truthy id |
| Appointments.NewAppointment | lib/appointments.ts:43-54 | a new appointment is pending and unscheduled, with equal request/create/update times and the input's parties, deadline and notes |
| Appointments.StatusUpdate | lib/appointments.ts:136-145 | the status is set and updatedAt refreshed; a non-approval clears scheduledAt; an approval stores a given time and keeps the old one otherwise; no other field changes |
| Appointments.StatusUpdateIdempotent | lib/appointments.ts:130-146 | repeating an update changes nothing more |
| Appointments.LastDecisionWins | lib/appointments.ts:130-146 | the current status is not checked: a later decision overrides an earlier one |
| Appointments.AppointmentStore.constructor | lib/appointments.ts:35-57 | the store starts empty |
| Appointments.AppointmentStore.Create | lib/appointments.ts:35-57 | the new record is stored under its fresh id and nothing else changes |
| Appointments.AppointmentStore.UpdateStatus | lib/appointments.ts:130-146 | a stored record is updated in place; an unknown id leaves the store unchanged |
| Appointments.Profile | lib/appointments.ts:21-31 | a listed profile is "active", copies the public fields and carries no password |
| Appointments.ListDoctors | lib/appointments.ts:16-32 | one profile per doctor, in order |
| DoctorAppointmentsRoute.GetStatus | app/api/doctor/appointments/route.ts:12-24 | 401 without a session id, 500 for a session id that is not an ObjectId, 403 for a missing or non-doctor caller, 200 otherwise, each exactly |
| DoctorAppointmentsRoute.PatchDecision | app/api/doctor/appointments/route.ts:26-51 | each exactly when first to fail: 401, 500 for a session id that is not an ObjectId, 403, 500 for a body that is not JSON, 422 for a missing id or action or a missing approval time, 500 for an appointment id that is not an ObjectId, 404 for a missing or foreign appointment; approve/reject with the given time exactly when every check passes, and no other refusal code |
| DoctorAppointmentsRoute.OnlyOwnAppointments | app/api/doctor/appointments/route.ts:44-47 | a doctor can only change an appointment that exists and is theirs |
| DoctorAppointmentsRoute.Patch | app/api/doctor/appointments/route.ts:26-53 | the store changes exactly when every check passes, and then by that status update alone; each refusal answers its code with the store unchanged |
| DoctorAppointmentsRoute.ApprovalSchedules | app/api/doctor/appointments/route.ts:48-51 | an approval with a time leaves the appointment approved at that time |
| PatientAppointmentsRoute.CheckAccess | app/api/appointments/route.ts:11-15 | 401 without a session id, 403 for a role other than patient, and a session without a role passes as that patient |
| PatientAppointmentsRoute.GetStatus | app/api/appointments/route.ts:10-18 | the refusal code when access is denied; 500 exactly when the caller's id is not an ObjectId; 200 exactly otherwise |
| PatientAppointmentsRoute.Post | app/api/appointments/route.ts:20-33 | 201 exactly when access is granted, the body parses, doctorId and deadline are given and both ids are ObjectIds; 422 and 500 exactly on their failures; one appointment is created on 201, otherwise the store is unchanged |
| PatientAppointmentsRoute.CreatedForCaller | app/api/appointments/route.ts:31 | the created appointment belongs to the calling patient and is pending |
| MedicalModels.GetModelById | lib/utils/medical-models.ts:61-63 | corrected: an entry exactly for the seven declared keys, and that key's entry |
| MedicalModels.PropertyOf | lib/utils/medical-models.ts:62 | as written: the lookup is truthy for the declared keys and also for names inherited from Object.prototype |
| MedicalModels.InheritedNamesPassLookup | lib/utils/medical-models.ts:62 | "constructor" and "toString" pass the lookup though no model has those names |
| MedicalModels.DetectedIndex | lib/utils/medical-models.ts:48-55 | the chosen entry is the first, in declaration order, with an accepted type in the lower-cased name, or the X-ray entry when none has one |
| MedicalModels.DetectModelFromFilename | lib/utils/medical-models.ts:48-59 | the result is always a model key |
| MedicalModels.DetectModelIgnoresCase | lib/utils/medical-models.ts:49 | lower-casing the name first changes nothing |
| MedicalModels.EyeGoesToRetinopathy | lib/utils/medical-models.ts:16-51 | an "eye" name goes to diabetic retinopathy unless X-ray or dermatology matched first, glaucoma words notwithstanding |
| ImageValidation.ValidateImageFile | lib/utils/api.ts:39-65 | the non-image, too-large and unsupported messages each exactly when their check is the first to fail; none when all pass |
| ImageValidation.AcceptedIffWhitelistedAndSmall | lib/utils/api.ts:41-62 | a file is accepted exactly when its type is whitelisted and it is at most 10 MiB |
| ImageValidation.SizeBoundIsInclusive | lib/utils/api.ts:46-47 | exactly 10 MiB passes, one byte more does not |
| ImageValidation.SupportedTypesAreImages | lib/utils/api.ts:52-58 | every whitelisted type starts with "image/" |
| ImageDetection.DetectImageType | lib/utils/image-detection.ts:6-62 | corrected: always a model key: the exact trimmed lower-cased answer, else the first key it contains, else "xray" (also when the call fails) |
| ImageDetection.MatchKey | lib/utils/image-detection.ts:43-55 | corrected: the answer itself when it is a model key, else the first key it contains, else "xray" |
| ImageDetection.DetectImageTypeAsWritten | lib/utils/image-detection.ts:6-62 | as written: an answer that is an inherited name such as "constructor" is returned though it is no model key; otherwise as the corrected detection |
| ImageDetection.DetectedType | lib/utils/image-detection.ts:107-111 | a missing TYPE token gives "xray" |
| ImageDetection.ValidType | lib/utils/image-detection.ts:116 | corrected: a model key is kept, anything else becomes "xray" |
| ImageDetection.ValidTypeAsWritten | lib/utils/image-detection.ts:116 | as written: inherited names such as "constructor" pass as if they were model keys |
| ImageDetection.DetectedConfidence | lib/utils/image-detection.ts:108-120 | confidence defaults to 50 and is clamped to [0,100] |
| ImageDetection.DetectedReasoning | lib/utils/image-detection.ts:109-113 | reasoning is a non-empty trimmed single line |
| ImageDetection.ReasoningKept | lib/utils/image-detection.ts:109-113 | a given REASONING line is kept, trimmed |
| ImageDetection.AnalyzeWithAutoDetection | lib/utils/image-detection.ts:64-132 | corrected: a model key, a confidence in [0,100] and a reasoning; a failed call gives xray / 50 / the fallback reasoning |
| ImageDetection.AnalyzeWithAutoDetectionAsWritten | lib/utils/image-detection.ts:64-132 | as written: the detected type is a model key or an inherited name; it agrees with the corrected detection whenever the type is a model key, and always on confidence and reasoning |
| ImageDetection.WellFormedAnswerSelectsKey | lib/utils/image-detection.ts:88-107 | "TYPE: k" for a model key k selects k |
| ImageDetection.ConstructorPassesAsWritten | lib/utils/image-detection.ts:116 | "TYPE: constructor" is the detected type as written and "xray" when corrected |
| Findings.SortByScore | app/api/analyze-image/route.ts:188 | the sort keeps the number of findings |
| Findings.SortByScoreSpec | app/api/analyze-image/route.ts:188 | the sort gives descending scores and a permutation of its input |
| Findings.SortIsStable | app/api/analyze-image/route.ts:188 | findings with equal scores keep their order |
| Findings.SortOfSorted | app/api/analyze-image/route.ts:188 | sorting sorted findings changes nothing |
| Findings.Repaired | app/api/analyze-image/route.ts:191-196 | the repair keeps the number of findings |
| Findings.RepairedSpec | app/api/analyze-image/route.ts:191-196 | the repair loop's result is descending and keeps every name in place |
| Findings.RepairedOfSorted | app/api/analyze-image/route.ts:191-196 | the repair leaves descending findings unchanged |
| Findings.RepairOrder | app/api/analyze-image/route.ts:191-196 | the in-place index loop over the array computes the repair |
| Findings.FindingsSection | app/api/analyze-image/route.ts:160 | a section exactly when the lower-cased text contains "findings:" |
| Findings.DashLines | app/api/analyze-image/route.ts:165 | only lines starting with `-` after trimming are kept |
| Findings.SplitParse | app/api/analyze-image/route.ts:176-184 | the colon split fails exactly when the dash-stripped line has no colon |
| Findings.ParseLine | app/api/analyze-image/route.ts:167-185 | a parsed finding's name is trimmed |
| Findings.WellFormedLineParses | app/api/analyze-image/route.ts:168-173 | "- label: N%" parses to the trimmed label with score N |
| Findings.ParseLines | app/api/analyze-image/route.ts:166-186 | the loop yields at most one finding per line |
| Findings.PrimaryCapture | app/api/analyze-image/route.ts:161 | the captured primary diagnosis stays within one line |
| Findings.PrimaryFinding | app/api/analyze-image/route.ts:201-208 | the primary finding has a trimmed name, and score 75 when no percentage is given |
| AnalyzeImageRoute.UploadError | app/api/analyze-image/route.ts:27-56 | missing file, non-image type and oversize each exactly when first to fail |
| AnalyzeImageRoute.DetectionFor | app/api/analyze-image/route.ts:63-77 | corrected: detection runs exactly in auto mode and yields a model key |
| AnalyzeImageRoute.ModelKeyFor | app/api/analyze-image/route.ts:63-77 | corrected: auto mode gives a model key, "xray" if detection fails; otherwise the requested key |
| AnalyzeImageRoute.DetectionForAsWritten | app/api/analyze-image/route.ts:63-77 | as written: detection runs exactly in auto mode; its type is a model key or an inherited name, and with a model key it is the corrected detection |
| AnalyzeImageRoute.ModelKeyForAsWritten | app/api/analyze-image/route.ts:63-77 | as written: the key differs from the corrected one only in auto mode and only by an inherited name |
| AnalyzeImageRoute.ResultsFromTextSpec | app/api/analyze-image/route.ts:163-220 | results are never empty and descend by score; parsed section findings are used when there are any |
| AnalyzeImageRoute.RepairAfterSortChangesNothing | app/api/analyze-image/route.ts:188-196 | the repair loop after the sort never changes anything |
| AnalyzeImageRoute.PrimaryFallback | app/api/analyze-image/route.ts:200-209 | without section findings the primary diagnosis is the single result |
| AnalyzeImageRoute.DefaultFinding | app/api/analyze-image/route.ts:212-217 | without either, the single result is "Medical Analysis Completed" at 65 |
| AnalyzeImageRoute.SectionResults | app/api/analyze-image/route.ts:163-187 | the parsing loop yields the section findings |
| AnalyzeImageRoute.RepairInArray | app/api/analyze-image/route.ts:191-196 | the array repair applied to a sequence |
| AnalyzeImageRoute.AnalysisResults | app/api/analyze-image/route.ts:96-236 | a failed analysis gives the two fixed findings; otherwise the findings of the answer text |
| AnalyzeImageRoute.Post | app/api/analyze-image/route.ts:21-320 | corrected: 400 on an upload error or a key that is no model key, success exactly otherwise, with the model's name and the analysis results |
| AnalyzeImageRoute.PostAsWritten | app/api/analyze-image/route.ts:21-320 | as written: 400 on an upload error or a key the lookup finds nothing for; an inherited name gives success with the fixed fallback findings named after the member's `name`; a model key gives the corrected reply |
| AnalyzeImageRoute.ConstructorSelectedAsWritten | app/api/analyze-image/route.ts:63-88 | the field "constructor", or the detection answer "TYPE: constructor", selects the inherited `Object` as written; the corrected choice is no model, or "xray" |
| AnalyzeImageRoute.AutoModeFindsModel | app/api/analyze-image/route.ts:66-80 | in auto mode the model lookup never fails |
| AnalizeImageRoute.NumberOr | app/api/analize-image/route.ts:66 | `score \|\| confidence \|\| 0` with JavaScript falsiness |
| AnalizeImageRoute.Normalise | app/api/analize-image/route.ts:64-67 | label falls back to class then "Unknown"; score falls back to confidence then 0 |
| AnalizeImageRoute.ZeroScoreFallsThrough | app/api/analize-image/route.ts:66 | a score of 0 is replaced by a truthy confidence |
| AnalizeImageRoute.NormaliseAll | app/api/analize-image/route.ts:63-67 | the mapping keeps length and order and normalises each element; it fails exactly when an element is null |
| AnalizeImageRoute.ModelKey | app/api/analize-image/route.ts:9 | a missing or empty model parameter means "xray" |
| AnalizeImageRoute.FromBody | app/api/analize-image/route.ts:62-83 | success carries the model's name; a non-array success has at least one result; failure is 500, with the null-read message exactly for a null body or a null array element |
| AnalizeImageRoute.Reply | app/api/analize-image/route.ts:46-83 | a failed call passes its status and text on; otherwise the body decides |
| AnalizeImageRoute.Post | app/api/analize-image/route.ts:5-100 | corrected: 400 for a missing file or a key that is no model key, the upstream status when it is not ok, else the normalised answer |
| AnalizeImageRoute.PostAsWritten | app/api/analize-image/route.ts:5-100 | as written: an inherited name passes the model check and the reply carries that member's `name`; for every other key the corrected reply |
| AnalizeImageRoute.ConstructorAcceptedAsWritten | app/api/analize-image/route.ts:21-30 | the model field "constructor" is refused when corrected and accepted as written, reported as the model "Object" |
| AnalizeImageRoute.DefaultModelIsXray | app/api/analize-image/route.ts:9-21 | without a model parameter the X-ray model is used |
| AnalizeImageRoute.ArrayAnswerNormalised | app/api/analize-image/route.ts:63-67 | an array answer without null elements succeeds with every item normalised |
| AnalizeImageRoute.NullElementFails | app/api/analize-image/route.ts:64-65 | a null element makes the whole answer a 500 with the null-read message |
| AnalizeImageRoute.SingleObjectAnswer | app/api/analize-image/route.ts:68-74 | a single object with label or class becomes a one-element list |
| AnalizeImageRoute.OtherShapesFail | app/api/analize-image/route.ts:75-83 | any other shape gives 500 "Unexpected response format from AI model" |
| AuthContext.FiniteNonNegativeAccepted | hooks/useAuth.tsx:151-152 | a finite non-negative experience is accepted |
| AuthContext.RegistrationError | hooks/useAuth.tsx:138-155 | the identity, role, location, specialization and experience checks in order; none exactly when all pass |
| AuthContext.Settle | hooks/useAuth.tsx:107-122 | success exactly for an ok reply with success set; otherwise a message is always given |
| AuthContext.LoginOutcome | hooks/useAuth.tsx:92-124 | success exactly for non-empty credentials and an accepted reply; empty credentials fail with the fixed message |
| AuthContext.RegisterOutcome | hooks/useAuth.tsx:126-186 | success exactly for data passing the checks and an accepted reply; a failed check is the outcome |
| AuthContext.LogoutOutcome | hooks/useAuth.tsx:188-217 | success exactly for an ok reply; fixed messages on a failed request |
| AuthContext.VerifiedUser | hooks/useAuth.tsx:62-90 | the user is known exactly when the session check answers with one |
| AuthContext.AuthState.constructor | hooks/useAuth.tsx:53-55 | no user, not authenticated, loading |
| AuthContext.AuthState.CheckAuth | hooks/useAuth.tsx:62-90 | afterwards loading is over and authenticated exactly when a user is set |
| AuthContext.AuthState.Login | hooks/useAuth.tsx:92-124 | success sets the answered user and authenticated; failure changes nothing |
| AuthContext.AuthState.Register | hooks/useAuth.tsx:126-186 | success sets the answered user and authenticated; failure changes nothing |
| AuthContext.AuthState.Logout | hooks/useAuth.tsx:188-217 | the user is cleared on every path |
| AuthContext.EmptyCredentialsIgnoreReply | hooks/useAuth.tsx:94-96 | with an empty credential the outcome does not depend on any reply |
| AuthContext.RejectedRegistrationIgnoresReply | hooks/useAuth.tsx:138-155 | data failing a check is rejected whatever the server would answer |
| AuthContext.InfiniteExperiencePasses | hooks/useAuth.tsx:151-152 | an infinite experience passes the register check |
| Achievements.Split | app/auth/signup/page.tsx:100-103 | pieces are non-empty, trimmed and free of commas and line breaks |
| Achievements.SplitOfJoin | app/auth/signup/page.tsx:100-103 | splitting comma-joined clean items gives them back |
| Achievements.SplitOfBlank | app/api/auth/signup/route.ts:86-88 | blank text gives no achievements |
| UserModel.SanitizeUser | lib/models/user.ts:11-17 | no password; every other field kept; id from `_id` when present, else the old id |
| UserModel.SanitizeKeepsId | lib/models/user.ts:15 | without `_id` the existing id is kept |
| UserModel.SanitizeIdempotent | lib/models/user.ts:11-17 | sanitising twice is sanitising once |
| UserModel.CreateDefaultUserData | lib/models/user.ts:19-35 | every progress and stats counter is 0 and both times are now |
| UserModel.DefaultsDependOnlyOnTime | lib/models/user.ts:19-35 | untouched default data is fixed by its times |
| SignupRoute.InputError | app/api/auth/signup/route.ts:20-37 | identity, role, location and doctor checks, each reported exactly when first to fail |
| SignupRoute.NormalizeEmail | app/api/auth/signup/route.ts:43 | the stored address is trimmed and lower case |
| SignupRoute.NormalizeEmailIdempotent | app/api/auth/signup/route.ts:43 | normalising twice is normalising once |
| SignupRoute.NormalizeIgnoresCase | app/api/auth/signup/route.ts:43 | addresses differing in case are the same account |
| SignupRoute.DoctorAchievements | app/api/auth/signup/route.ts:82-89 | a list is kept, text is split, anything else gives none |
| SignupRoute.NewRecord | app/api/auth/signup/route.ts:71-98 | the stored record has the normalised fields; a patient gets no specialization, 0 experience and no achievements; default counters |
| SignupRoute.Post | app/api/auth/signup/route.ts:20-119 | 422 exactly on bad input, sign-in for a known address with a matching password, 409 for a known address otherwise, creation exactly for a new address |
| SignupRoute.StoreKeysNormalised | app/api/auth/signup/route.ts:43-100 | accounts stay keyed by normalised addresses |
| SignupRoute.RepeatedSignupSignsIn | app/api/auth/signup/route.ts:45-63 | signing up again with the same data signs in |
| SignupRoute.PatientIgnoresDoctorFields | app/api/auth/signup/route.ts:78-95 | a patient's record does not depend on the doctor fields |
| SignupPage.ValidateForm | app/auth/signup/page.tsx:60-85 | the first failing check in the order name, email, password of 4, confirmation, role, location, specialization, experience; none exactly when all pass |
| SignupPage.PatientSkipsDoctorChecks | app/auth/signup/page.tsx:79-83 | the doctor fields do not matter for a patient |
| SignupPage.Prepare | app/auth/signup/page.tsx:87-115 | the submit handler computes the form's first problem and the payload it sends |
| SignupPage.Payload | app/auth/signup/page.tsx:105-115 | trimmed name, email and location; doctor fields only for doctors; a picture only when given |
| SignupPage.AcceptedFormPassesRegister | app/auth/signup/page.tsx:87-115 | a form the page accepts also passes the register checks of the auth context |
| SignupPage.PassingFormPassesRegister | app/auth/signup/page.tsx:60-83 | the same under the page's individual checks |
| SignupPage.SignupView.constructor | app/auth/signup/page.tsx:27-28 | no error and not loading |
| SignupPage.SignupView.Submit | app/auth/signup/page.tsx:87-127 | a failed check shows its message and registers nothing; otherwise the payload goes to register and its outcome decides the error |
| AuthUtils.ValidateEmailIffPattern | lib/auth-utils.ts:46-49 | the check accepts exactly the texts `^[^\s@]+@[^\s@]+\.[^\s@]+$` matches |
| AuthUtils.SecondAtRejected | lib/auth-utils.ts:47 | a text with two `@` is rejected |
| AuthUtils.ValidatePassword | lib/auth-utils.ts:52-63 | valid exactly from 6 characters, and then without messages; otherwise exactly the one message |
| UserService.UserDataErrors | lib/user-service.ts:169-192 | each failing check reports its message, in check order, and the list is empty exactly when all pass |
| UserService.ValidateUserData | lib/user-service.ts:169-192 | the push sequence yields those errors; valid exactly when there are none |
| UserService.Public | lib/user-service.ts:52-60 | the public user keeps id, name, e-mail and timestamps, and has no password field |
| UserService.NewUser | lib/user-service.ts:41-47 | the stored name is trimmed, the address lower case, the hash kept |
| UserService.CreateOutcome | lib/user-service.ts:12-70 | validation errors joined by ", ", or an existing account, or success with the public user |
| UserService.AuthenticateOutcome | lib/user-service.ts:75-134 | a malformed address first; success exactly for a stored address with a matching password; every other failure is "Invalid credentials" |
| UserService.UnknownAndWrongPasswordAlike | lib/user-service.ts:91-106 | an unknown address and a wrong password get the same answer |
| UserService.MalformedEmailIgnoresStore | lib/user-service.ts:81-87 | a malformed address is answered without the store |
| UserService.UserStore.constructor | lib/user-service.ts:12-70 | an empty collection |
| UserService.UserStore.CreateUser | lib/user-service.ts:12-70 | success stores the new user under its lower-cased address; failure changes nothing |
| UserService.UserStore.AuthenticateUser | lib/user-service.ts:75-134 | success refreshes that account's updatedAt alone; failure changes nothing |
| BookingPage.FilterDoctors | app/appointments/book/page.tsx:60-62 | an order-preserving sub-list of matching doctors that keeps every copy of each matching doctor and drops every other |
| BookingPage.Filtered | app/appointments/book/page.tsx:58-63 | the filter applies the trimmed, lower-cased search text, keeping every copy of each matching doctor in order |
| BookingPage.FilterAllMatch | app/appointments/book/page.tsx:60-62 | when every doctor matches, the list is unchanged |
| BookingPage.BlankSearchKeepsAll | app/appointments/book/page.tsx:59-61 | a blank search keeps every doctor |
| BookingPage.Specializations | app/appointments/book/page.tsx:65-68 | sorted, without repeats, exactly the non-empty specializations on offer |
| BookingPage.StrictlySortedUnique | app/appointments/book/page.tsx:67 | a sorted duplicate-free list is fixed by its members |
| BookingPage.SpecializationsIgnoreOrder | app/appointments/book/page.tsx:65-68 | the list depends only on which specializations occur |
| BookingPage.Query | app/appointments/book/page.tsx:50 | a query only for a specialization other than "all" |
| BookingPage.BookingView.constructor | app/appointments/book/page.tsx:25-33 | empty form, specialization "all", no message |
| BookingPage.BookingView.ApplyQuery | app/appointments/book/page.tsx:35-46 | non-blank query parameters preselect specialization and doctor |
| BookingPage.BookingView.ReceiveDoctors | app/appointments/book/page.tsx:48-56 | a successful answer replaces the doctor list |
| BookingPage.BookingView.Submit | app/appointments/book/page.tsx:70-93 | no request without a doctor, date and time; success clears doctor, date, time and notes; failure shows the server message or the default |
| ImageChecker.ResultIcon | components/synaptix-vision/image-checker.tsx:181-186 | alert from 80%, eye from 60%, check below |
| ImageChecker.ResultColor | components/synaptix-vision/image-checker.tsx:188-193 | red from 80%, yellow from 60%, green below |
| ImageChecker.ResultSeverity | components/synaptix-vision/image-checker.tsx:195-200 | high from 80%, moderate from 60%, low below |
| ImageChecker.BandsAgree | components/synaptix-vision/image-checker.tsx:181-200 | icon, colour and severity always name the same band |
| ImageChecker.HigherScoreNeverLowerBand | components/synaptix-vision/image-checker.tsx:195-200 | a higher score never gets a lower band |
| ImageChecker.TopIndex | components/synaptix-vision/image-checker.tsx:135 | the top result has the highest score, the first among equals |
| ImageChecker.Round | components/synaptix-vision/image-checker.tsx:141 | `Math.round`: the integer within half a unit, halves rounded up |
| ImageChecker.RoundMonotone | components/synaptix-vision/image-checker.tsx:141 | rounding keeps order |
| ImageChecker.ConfidenceInRange | components/synaptix-vision/image-checker.tsx:141 | a score in [0,1] gives a confidence in [0,100] |
| ImageChecker.Recommendation | components/synaptix-vision/image-checker.tsx:137 | suggestions, else explanation, else the default text |
| ImageChecker.Category | components/synaptix-vision/image-checker.tsx:143 | detected type, else model used, else "General" |
| ImageChecker.PersistedRecord | components/synaptix-vision/image-checker.tsx:133-156 | a successful result with findings saves the top finding; a failure saves an "Error" record of confidence 0; a success without findings saves nothing |
| ImageChecker.TopConfidenceHighest | components/synaptix-vision/image-checker.tsx:135-141 | the saved confidence is the highest rounded confidence |
| ImageChecker.RecordConfidenceInRange | components/synaptix-vision/image-checker.tsx:141 | the saved confidence lies in [0,100] |
| ImageChecker.RemoveStarsAfterPairs | components/synaptix-vision/image-checker.tsx:591-594 | removing `**` pairs first makes no difference once every `*` goes |
| ImageChecker.Clean | components/synaptix-vision/image-checker.tsx:591-594 | the cleaned text has no `*` and is trimmed |
| ImageChecker.SplitStops | components/synaptix-vision/image-checker.tsx:597 | the split on runs of `.` `!` `?` leaves no stop character in any piece |
| ImageChecker.NonBlank | components/synaptix-vision/image-checker.tsx:597 | blank pieces are dropped |
| ImageChecker.ItemsShaped | components/synaptix-vision/image-checker.tsx:602-605 | each list item is a trimmed sentence ending in one `.` |
| ImageChecker.FormatSuggestions | components/synaptix-vision/image-checker.tsx:589-612 | a list exactly when there is more than one piece, its items shaped; otherwise the cleaned paragraph |
| ImageChecker.FormatOfJoin | components/synaptix-vision/image-checker.tsx:591-611 | plain sentences joined by ". " become one item each, ending in "." |
| ImageChecker.VisionView.constructor | components/synaptix-vision/image-checker.tsx:16-23 | nothing uploaded, not analysing, progress 0 |
| ImageChecker.VisionView.ProcessImageFile | components/synaptix-vision/image-checker.tsx:26-51 | a rejected file sets the upload error and is not read; an accepted one is selected with its data, and a failed read still selects it with the read error shown |
| ImageChecker.VisionView.RemoveImage | components/synaptix-vision/image-checker.tsx:79-88 | image, file, result and error cleared, progress 0 |
| ImageChecker.VisionView.StartAnalysis | components/synaptix-vision/image-checker.tsx:90-104 | starts exactly when a file is uploaded: analysing, progress 0 at stage 0, interval running |
| ImageChecker.VisionView.Tick | components/synaptix-vision/image-checker.tsx:106-116 | the next stage's progress and label are shown in order; progress never goes back |
| ImageChecker.VisionView.Complete | components/synaptix-vision/image-checker.tsx:121-123 | progress 100, above every stage, with "Complete!" |
| ImageChecker.VisionView.ShowResult | components/synaptix-vision/image-checker.tsx:126-160 | the result is shown, analysis ends, and the saved record is the persisted record |
| ImageChecker.VisionView.Fail | components/synaptix-vision/image-checker.tsx:161-178 | analysis ends with a failure result and progress reset |
| Faq.Toggle | app/home/faq-section.tsx:11 | toggling flips the index's membership and no other |
| Faq.ToggleOpen | app/home/faq-section.tsx:11 | closing removes the index and keeps the rest in order |
| Faq.ToggleClosed | app/home/faq-section.tsx:11 | opening appends the index at the end |
| Faq.ToggleKeepsOthers | app/home/faq-section.tsx:11 | the other indices and their order are unchanged |
| Faq.ToggleTwice | app/home/faq-section.tsx:11 | toggling twice restores membership, and the exact list when the index started closed |
| Faq.ToggleDistinct | app/home/faq-section.tsx:11 | a list without repeats stays without repeats |

## Left out

- Gemini, Hugging Face and Overpass calls, and the prompts sent to them, are not modelled. Their answer texts, or the fact that they failed, are parameters.
- MongoDB access is not modelled: queries, aggregation, `$regex`, sorting, limits and the seven-day window. Stores are maps, and query results are parameters.
- bcrypt hashing and comparison, and JWT signing and verification, are opaque parameters.
- Cookie setting is not modelled. The session cookie is read as an already-parsed value.
- The following run in the browser and are not modelled:
  - timers (silence, quick-finalize and progress intervals): their firing is a method call;
  - speech recognition and synthesis, and recognition auto-restart;
  - AbortController and the request-id staleness check in `sendToAPI`: a reply is assumed current.
- The Haven `sendToAPI` request body is not modelled: the history slice and the emotion tag. The pitch and energy emotion estimator is floating-point signal processing and is not modelled either.
- Haven.HavenSession.ReceiveReply: an exception in `sendToAPI` is not modelled. On that path the awaiting flag is not reset either.
- `Math.random` score draws and `Date.now` ids and timestamps are parameters.
- JSX, styling, the map view and `haversine` are not modelled.
- `toLowerCase` is modelled on ASCII letters only. Lengths count code points, not UTF-16 units.
- Vision scores in the image page are reals in [0,1], because `Math.round(score * 100)` is modelled exactly. The server routes use integer percentages.
- `Number(...)` parsing is a parameter. `encodeURIComponent` is a parameter. Dates are kept as the text handed to `new Date(...)`.
- The mental-health POST only inserts a record and is not modelled.
- `extractResultsFromResponse` in app/api/analyze-image/route.ts is never called and is not modelled.
- `getUserById` and `getUserByEmail` in lib/user-service.ts are plain lookups and are not modelled.
- The explanation and suggestion request in app/api/analyze-image/route.ts (lines 248-302) is another model call. Its texts are parameters of the response.
- Exceptions are modelled where the routes' answers depend on them: identifiers `new ObjectId` refuses, request bodies that are not JSON, `null` in a Hugging Face reply, and the missing `description` of an inherited model entry. Not modelled:
  - the exception path of the booking page's `res.json()`;
  - the signup route's 500 path;
  - database errors in lib/user-service.ts.
- AnalyzeImageRoute.Post: the outer `catch` of app/api/analyze-image/route.ts answers 500 with the error's message, and that path is not modelled. It is reached when `request.formData()` throws, when the `image` field is a string (reading `file.type.startsWith` throws), or when `file.arrayBuffer()` fails. The upload is modelled as a file or nothing.
- AnalizeImageRoute.Post: the `catch` of app/api/analize-image/route.ts answers 500 with the error's message, and that path is not modelled. It is reached when `request.formData()` throws, when the `image` field is a string (it has no `arrayBuffer`), when `fetch` itself rejects, or when the upstream body is not JSON. The upload is modelled as present or absent, and the upstream body as parsed JSON.
- ObjectIds.WellFormedId: the identifiers stay the strings given, while the driver reads hex digits in either case. An id in upper case therefore finds the stored lower-case record in the source, but not in the model's maps.
- ObjectIds.WellFormedId: only string identifiers are modelled. A number in a request body, which `new ObjectId` would also accept, is not.
- AnalyzeImageRoute.PostAsWritten: the log lines and the second model call are not modelled. That call is skipped anyway on the fallback path an inherited name takes.
- UserModel.CreateDefaultUserData: one clock reading `now` stands for the two `new Date()` calls. The source's `createdAt` and `lastLogin` can differ by the time between the two calls.
- UserService.NewUser: one `now` stands for the two `new Date()` calls, so `createdAt` and `updatedAt` are equal here but may differ in the source.
- BookingPage.Specializations: strings are ordered by code point. JavaScript's default sort compares UTF-16 code units, and the two orders differ only for characters outside the Basic Multilingual Plane.
- The vision page is partly modelled:
  - the reset of the DOM file input is not modelled;
  - the drag state is not modelled;
  - logging of the detected model is not modelled;
  - the saved analysis is returned as a record instead of being posted.
- AuthContext.AuthState.Login: the state is proved consistent only when the reply carries a user. The source sets `user` to whatever the reply holds, which may be undefined, while `isAuthenticated` is set to true.
- AuthContext.AuthState.Register: the same as for Login.

## Findings

| source | as written | input that shows it | evidently intended | confidence | as-written member | corrected member |
|---|---|---|---|---|---|---|
| lib/utils/medical-models.ts:62, lib/utils/image-detection.ts:116 | `MEDICAL_MODELS[key]` is also truthy for names inherited from Object.prototype. `getModelById` and the TYPE check therefore accept keys that no model has. | the detection answer "TYPE: constructor" | only the seven declared keys are accepted; anything else falls back to "xray" or null | not executed | ImageDetection.ConstructorPassesAsWritten | ImageDetection.ValidType |
| lib/utils/image-detection.ts:43 | `detectImageType` returns the normalised answer whenever `MEDICAL_MODELS[response]` is truthy, which includes the inherited names. | the answer " Constructor" | only a model key is returned; anything else goes on to the substring search | not executed | ImageDetection.DetectImageTypeAsWritten | ImageDetection.DetectImageType |
| app/api/analyze-image/route.ts:79-80 | the model check accepts an inherited name. Building the prompt then reads its missing `description` and throws, so the analysis falls back and the reply is a success, "Object Assessment Completed", for the model "Object" (AnalyzeImageRoute.PostAsWritten). | the model field "constructor", or in auto mode the detection answer "TYPE: constructor" | 400 "Invalid model specified" for a chosen key; "xray" for a detected one | not executed | AnalyzeImageRoute.ConstructorSelectedAsWritten | AnalyzeImageRoute.Post |
| app/api/analize-image/route.ts:21-22 | the model check accepts an inherited name; the service is called for the model id `undefined` and a reply is reported for the model "Object". | the model field "constructor" | 400 "Invalid model specified" | not executed | AnalizeImageRoute.ConstructorAcceptedAsWritten | AnalizeImageRoute.Post |
| components/synaptix-haven/haven-chat.tsx:364-366 | a reply equal to the previous one returns before the awaiting flag is reset. The flag is reset only at 388 and 401, so every later result is ignored (214-217) and nothing is sent again (106). | the server twice sends no text, so the fallback "I'm here with you." repeats, with speech synthesis unavailable | a suppressed repeated reply still ends the turn | not executed | Haven.RepeatedReplyIgnoresSpeech | Haven.RepeatedReplyEndsTurn |
