# Emotion-aware journaling: a Dafny model of the services and the client logic

The application lets a user register, log in, write journal entries and see
the emotions a classifier detects in each entry. This project models, in
Dafny, the parts of it that decide what happens:

- the Flask backend's services: authentication (`backend/app/auth/services.py`),
  journal entries scoped by owner (`backend/app/journals/services.py`), the ORM
  rows and their `to_dict` projections (`backend/app/models.py`), and the
  client of the emotion-detection service (`backend/app/emotion_analysis/services.py`);
- the older journal handlers of `back_end/app/journals/routes.py`, with the
  local classifier runner `backend/app/emotion_detect/emotion_model_run.py`;
- the emotion-detection services: request validation of both variants
  (`emotion_detection_service/app/emotion/services.py`,
  `nlp_model/app/emotion/services.py`), the `EmotionDetection` class
  (`nlp_model/app/emotion/emotion_detection.py`: windowing of long texts,
  thresholding, ranking and `top_k`), and the exception hierarchy
  (`emotion_detection_service/app/utils/custom_exceptions.py`);
- the React client: the authentication context, the route guard, the login
  and registration forms, the timeline filter, and the view, edit, create and
  profile pages.

Python services are modelled as classes whose fields are the tables they
change (a map from key to row), with the clock, the hash, the outcome of
`db.session.commit()` and the classifier as parameters. Input validation is a
function returning a `Result`, so every error path carries the exception the
source raises, in the source's order. Python's truthiness, `.strip()`,
`.lower()`, dict ordering and stable sorting are modelled explicitly. React
components are classes whose fields are their `useState` variables; each
handler is a method whose outcome from the network is a parameter (`Outcome`:
the resolved body, `undefined` from a wrapper that swallowed the error, or a
rejection). Where the client has a bug, the model has both the handler as
written and a corrected one (see Findings).

## Model

| member | source | states |
|---|---|---|
| AppErrors.NewError | emotion_detection_service/app/utils/custom_exceptions.py:5-12 | a truthy message or status code replaces the class default; details and path are stored as given |
| AppErrors.ToDict | emotion_detection_service/app/utils/custom_exceptions.py:14-22 | message, status code and path are always present; details appear exactly when truthy |
| AppErrors.RaiseCarriesMessage | emotion_detection_service/app/utils/custom_exceptions.py:24-46 | raising a subclass with a non-empty message keeps that message and the subclass's status code |
| AppErrors.StripValue | backend/app/auth/services.py:27-28 | `.strip()` succeeds exactly on strings, giving the stripped text; anything else raises AttributeError |
| Models.User.Password | backend/app/models.py:17-19 | reading the password always raises AttributeError |
| Models.User.SetPassword | backend/app/models.py:21-25 | succeeds exactly on a non-blank string; then only the digest changes, to that of the raw value; a falsy or blank value raises ValueError |
| Models.SetPasswordThenCheck | backend/app/models.py:21-28 | after setting a password, `check_password` accepts that password and no other |
| Models.User.ToDict | backend/app/models.py:33-39 | exactly id, names and email; the digest is never exposed |
| Models.Emotion.ToDict | backend/app/models.py:80-84 | name and confidence, as stored |
| Models.EmotionList | backend/app/models.py:63 | one dict per emotion, in relationship order |
| Models.EntryToDict | backend/app/models.py:58-65 | the five keys; a missing title or timestamp becomes null |
| AuthServices.LoginPresence | backend/app/auth/services.py:22-25 | no error exactly when email and password are present and truthy |
| AuthServices.LoginInput | backend/app/auth/services.py:20-33 | accepted exactly when both fields are non-blank strings; the result is the stripped, lower-cased email and the stripped password |
| AuthServices.LoginInputOrder | backend/app/auth/services.py:20-25 | the body is checked first, then the email, then the password |
| AuthServices.BlankEmailIsRequired | backend/app/auth/services.py:27-31 | an email of spaces passes the presence check but is refused as required after stripping |
| AuthServices.RegisterPresence | backend/app/auth/services.py:70-77 | no error exactly when all four fields are present and truthy |
| AuthServices.RegisterValidate | backend/app/auth/services.py:84-99 | no error exactly when the normalised names, email and password are non-empty, the email has the pattern's shape and the password has at least 8 characters |
| AuthServices.RegisterInput | backend/app/auth/services.py:68-99 | an accepted body is all text and its result is the normalised registration |
| AuthServices.RegisterStages | backend/app/auth/services.py:68-99 | accepted exactly when presence, string type and the normalised checks all pass |
| AuthServices.NonBlankFields | backend/app/auth/services.py:70-91 | presence, string type and non-emptiness after stripping together mean each field is non-blank text |
| AuthServices.RegisterAccepts | backend/app/auth/services.py:68-99 | accepted exactly when the four fields are non-blank strings, the normalised email matches the pattern and the stripped password has at least 8 characters |
| AuthServices.RegisteredEmailMatchesPattern | backend/app/auth/services.py:93-96 | every accepted email satisfies the regular expression |
| AuthServices.RegisterInputOrder | backend/app/auth/services.py:68-77 | the body, then first name, last name, email and password, in that order, decide the message |
| AuthServices.BlankFirstNameRefused | backend/app/auth/services.py:79-85 | a first name of spaces is refused after stripping |
| AuthServices.AcceptedPasswordIsSettable | backend/app/auth/services.py:98-110 | an accepted password never makes the `password` setter raise |
| AuthServices.RegisteredRow | backend/app/auth/services.py:105-110 | the row built from accepted input, given its password, is the new user |
| AuthServices.NewUser | backend/app/auth/services.py:105-110 | the new row has the normalised email, the next id, no last login, and verifies the password |
| AuthServices.FiledAdd | backend/app/auth/services.py:102-114 | adding a user under a fresh email with the next id keeps every row filed under its own email |
| AuthServices.AuthService.constructor | backend/app/auth/services.py:8 | an empty table and no session |
| AuthServices.AuthService.GetCurrentUser | backend/app/auth/services.py:10-16 | fails with Unauthorized exactly when nobody is logged in; otherwise the current user's dict |
| AuthServices.AuthService.UserLogout | backend/app/auth/services.py:58-64 | fails with Unauthorized exactly when nobody is logged in; afterwards nobody is; the table is unchanged |
| AuthServices.AuthService.UserLogin | backend/app/auth/services.py:18-56 | input errors and bad credentials change nothing; a match logs the user in and, when the commit succeeds, stamps `last_login`; a failed commit leaves the user logged in and the table unchanged |
| AuthServices.AuthService.UserRegister | backend/app/auth/services.py:66-119 | input errors, a taken email and a failed commit change nothing; otherwise exactly the new user is added and the id advances |
| AuthServices.RegisterThenLogin | backend/app/auth/services.py:18-119 | logging in with the email and password just registered authenticates |
| EmailRegex.FirstIndex | backend/app/auth/services.py:93-94 | the first position of a character, or the length when absent |
| EmailRegex.LastIndex | backend/app/auth/services.py:93-94 | the last position of a character, or -1 when absent |
| EmailRegex.EmailMatchesIffPattern | backend/app/auth/services.py:93-96 | the character-by-character matcher accepts exactly the strings of the pattern's shape |
| EmailRegex.StrippedMatch | backend/app/auth/services.py:81-96 | on a stripped email the matcher and the pattern agree |
| EmailRegex.SampleAccepted | backend/app/auth/services.py:93-96 | a minimal address is accepted |
| EmailRegex.SamplesShortParts | backend/app/auth/services.py:93-96 | a one-letter top-level domain and an empty local part are refused |
| EmailRegex.SamplesBadDomain | backend/app/auth/services.py:93-96 | an empty domain label and a second `@` are refused |
| EmotionAnalysis.RequestBody | backend/app/emotion_analysis/services.py:10-17 | the posted body: the text, threshold 0.01, top_k 28 and strategy "average" |
| EmotionAnalysis.Item | backend/app/emotion_analysis/services.py:23-25 | succeeds exactly on a dict whose emotion is hashable, giving its emotion and score; a non-dict raises AttributeError |
| EmotionAnalysis.Collect | backend/app/emotion_analysis/services.py:23-25 | the comprehension's dict has distinct keys and at most one entry per item |
| EmotionAnalysis.CollectLookup | backend/app/emotion_analysis/services.py:23-25 | each key maps to the score of its last occurrence |
| EmotionAnalysis.CollectKeysGrow | backend/app/emotion_analysis/services.py:23-25 | one more item adds at most its own key and keeps the order of the others |
| EmotionAnalysis.Elements | backend/app/emotion_analysis/services.py:23-25 | a list is iterated item by item; None or a number raises TypeError |
| EmotionAnalysis.Detect | backend/app/emotion_analysis/services.py:7-33 | a dict only for a truthy `success`, None for another reply that is neither 400 nor 500; its keys are distinct |
| EmotionAnalysis.SuccessGivesScores | backend/app/emotion_analysis/services.py:21-26 | on success every emotion maps to its last reported score |
| EmotionAnalysis.EmptyListGivesEmptyDict | backend/app/emotion_analysis/services.py:21-26 | an empty data list gives an empty dict |
| EmotionAnalysis.MissingKeysGiveNone | backend/app/emotion_analysis/services.py:23-25 | items without the two keys collapse into the single pair None to None |
| EmotionAnalysis.MissingKeysCollect | backend/app/emotion_analysis/services.py:23-25 | the same, for the comprehension alone |
| EmotionAnalysis.Status400 | backend/app/emotion_analysis/services.py:28-29 | a 400 reply raises BadRequestError carrying the reply's message |
| EmotionAnalysis.OtherStatus | backend/app/emotion_analysis/services.py:30-33 | a 500 reply hits a bare `raise` (RuntimeError); any other status gives None |
| EmotionAnalysis.TransportErrorReraised | backend/app/emotion_analysis/services.py:32-33 | an exception from the HTTP call is re-raised unchanged |
| JournalServices.EmotionsOf | backend/app/journals/services.py:50-58 | one emotion row per dict pair, in the dict's order |
| JournalServices.AppendEmotions | backend/app/journals/services.py:50-58 | the loop appends exactly those rows to the existing list |
| JournalServices.CreateInput | backend/app/journals/services.py:34-42 | accepted exactly when title and content are present truthy strings; the result is both stripped |
| JournalServices.CreateInputOrder | backend/app/journals/services.py:34-39 | the body, then the title, then the content decide the message |
| JournalServices.BlankTitleStoredEmpty | backend/app/journals/services.py:36-41 | a title of spaces passes and is stored as the empty string |
| JournalServices.UpdateInput | backend/app/journals/services.py:80-94 | accepted exactly when each present key holds a truthy string; absent keys give None, present ones their stripped value |
| JournalServices.NullContentRefused | backend/app/journals/services.py:88-91 | a present content that is null or empty is refused |
| JournalServices.UnchangedEditRefused | backend/app/journals/services.py:80-94 | a body with a title and a null content is refused with "content is required." |
| JournalServices.JournalStore.constructor | backend/app/journals/services.py:7 | an empty table |
| JournalServices.JournalStore.GetJournalEntries | backend/app/journals/services.py:9-15 | exactly the user's entries, each as its dict and each once |
| JournalServices.JournalStore.GetJournalEntryById | backend/app/journals/services.py:17-27 | the entry when it exists and belongs to the user, otherwise NotFound |
| JournalServices.JournalStore.CreateJournalEntry | backend/app/journals/services.py:29-67 | on success exactly one entry is added under the next id, with the stripped texts and one emotion row per detected pair; a detected None name or score fails the commit; any error leaves the table unchanged |
| JournalServices.JournalStore.UpdateJournalEntry | backend/app/journals/services.py:69-112 | an entry of another user is NotFound; only the keys present change; content that differs from the stored text replaces the emotions with freshly detected ones, and a None name or score among them fails the commit; any error leaves the table unchanged |
| JournalServices.JournalStore.DeleteJournalEntry | backend/app/journals/services.py:114-128 | removes exactly the matched entry when the commit succeeds; otherwise nothing changes |
| Ownership.OwnedIds | backend/app/journals/services.py:13 | the listed ids are ascending, below the bound and owned by the user |
| Ownership.OwnedIdsComplete | backend/app/journals/services.py:13 | every owned id below the bound is listed |
| DetectionService.Validate | emotion_detection_service/app/emotion/services.py:9-27 | no body is a BadRequest; an accepted body gives the stripped text and the options with their defaults; the only other failure is `.strip()` on a non-string |
| DetectionService.TextRequiredWhen | emotion_detection_service/app/emotion/services.py:12-13 | "Journal text is required." exactly when the text is missing or blank; a non-string text raises AttributeError |
| DetectionService.CheckOrder | emotion_detection_service/app/emotion/services.py:20-27 | threshold, then strategy, then top_k decide the message |
| DetectionService.Defaults | emotion_detection_service/app/emotion/services.py:15-18 | a body with only text gets threshold 0.3, no top_k and strategy "average" |
| DetectionService.NullThresholdRefused | emotion_detection_service/app/emotion/services.py:16-23 | an explicit null threshold is not replaced by the default and is refused |
| DetectionService.TypeCheckNeverFires | emotion_detection_service/app/emotion/services.py:20-21 | the "Text must be a string" error can never be raised |
| DetectionService.ValidCallFormats | emotion_detection_service/app/emotion/services.py:20-29 | the options an accepted body carries never make the formatting raise |
| DetectionService.Analyze | emotion_detection_service/app/emotion/services.py:7-31 | a refused body leaves the model untouched; otherwise the model is loaded and the result is `predict` on the validated call |
| DetectionService.LabelList | emotion_detection_service/app/emotion/services.py:42 | the labels as a JSON list, in order |
| DetectionService.ModelInfo | emotion_detection_service/app/emotion/services.py:33-43 | before loading, `len(None)` raises TypeError; after, the report names the device, the maximum length and the labels |
| DetectionService.LabelInfo | emotion_detection_service/app/emotion/services.py:45-56 | before loading, TypeError; after, the labels, their count, the 0.3 default and the two strategies |
| DetectionService.ReportsAgree | emotion_detection_service/app/emotion/services.py:33-56 | both reports give the same labels and the same count |
| NlpService.Validate | nlp_model/app/emotion/services.py:9-18 | refused exactly for no body or a missing or falsy text; the call reads the key "data" and the options with their defaults |
| NlpService.TextNeverForwarded | nlp_model/app/emotion/services.py:15 | a body without a "data" key forwards null as the text |
| NlpService.OptionsUnchecked | nlp_model/app/emotion/services.py:16-20 | threshold, top_k and strategy reach `predict` as sent, whatever they are |
| NlpService.Analyze | nlp_model/app/emotion/services.py:7-22 | a refused body leaves the model untouched; otherwise the result is `predict` on the call |
| EmotionDetectionModel.WindowsCover | nlp_model/app/emotion/emotion_detection.py:60-71 | every token lies in some window |
| EmotionDetectionModel.WindowsOverlap | nlp_model/app/emotion/emotion_detection.py:60-71 | consecutive windows share exactly 50 tokens |
| EmotionDetectionModel.WindowCount | nlp_model/app/emotion/emotion_detection.py:56-71 | the number of windows as a closed formula of the token count |
| EmotionDetectionModel.SliceTo | nlp_model/app/emotion/emotion_detection.py:100 | `results[:k]`, counting a negative bound from the end |
| EmotionDetectionModel.CutTopK | nlp_model/app/emotion/emotion_detection.py:100 | a falsy top_k keeps all results; an integer slices; anything else raises TypeError |
| EmotionDetectionModel.TopKKeepsBest | nlp_model/app/emotion/emotion_detection.py:99-100 | a positive top_k keeps the first top_k records, or all when fewer |
| EmotionDetectionModel.Records | nlp_model/app/emotion/emotion_detection.py:89-97 | one record per label in label order, with the percentage and whether it reaches the threshold |
| EmotionDetectionModel.EmotionDetection.constructor | nlp_model/app/emotion/emotion_detection.py:13-16 | nothing is loaded |
| EmotionDetectionModel.EmotionDetection.LoadModel | nlp_model/app/emotion/emotion_detection.py:18-37 | loads once; later calls change nothing; the labels are those of the checkpoint and the device follows CUDA availability |
| EmotionDetectionModel.ChunkTexts | nlp_model/app/emotion/emotion_detection.py:56-71 | the windows in order, each decoded back to text |
| EmotionDetectionModel.PredictWithChunking | nlp_model/app/emotion/emotion_detection.py:54-85 | every window is scored; an unknown strategy raises ValueError after scoring; otherwise the scores are reduced by the strategy |
| EmotionDetectionModel.Formatted | nlp_model/app/emotion/emotion_detection.py:87-100 | too few probabilities raise IndexError, a non-numeric threshold TypeError; a result has at most one record per label |
| EmotionDetectionModel.FormatResults | nlp_model/app/emotion/emotion_detection.py:87-100 | the loop, sort and cut compute `Formatted` |
| EmotionDetectionModel.FormattedRanking | nlp_model/app/emotion/emotion_detection.py:99 | the records are ordered by score, are a permutation of the unsorted ones, and keep label order among equal scores |
| EmotionDetectionModel.Predict | nlp_model/app/emotion/emotion_detection.py:102-115 | loads the model; a short text is scored whole and formatted; a long text always raises TypeError |
| EmotionDetectionModel.PredictCorrected | nlp_model/app/emotion/emotion_detection.py:102-115 | as `Predict`, but a long text is split into its decoded token windows and, for a known strategy, the result is the formatted reduction of the windows' scores; it fails with ValueError exactly for an unknown strategy |
| EmotionModelRun.Slices | backend/app/emotion_detect/emotion_model_run.py:19-23 | one slice per started block of 3000 characters |
| EmotionModelRun.SlicesPrefix | backend/app/emotion_detect/emotion_model_run.py:19-23 | the first k slices joined are the first 3000·k characters |
| EmotionModelRun.SlicesJoin | backend/app/emotion_detect/emotion_model_run.py:19-23 | the slices joined give back the text |
| EmotionModelRun.SliceLengths | backend/app/emotion_detect/emotion_model_run.py:19-23 | all slices but the last are exactly 3000 characters; the last is non-empty and at most 3000 |
| EmotionModelRun.SliceCountCeiling | backend/app/emotion_detect/emotion_model_run.py:19-23 | the slice count is the length over 3000, rounded up |
| EmotionModelRun.Labelled | backend/app/emotion_detect/emotion_model_run.py:43-46 | an index missing from `id2label` raises KeyError; otherwise the keys are distinct |
| EmotionModelRun.LabelledDistinct | backend/app/emotion_detect/emotion_model_run.py:43-46 | with distinct labels, the dict has one entry per index, label to percentage |
| EmotionModelRun.Entries | backend/app/emotion_detect/emotion_model_run.py:43-46 | entry i pairs label i with the percentage of score i |
| EmotionModelRun.Analyzed | backend/app/emotion_detect/emotion_model_run.py:16-48 | an empty text raises ValueError (`np.stack` of nothing); a result is ordered by score, highest first |
| EmotionModelRun.AnalyzedRanked | backend/app/emotion_detect/emotion_model_run.py:27-48 | the result is the labelled mean of the slices' scores, sorted stably by score |
| EmotionModelRun.AnalyzeEmotions | backend/app/emotion_detect/emotion_model_run.py:16-48 | the loop over slices computes `Analyzed` |
| LegacyJournalRoutes.EntryToDict | back_end/app/models.py:51-58 | the five keys, with title and content as stored |
| LegacyJournalRoutes.NatToString | back_end/app/journals/routes.py:44-49 | the decimal digits of an id, as in the f-string messages |
| LegacyJournalRoutes.NatToStringRoundTrip | back_end/app/journals/routes.py:44-49 | reading the digits back gives the id |
| LegacyJournalRoutes.LegacyJournals.constructor | back_end/app/models.py:42 | an empty table whose rows will all be stamped with the import time |
| LegacyJournalRoutes.LegacyJournals.ListingFacts | back_end/app/journals/routes.py:16-20 | the rows of the user's ascending ids are exactly the user's entries, each once |
| LegacyJournalRoutes.LegacyJournals.GetJournalEntries | back_end/app/journals/routes.py:9-29 | 404 exactly when the user owns no entry; otherwise a non-empty list of exactly the user's entries, each once |
| LegacyJournalRoutes.LegacyJournals.GetJournalEntry | back_end/app/journals/routes.py:31-52 | 200 with the entry exactly when the user owns it, otherwise 404 with the id in the message |
| LegacyJournalRoutes.LegacyJournals.CreateJournalEntry | back_end/app/journals/routes.py:54-95 | no body raises AttributeError; a falsy content is a 400; otherwise one entry with the analysed emotions is added when the commit succeeds, which needs every emotion's name and score to be non-null; nothing changes otherwise |
| LegacyJournalRoutes.LegacyJournals.UpdateJournalEntry | back_end/app/journals/routes.py:97-140 | an entry of another user is a 404; a non-null title or content replaces the stored one, and new content re-analyses the emotions, whose names and scores must be non-null for the commit; nothing changes on failure |
| LegacyJournalRoutes.LegacyJournals.DeleteJournalEntry | back_end/app/journals/routes.py:142-166 | removes exactly the matched entry when the commit succeeds |
| AuthContext.LoginResult | frontend/src/auth/AuthContext.jsx:45-62 | success stores the returned user and clears the error; a failure clears the user and sets a truthy error; a throw sets "Network error during login" |
| AuthContext.RegisterResult | frontend/src/auth/AuthContext.jsx:65-83 | the same for registration, with its own fallback and network texts |
| AuthContext.LogoutResult | frontend/src/auth/AuthContext.jsx:86-101 | success clears user and error; a failure keeps the user and sets a truthy error |
| AuthContext.ErrorIffFailed | frontend/src/auth/AuthContext.jsx:45-101 | after each request the error is set exactly when the request did not succeed |
| AuthContext.AuthProvider.constructor | frontend/src/auth/AuthContext.jsx:12-15 | no user, loading the session, no action in progress, no error |
| AuthContext.AuthProvider.Unmount | frontend/src/auth/AuthContext.jsx:39-41 | only the mounted flag changes |
| AuthContext.AuthProvider.SettleStartup | frontend/src/auth/AuthContext.jsx:18-37 | once unmounted nothing changes; otherwise the user is the one returned (or null) and session loading ends |
| AuthContext.AuthProvider.SettleLogin | frontend/src/auth/AuthContext.jsx:45-62 | the state becomes `LoginResult`; the action ends |
| AuthContext.AuthProvider.Login | frontend/src/auth/AuthContext.jsx:45-62 | as `SettleLogin`, and the promise resolves to undefined whatever the outcome |
| AuthContext.AuthProvider.LoginCorrected | frontend/src/auth/AuthContext.jsx:45-62 | as `Login`, but the result is truthy exactly when the login succeeded |
| AuthContext.AuthProvider.SettleRegister | frontend/src/auth/AuthContext.jsx:65-83 | a failed registration leaves `RegisterResult`; after a successful one the un-awaited login settles last, so the state is `LoginResult` of its reply |
| AuthContext.AuthProvider.Register | frontend/src/auth/AuthContext.jsx:65-83 | as `SettleRegister`, resolving to undefined |
| AuthContext.AuthProvider.RegisterCorrected | frontend/src/auth/AuthContext.jsx:65-83 | as `Register`, but the result is truthy exactly when registration succeeded |
| AuthContext.AuthProvider.Logout | frontend/src/auth/AuthContext.jsx:86-101 | the state becomes `LogoutResult` of the previous state |
| PrivateRoute.Guard | frontend/src/auth/PrivateRoute.jsx:8-19 | a spinner exactly while loading; the page exactly for a truthy user; otherwise a replacing redirect to /login remembering the current location |
| PrivateRoute.GuardDependsOnTruthiness | frontend/src/auth/PrivateRoute.jsx:8-19 | users of the same truthiness are guarded alike |
| PrivateRoute.GateAfterRequests | frontend/src/auth/PrivateRoute.jsx:8-19 | after a login the page opens exactly when it succeeded with data; a failed registration or a successful logout redirects; a failed logout guards as before |
| LoginPage.Target | frontend/src/auth/Login.jsx:12 | the remembered path when there is one, else /app |
| LoginPage.RedirectRoundTrip | frontend/src/auth/Login.jsx:12 | the guard's redirect brings the user back to the page they asked for |
| LoginPage.Login.constructor | frontend/src/auth/Login.jsx:8-12 | empty fields and the target path |
| LoginPage.Login.SetEmail | frontend/src/auth/Login.jsx:68 | only the email changes |
| LoginPage.Login.SetPassword | frontend/src/auth/Login.jsx:83 | only the password changes |
| LoginPage.Login.HandleSubmit | frontend/src/auth/Login.jsx:14-25 | login is called exactly when both fields are non-empty; it never navigates |
| LoginPage.Login.HandleSubmitCorrected | frontend/src/auth/Login.jsx:14-25 | navigates, replacing, to the target exactly when login was called and succeeded |
| RegisterPage.Payload | frontend/src/auth/Register.jsx:9-14 | the form's camelCase fields as strings |
| RegisterPage.CamelCaseRefused | frontend/src/auth/Register.jsx:17-32 | the service refuses every form as sent, with "First name is required." |
| RegisterPage.SnakeCasePayload | frontend/src/auth/Register.jsx:9-14 | the same values under the service's keys |
| RegisterPage.SnakeCaseAccepted | frontend/src/auth/Register.jsx:17-32 | with the service's keys, a form is accepted exactly when its fields are non-blank, the email matches and the password is long enough |
| RegisterPage.Register.constructor | frontend/src/auth/Register.jsx:9-14 | four empty fields |
| RegisterPage.Register.HandleChange | frontend/src/auth/Register.jsx:34-39 | the named field changes and no other |
| RegisterPage.Register.HandleSubmit | frontend/src/auth/Register.jsx:17-32 | sends the camelCase form exactly when every field is filled; never navigates |
| RegisterPage.Register.HandleSubmitCorrected | frontend/src/auth/Register.jsx:17-32 | sends the snake_case form; navigates to /dashboard exactly when registration succeeded |
| JournalEntriesPage.KeepSpec | frontend/src/pages/JournalEntries.jsx:21-23 | `filter` keeps exactly the items satisfying the callback, in order |
| JournalEntriesPage.KeepBoth | frontend/src/pages/JournalEntries.jsx:21-23 | two chained filters are one filter by both callbacks |
| JournalEntriesPage.FilteredSpec | frontend/src/pages/JournalEntries.jsx:21-23 | the list keeps the entries' order and holds exactly those passing the emotion filter and the search |
| JournalEntriesPage.FiltersCommute | frontend/src/pages/JournalEntries.jsx:21-23 | searching first gives the same list |
| JournalEntriesPage.KeepSameFilter | frontend/src/pages/JournalEntries.jsx:21-23 | callbacks that agree everywhere filter alike |
| JournalEntriesPage.EmptyTermKeepsAll | frontend/src/pages/JournalEntries.jsx:17-23 | an empty search hides nothing; "All" with it lists every entry |
| JournalEntriesPage.KeepAll | frontend/src/pages/JournalEntries.jsx:21-23 | a callback true everywhere keeps the whole list |
| JournalEntryView.Fetched | frontend/src/pages/JournalEntryView.jsx:26-45 | loads exactly on success with truthy data; every error shown is truthy; a throw shows "Failed to load journal entry." |
| JournalEntryView.ProcessedRanked | frontend/src/pages/JournalEntryView.jsx:54-61 | null data shows nothing; otherwise the emotions are reordered by confidence, highest first, ties kept in stored order |
| JournalEntryView.DominantIsMax | frontend/src/pages/JournalEntryView.jsx:63 | the dominant emotion has the highest confidence of all |
| JournalEntryView.EntryView.constructor | frontend/src/pages/JournalEntryView.jsx:13-19 | empty texts, no data, no error |
| JournalEntryView.EntryView.FetchEntry | frontend/src/pages/JournalEntryView.jsx:22-51 | a load sets title, content, formatted date and emotions; an error sets only the message; loading ends |
| JournalEntryView.EntryView.ProcessEmotions | frontend/src/pages/JournalEntryView.jsx:54-61 | returns the ranking and leaves `entryData` itself sorted |
| JournalEntryEdit.Payload | frontend/src/pages/JournalEntryEdit.jsx:51-54 | the title, and the content only when changed, else null |
| JournalEntryEdit.UnchangedContentRefused | frontend/src/pages/JournalEntryEdit.jsx:51-54 | a title-only edit is refused by the service |
| JournalEntryEdit.PayloadCorrected | frontend/src/pages/JournalEntryEdit.jsx:51-54 | an unchanged content is left out of the body |
| JournalEntryEdit.CorrectedPayloadAccepted | frontend/src/pages/JournalEntryEdit.jsx:51-54 | the corrected body is accepted; an unchanged content is not touched |
| JournalEntryEdit.EntryEdit.constructor | frontend/src/pages/JournalEntryEdit.jsx:16-22 | empty texts, not saving, no error |
| JournalEntryEdit.EntryEdit.FetchEntry | frontend/src/pages/JournalEntryEdit.jsx:25-45 | a load makes the text both the content and the initial content; an error sets only the message |
| JournalEntryEdit.EntryEdit.SetTitle | frontend/src/pages/JournalEntryEdit.jsx:144 | only the title changes |
| JournalEntryEdit.EntryEdit.SetContent | frontend/src/pages/JournalEntryEdit.jsx:158 | only the content changes |
| JournalEntryEdit.EntryEdit.Save | frontend/src/pages/JournalEntryEdit.jsx:48-69 | success opens the saved entry and makes the content the initial one; missing data gives the TypeError text; failure shows the message or the fallback; a throw shows "Error during save: ..." |
| JournalEntryEdit.EntryEdit.HandleSave | frontend/src/pages/JournalEntryEdit.jsx:48-69 | sends `Payload`; the form texts stay; success with data opens the entry, success without data, failure and a throw each show their error |
| JournalEntryEdit.EntryEdit.HandleSaveCorrected | frontend/src/pages/JournalEntryEdit.jsx:48-69 | sends `PayloadCorrected`, with the same outcomes as `HandleSave` |
| JournalEntryEdit.EntryEdit.HandleDelete | frontend/src/pages/JournalEntryEdit.jsx:72-93 | nothing happens unless confirmed; success opens the journal list; otherwise an error is shown |
| JournalEntryCreate.ClientCheck | frontend/src/pages/JournalEntryCreate.jsx:20-29 | passes exactly when title and content are non-empty; the title is checked first |
| JournalEntryCreate.ClientMatchesService | frontend/src/pages/JournalEntryCreate.jsx:20-35 | the service accepts exactly what the page lets through, in the same order, storing the stripped texts |
| JournalEntryCreate.EntryCreate.constructor | frontend/src/pages/JournalEntryCreate.jsx:12-15 | empty form, no error |
| JournalEntryCreate.EntryCreate.SetTitle | frontend/src/pages/JournalEntryCreate.jsx:81 | only the title changes |
| JournalEntryCreate.EntryCreate.SetContent | frontend/src/pages/JournalEntryCreate.jsx:95 | only the content changes |
| JournalEntryCreate.EntryCreate.HandleSave | frontend/src/pages/JournalEntryCreate.jsx:18-46 | a failed form check sends nothing and shows its message; otherwise success with data opens the new entry, and success without data, failure or a throw shows its error |
| ProfilePage.SavedKeepsTheRest | frontend/src/pages/Profile.jsx:29-40 | a save changes the two names and nothing else |
| ProfilePage.Profile.constructor | frontend/src/pages/Profile.jsx:4-16 | the built-in record, not editing, empty password fields |
| ProfilePage.Profile.StartEditing | frontend/src/pages/Profile.jsx:133 | only the editing flag changes |
| ProfilePage.Profile.SetPasswords | frontend/src/pages/Profile.jsx:99-106 | only the two password fields change |
| ProfilePage.Profile.HandleChange | frontend/src/pages/Profile.jsx:53-56 | the named field changes and no other |
| ProfilePage.Profile.HandleSave | frontend/src/pages/Profile.jsx:18-44 | a mismatched new password only sets the error; otherwise the names are saved, the password fields cleared and editing ends |
| ProfilePage.Profile.HandleCancel | frontend/src/pages/Profile.jsx:46-51 | editing ends and the password fields clear; the record keeps any name edits |

## Left out

- Floating point: probabilities and confidences are reals; `round(x, 2)`, `toFixed`, NaN and numpy's arithmetic are not modelled.
- The network, the database engine, Flask's request context and React's rendering: HTTP replies, commit outcomes, the logged-in user's id and the clock are parameters of the operations that use them.
- The classifier itself: tokenising, decoding, the forward pass, the sigmoid and the mean or max reduction are uninterpreted functions given as parameters.
- bcrypt is modelled as an ideal hash whose digest verifies exactly its own password; salts and the real algorithm are out of scope.
- `NlpService`'s `model_info` and `emotion_label_info` are character-for-character those of the other service and are not modelled twice; `DetectionService.ModelInfo` and `DetectionService.LabelInfo` stand for both.
- `_predict_chunk` is the `infer` parameter; its padding and truncation to 512 tokens are not modelled.
- A request body that is JSON but not an object (a list, a number) is not modelled; bodies are an optional string-keyed map.
- JavaScript `null` and `undefined` are one value in the model, except where the outcome of a request is `undefined` (a wrapper that swallowed an error).
- The text of TypeErrors thrown by the browser is modelled after V8's wording.
- `AuthContext.AuthProvider.SettleRegister` applies the whole nested login after the registration's updates; the login's first `setActionLoading(true)`, which runs before them, is not modelled separately.
- The login and registration pages render an `error` the context does not provide; that rendering is not modelled.
- `toLowerCase`, `.lower()` and `.strip()` are modelled on ASCII letters and ASCII whitespace (including U+001C to U+001F); non-ASCII whitespace such as U+0085 and U+00A0 is kept.
- DetectionService.Analyze: emotion_detection_service/app/emotion/emotion_detection.py, which this service imports, is not part of this model; it is taken to be the same as nlp_model/app/emotion/emotion_detection.py, including the three-argument long-text call.
- The order of a `filter_by(...).all()` listing is not fixed by the query; the model lists in ascending id order, and its contracts promise only that each of the user's entries appears exactly once.
- The timeline's built-in list of sample entries is not reproduced; the filter is modelled over any list of cards.
- `JournalEntryView.EntryView.ProcessEmotions`: for emotion data that is not an array of objects with numeric confidences (where the JavaScript comparator gives NaN) the model returns None instead of an order.
- `loading` starts as null on three pages and is modelled by its truthiness.
- The localised date formatting of the view page is a parameter.
- `RegisterPage.Register.HandleChange` and `ProfilePage.Profile.HandleChange` require the field name to be one of the page's inputs, since only those inputs call the handler.
- `updated_at` columns, their `onupdate` hooks and `__repr__` are not modelled.
- The routes that wrap the services into HTTP responses, the error handlers and the `services/*.js` wrappers are represented only by the outcomes they produce.

## Findings

| source | as written | input that shows it | evidently intended | confidence | as-written member | corrected member |
|---|---|---|---|---|---|---|
| nlp_model/app/emotion/emotion_detection.py:111-113 | `_predict_with_chunking(tokens, threshold, strategy)` passes three arguments to a two-parameter function | any text of more than 510 tokens | long texts are scored window by window and aggregated | high, not executed | EmotionDetectionModel.Predict | EmotionDetectionModel.PredictCorrected |
| frontend/src/pages/JournalEntryEdit.jsx:51-54 | an unchanged content is sent as `null`, which the update service refuses | loading an entry and changing only its title | a title-only edit is saved | high, not executed | JournalEntryEdit.UnchangedContentRefused | JournalEntryEdit.CorrectedPayloadAccepted |
| frontend/src/auth/Register.jsx:9-14 | the form is sent with camelCase keys while the service reads `first_name` and `last_name` | any completely filled form | the registration is accepted when its fields are valid | high, not executed | RegisterPage.CamelCaseRefused | RegisterPage.SnakeCaseAccepted |
| frontend/src/auth/Login.jsx:22-24 | `login` resolves to undefined, so `if (ok)` never navigates | a correct email and password | a successful login opens the remembered page | high, not executed | LoginPage.Login.HandleSubmit | LoginPage.Login.HandleSubmitCorrected |
