# SmartFixer, modelled in Dafny

SmartFixer is a home-repair assistant. The user describes a problem on an
Android phone, optionally with a photo. The app sends the description and the
photo to a small Python service. That service asks a language model for a
structured diagnosis: a title, a difficulty, an estimated time, tools, steps
and a trade category. The app shows the diagnosis and saves it in a local Room
database of past fixes. It can also highlight the kind of professional to call
and keeps a directory of registered experts.

This project models the rules underneath the Compose screens:

- the diagnosis life cycle of `DiagnosisViewModel` and the request that
  `MainActivity` assembles for it;
- the JSON wire form of the request and the result;
- the two DAOs as tables keyed by an AUTOINCREMENT id, with their ordered
  reads;
- the database migrations and the preference store;
- expert registration: the form, the save machine and the one-off seeding of
  sample experts;
- the Contact Pro matching rule and its Maps search;
- the route strings;
- the image down-scaling in `ImageUtil`;
- in the backend's `POST /diagnose`: the choice of content, the code-fence
  stripping regex and the mapping of every failure to an HTTP status.

Every launched coroutine block is one atomic step. External code becomes a
function-typed parameter:

- the HTTP call and the model client;
- `json.loads` and the kotlinx list codec;
- `toDoubleOrNull`;
- the bitmap decoder, the JPEG compressor and Base64;
- exception text.

Clock readings are passed in as integers.

Module layout (one file per module):

| file | module | models |
|---|---|---|
| wrappers.dfy | Wrappers | `Option` |
| platform.dfy | Platform | `Uri`, whether a DAO call throws |
| text.dfy | Text | whitespace, `isBlank`, `trim`, decimal text of integers, `toIntOrNull` |
| wire.dfy | Wire | `DiagnosisRequest`, `DiagnosisResult` and their JSON on both sides |
| tables.dfy | Tables | an AUTOINCREMENT table and `ORDER BY … DESC` reads |
| past_fixes.dfy | PastFixes | `PastFixEntity`, `PastFixDao` |
| experts.dfy | Experts | `ExpertEntity`, `ExpertDao` |
| schema.dfy | Schema | `AppDatabase`: migrations, opening, `getInstance` |
| preferences.dfy | Preferences | `UserPreferencesRepository` |
| diagnosis_vm.dfy | DiagnosisVm | `DiagnosisViewModel` |
| expert_vm.dfy | ExpertVm | `ExpertViewModel` and its sample experts |
| onboarding.dfy | Onboarding | `ExpertOnboardingScreen` |
| contact_pro.dfy | ContactPro | `ContactProScreen`, `Uri.encode` |
| routes.dfy | Routes | `Screen` |
| past_fix_detail.dfy | PastFixDetail | `PastFixDetailScreen` |
| app_shell.dfy | AppShell | the parts of `MainActivity` that decide behaviour |
| image_util.dfy | ImageUtil | `ImageUtil` |
| fence.dfy | Fence | the backend's code-fence regex |
| backend.dfy | Backend | the backend's `diagnose` handler |

The app's `DiagnosisResult` class declares no `category`, yet
`DiagnosisViewModel` and `PastFixDetailScreen` read and set one. The model
follows the backend's response model: the result has a `category`, and a
response without one decodes to "general".

## Model

| member | source | states |
|---|---|---|
| Text.Trim | app/src/main/java/com/example/smartfixer/ExpertOnboardingScreen.kt:270-280 | The trimmed text is an infix of the input. Only whitespace lies around it. It is empty exactly when the input is blank, and otherwise neither starts nor ends with whitespace. |
| Text.TrimIdempotent | app/src/main/java/com/example/smartfixer/ExpertOnboardingScreen.kt:270-280 | Trimming twice is trimming once. |
| Text.ParseInteger | app/src/main/java/com/example/smartfixer/ExpertOnboardingScreen.kt:278 | A parsed value lies in the target type's range, and empty text never parses. |
| Text.IntTextRoundTrip | app/src/main/java/com/example/smartfixer/navigation/Screen.kt:10 | Parsing the decimal text of any in-range integer gives back that integer. |
| Text.IntTextHasNoSpace | app/src/main/java/com/example/smartfixer/navigation/Screen.kt:10 | The decimal text of an integer is never empty and holds no whitespace. |
| Wire.RequiredString | backend/main.py:22-25 | A required string field reads exactly when the key is present with a JSON string. |
| Wire.OptionalString | backend/main.py:24-25 | An optional string field reads as null when absent or JSON null. It reads as its text when a string, and fails on any other value. |
| Wire.StringList | app/src/main/java/com/example/smartfixer/data/DiagnosisResult.kt:12-13 | An array reads as a string list exactly when every item is a string; order and length are kept. |
| Wire.EncodeRequest | app/src/main/java/com/example/smartfixer/data/DiagnosisRequest.kt:6-13 | The request JSON always carries `description`. It carries `image_base64` and `image_media_type` each exactly when that field is non-null, and no other key. |
| Wire.DecodeRequest | backend/main.py:22-25 | A request decodes exactly when it is an object with a string `description` and with `image_base64` and `image_media_type` each absent, null or a string. The three fields are then taken from the object. An object without `description` is rejected. |
| Wire.RequestRoundTrip | backend/main.py:22-25 | The backend decodes exactly the request the app encoded, including a media type without image data and vice versa. |
| Wire.EncodeResult | backend/main.py:28-34 | The response JSON has exactly the six keys, with `estimatedTime` renamed to `estimated_time`. |
| Wire.DecodeResult | app/src/main/java/com/example/smartfixer/data/DiagnosisResult.kt:6-14 | A result decodes exactly when the object has the result shape: the five required keys, string `title`, `difficulty` and `estimated_time`, string arrays `tools` and `steps`, and a string `category` if one is present. Every field is then taken from the object. A missing `category` reads as "general", and an object lacking a required key is rejected. |
| Wire.ResultRoundTrip | app/src/main/java/com/example/smartfixer/data/DiagnosisResult.kt:6-14 | The app decodes exactly the result the backend encoded. |
| Wire.MissingCategoryIsGeneral | backend/main.py:34 | A response without `category` decodes to the same result with category "general". |
| Tables.Put | app/src/main/java/com/example/smartfixer/data/local/ExpertDao.kt:19-20 | A put stores the row under its id, keeps every other row and keeps the table's invariant. |
| Tables.Remove | app/src/main/java/com/example/smartfixer/data/local/ExpertDao.kt:25-26 | A remove drops only that id, keeps every other row and never lowers the sequence. |
| Tables.Listing | app/src/main/java/com/example/smartfixer/data/local/ExpertDao.kt:13-17 | The query returns every kept row exactly once and no other row, with rank non-increasing. |
| Tables.StrictMaximumFirst | app/src/main/java/com/example/smartfixer/data/local/PastFixDao.kt:10-11 | In any such listing, a kept row ranked strictly above all others comes first. |
| Tables.ListingCount | app/src/main/java/com/example/smartfixer/data/local/ExpertDao.kt:13-14 | A listing is as long as the number of kept rows, and as the table when every row is kept. |
| PastFixes.GetAllFixes | app/src/main/java/com/example/smartfixer/data/local/PastFixDao.kt:10-11 | All rows come back exactly once, newest first. |
| PastFixes.LatestFirst | app/src/main/java/com/example/smartfixer/data/local/PastFixDao.kt:10-11 | A row dated strictly after all others heads the list. |
| PastFixes.GetFixById | app/src/main/java/com/example/smartfixer/data/local/PastFixDao.kt:13-14 | A row is found exactly when the id is stored; a missing id gives null, never an error. |
| PastFixes.InsertFix | app/src/main/java/com/example/smartfixer/data/local/PastFixDao.kt:16-17 | Id 0 always inserts, under a fresh positive id that is returned. A given id fails exactly when it is already stored. A success adds exactly that row. |
| PastFixes.InsertOnlyGrows | app/src/main/java/com/example/smartfixer/data/local/PastFixDao.kt:9-18 | No insert changes or removes an existing row, and the count never decreases. |
| PastFixes.InsertThenGet | app/src/main/java/com/example/smartfixer/data/local/PastFixDao.kt:13-17 | Reading back by the returned id gives the inserted row carrying that id. |
| Experts.Query | app/src/main/java/com/example/smartfixer/data/local/ExpertDao.kt:13-17 | The read returns exactly the matching rows, each once, best rated first. |
| Experts.GetAllExperts | app/src/main/java/com/example/smartfixer/data/local/ExpertDao.kt:13-14 | Every row comes back once, rating non-increasing, and the list is as long as the table. |
| Experts.GetExpertsByCategory | app/src/main/java/com/example/smartfixer/data/local/ExpertDao.kt:16-17 | Exactly the rows of that category come back, rating non-increasing. |
| Experts.InsertExpert | app/src/main/java/com/example/smartfixer/data/local/ExpertDao.kt:19-20 | Id 0 takes the next AUTOINCREMENT id. A given id replaces or adds that row. The returned id is where the row now is. |
| Experts.UpdateExpert | app/src/main/java/com/example/smartfixer/data/local/ExpertDao.kt:22-23 | An update replaces the row with the entity's id; an absent id changes nothing. |
| Experts.DeleteExpert | app/src/main/java/com/example/smartfixer/data/local/ExpertDao.kt:25-26 | A delete removes exactly the row with the entity's id. |
| Experts.InsertCount | app/src/main/java/com/example/smartfixer/data/local/ExpertDao.kt:19-20 | Replacing keeps the count; any other insert adds one. |
| Experts.InsertThenDelete | app/src/main/java/com/example/smartfixer/data/local/ExpertDao.kt:19-26 | Deleting a freshly inserted row restores the table's rows. |
| Experts.OtherRowsUntouched | app/src/main/java/com/example/smartfixer/data/local/ExpertDao.kt:22-26 | Update and delete leave every other row as it was. |
| Schema.Migrate1To2 | app/src/main/java/com/example/smartfixer/data/local/AppDatabase.kt:10-14 | The migration appends `videoLinksJson` with DEFAULT '[]' and back-fills '[]' on every row. Every existing value and the row set are kept, and other tables are untouched. It fails without the table or with the column already there. |
| Schema.Migrate2To3 | app/src/main/java/com/example/smartfixer/data/local/AppDatabase.kt:16-36 | The migration creates an empty `experts` table with the 13 columns unless one exists, and leaves every other table as it was. |
| Schema.Open | app/src/main/java/com/example/smartfixer/data/local/AppDatabase.kt:38-55 | An opened database is at version 3. A version-3 file is used as is, and a newer file fails. |
| Schema.MigrationChain | app/src/main/java/com/example/smartfixer/data/local/AppDatabase.kt:54 | The registered migrations chain 1→2→3, one version per step, ending at the target version. |
| Schema.ExpertSchemaMatchesEntity | app/src/main/java/com/example/smartfixer/data/local/ExpertEntity.kt:6-20 | The migration's `experts` columns are exactly the entity's fields, in order. |
| Schema.FillRow | app/src/main/java/com/example/smartfixer/data/local/AppDatabase.kt:12 | A row is stored exactly when every given name is a column of the table and every NOT NULL column has a value or a DEFAULT. Given values are kept, and the row has exactly the table's columns. |
| Schema.FillColumns | app/src/main/java/com/example/smartfixer/data/local/AppDatabase.kt:12 | Filling the columns succeeds exactly when every NOT NULL column has a value or a DEFAULT. The row then has exactly the columns, and it keeps the given values. |
| Schema.InsertRow | app/src/main/java/com/example/smartfixer/data/local/AppDatabase.kt:12 | An INSERT succeeds exactly when the rowid is not yet stored and the row can be filled, so a duplicate rowid or an unknown column is refused. It adds only that row, stored as filled, and keeps every other row unchanged. |
| Schema.VideoLinksDefault | app/src/main/java/com/example/smartfixer/data/local/AppDatabase.kt:12 | After 1→2, a row inserted without `videoLinksJson` stores '[]' there. |
| Schema.UpgradeFromVersion1 | app/src/main/java/com/example/smartfixer/data/local/AppDatabase.kt:10-54 | A version-1 file reaches version 3 with an empty `experts` table added, and every past fix is kept. |
| Schema.UpgradedPastFixesHasExtraColumn | app/src/main/java/com/example/smartfixer/data/local/AppDatabase.kt:12 | After the upgrade, `past_fixes` has a `videoLinksJson` column that the entity and a freshly created file lack. |
| Schema.GetInstance | app/src/main/java/com/example/smartfixer/data/local/AppDatabase.kt:47-58 | A held instance is returned as is; otherwise the new one is returned and kept. |
| Schema.GetInstances | app/src/main/java/com/example/smartfixer/data/local/AppDatabase.kt:47-58 | A run of sequential calls yields one instance per call. |
| Schema.SameInstance | app/src/main/java/com/example/smartfixer/data/local/AppDatabase.kt:47-58 | In sequential calls, every call returns the instance the first call returned. |
| Preferences.GetString | app/src/main/java/com/example/smartfixer/data/local/UserPreferences.kt:33-34 | A string key reads as its value, or as its default when absent. |
| Preferences.GetBool | app/src/main/java/com/example/smartfixer/data/local/UserPreferences.kt:35-36 | A boolean key reads as its value, or as its default when absent. |
| Preferences.ReadProfile | app/src/main/java/com/example/smartfixer/data/local/UserPreferences.kt:31-38 | A profile is read exactly when every present key holds a value of its field's type. Each field then comes from its own key when present, and from its own default when that key is missing, independently of the others. |
| Preferences.SaveProfile | app/src/main/java/com/example/smartfixer/data/local/UserPreferences.kt:40-47 | Saving writes all four keys and keeps every other key. |
| Preferences.KeysDistinct | app/src/main/java/com/example/smartfixer/data/local/UserPreferences.kt:24-29 | The four key names are pairwise distinct. |
| Preferences.EmptyReadsDefault | app/src/main/java/com/example/smartfixer/data/local/UserPreferences.kt:15-38 | An empty store reads as `UserProfile()`. |
| Preferences.SaveThenRead | app/src/main/java/com/example/smartfixer/data/local/UserPreferences.kt:31-47 | Reading after a save returns the saved profile, whatever was stored before. |
| Preferences.LastSaveWins | app/src/main/java/com/example/smartfixer/data/local/UserPreferences.kt:40-47 | Of two saves the second wins completely. |
| DiagnosisVm.Init | app/src/main/java/com/example/smartfixer/DiagnosisViewModel.kt:29-36 | The view model starts Idle, with no image selected and no last category. |
| DiagnosisVm.SetSelectedImageUri | app/src/main/java/com/example/smartfixer/DiagnosisViewModel.kt:38-40 | Selecting an image changes only the selection. |
| DiagnosisVm.ClearSelectedImage | app/src/main/java/com/example/smartfixer/DiagnosisViewModel.kt:42-44 | Clearing changes only the selection, to none. |
| DiagnosisVm.ResetState | app/src/main/java/com/example/smartfixer/DiagnosisViewModel.kt:80-83 | From any state: Idle with no image selected, keeping the last category and the past fixes. |
| DiagnosisVm.FixFromResult | app/src/main/java/com/example/smartfixer/DiagnosisViewModel.kt:62-71 | The saved row copies title, difficulty, estimated time and category, and stores the encoded tools and steps. Id, date and status take their defaults. |
| DiagnosisVm.Submit | app/src/main/java/com/example/smartfixer/DiagnosisViewModel.kt:46-47 | Submitting sets Loading from any state and changes nothing else. |
| DiagnosisVm.Complete | app/src/main/java/com/example/smartfixer/DiagnosisViewModel.kt:49-77 | The launched block keeps the table's invariant and never touches the selected image. |
| DiagnosisVm.Diagnose | app/src/main/java/com/example/smartfixer/DiagnosisViewModel.kt:46-78 | A whole `diagnose` keeps the table's invariant and leaves the selected image as it was. |
| DiagnosisVm.SuccessSavesOneFix | app/src/main/java/com/example/smartfixer/DiagnosisViewModel.kt:58-71 | An answered request ends in Success(result) and records its category. Exactly one row is appended under a fresh id, holding the result's fields; earlier rows are kept. |
| DiagnosisVm.FailureSavesNothing | app/src/main/java/com/example/smartfixer/DiagnosisViewModel.kt:72-76 | A failed request ends in Error with the exception's message, or "An unknown error occurred". No row is written and the last category is unchanged. |
| DiagnosisVm.InsertFailureKeepsNewCategory | app/src/main/java/com/example/smartfixer/DiagnosisViewModel.kt:58-75 | If the request succeeds and the insert throws, the state is Error while the last category is already the result's. |
| DiagnosisVm.DiagnoseIgnoresSelectedImage | app/src/main/java/com/example/smartfixer/DiagnosisViewModel.kt:38-78 | `diagnose` neither reads nor clears the selected image. |
| DiagnosisVm.NoGuardAgainstResubmission | app/src/main/java/com/example/smartfixer/DiagnosisViewModel.kt:46-47 | Submitting while Loading is not refused; it behaves as from any other state. |
| ExpertVm.Init | app/src/main/java/com/example/smartfixer/ExpertViewModel.kt:26 | The save machine starts Idle. |
| ExpertVm.BeginInsert | app/src/main/java/com/example/smartfixer/ExpertViewModel.kt:35 | A save first enters Saving. |
| ExpertVm.FinishInsert | app/src/main/java/com/example/smartfixer/ExpertViewModel.kt:36-41 | A successful insert gives Success with the row stored. A throwing one gives Error with its message, or "Failed to save expert", and leaves the table unchanged. |
| ExpertVm.InsertExpert | app/src/main/java/com/example/smartfixer/ExpertViewModel.kt:33-43 | A save keeps the table's invariant from any state. |
| ExpertVm.ResetState | app/src/main/java/com/example/smartfixer/ExpertViewModel.kt:45-47 | Reset gives Idle from any state and leaves the table alone. |
| ExpertVm.InsertExpertOutcome | app/src/main/java/com/example/smartfixer/ExpertViewModel.kt:33-43 | For a new entity, Success holds exactly when the insert succeeds, and the table then gains exactly that row under a fresh id. A failure leaves the table and ends in Error. |
| ExpertVm.Sample | app/src/main/java/com/example/smartfixer/ExpertViewModel.kt:57-214 | Each sample has id 0, its own clock reading as creation time, and the category of its pair. |
| ExpertVm.SampleRatingsInRange | app/src/main/java/com/example/smartfixer/ExpertViewModel.kt:57-214 | Every sample rating lies between 4.4 and 4.9. |
| ExpertVm.SampleExperts | app/src/main/java/com/example/smartfixer/ExpertViewModel.kt:57-214 | There are twelve samples, all with id 0, each stamped with its own reading, in category pairs. |
| ExpertVm.InsertAll | app/src/main/java/com/example/smartfixer/ExpertViewModel.kt:52 | Inserting in order keeps the table valid and advances the AUTOINCREMENT counter by the number of entities. |
| ExpertVm.InsertAllKeeps | app/src/main/java/com/example/smartfixer/ExpertViewModel.kt:52 | Inserting in order keeps every row already stored, unchanged. |
| ExpertVm.InsertAllSlot | app/src/main/java/com/example/smartfixer/ExpertViewModel.kt:52 | The i-th entity is stored under `lastId + 1 + i`, with that id. |
| ExpertVm.InsertAllOnly | app/src/main/java/com/example/smartfixer/ExpertViewModel.kt:52 | Nothing but the old rows and the new ids ends up in the table. |
| ExpertVm.InsertAllCount | app/src/main/java/com/example/smartfixer/ExpertViewModel.kt:52 | The table grows by exactly the number of entities inserted. |
| ExpertVm.InsertAllStoresEach | app/src/main/java/com/example/smartfixer/ExpertViewModel.kt:52 | The table grows by the number of entities, and each of them is stored under an id of its own. |
| ExpertVm.Seed | app/src/main/java/com/example/smartfixer/ExpertViewModel.kt:49-54 | A non-empty table is left as it is, and seeding never changes the UI state. |
| ExpertVm.SeedEmpty | app/src/main/java/com/example/smartfixer/ExpertViewModel.kt:49-54 | Seeding an empty table leaves count 12, with every sample stored under its own id. |
| ExpertVm.SeedTwiceIsOnce | app/src/main/java/com/example/smartfixer/ExpertViewModel.kt:49-57 | Seeding twice with the once-built sample list equals seeding once, and the UI state is unchanged. |
| ExpertVm.SampleCategoriesDistinct | app/src/main/java/com/example/smartfixer/ExpertViewModel.kt:57-214 | The six sample category keys are pairwise distinct. |
| ExpertVm.TwoSamplesPerCategory | app/src/main/java/com/example/smartfixer/ExpertViewModel.kt:57-214 | Each of the six keys has exactly two samples. |
| Onboarding.OptionKeys | app/src/main/java/com/example/smartfixer/ExpertOnboardingScreen.kt:18-25 | The option keys are listed in menu order. |
| Onboarding.InitialForm | app/src/main/java/com/example/smartfixer/ExpertOnboardingScreen.kt:36-50 | The form starts with every text field empty, "plumbing" selected among the options, and no error shown. |
| Onboarding.Edit | app/src/main/java/com/example/smartfixer/ExpertOnboardingScreen.kt:106-250 | Typing into a field makes it hold exactly the typed text and leaves every other field and the category unchanged. Typing into name, phone or email clears that field's flag and only that flag; other fields clear none. |
| Onboarding.EditLastWins | app/src/main/java/com/example/smartfixer/ExpertOnboardingScreen.kt:106-250 | Of two edits to the same field only the later one counts: the result is as if the earlier never happened. |
| Onboarding.SelectCategory | app/src/main/java/com/example/smartfixer/ExpertOnboardingScreen.kt:131-137 | Picking the i-th menu entry selects that option and its key, which stays among the options. Nothing else in the form changes. |
| Onboarding.BuildEntity | app/src/main/java/com/example/smartfixer/ExpertOnboardingScreen.kt:268-282 | The text fields are trimmed. Years and rate are the parsed numbers, or 0 and 0.0 when unparsable. Rating is 5.0, id 0, and the creation time is now. |
| Onboarding.Submit | app/src/main/java/com/example/smartfixer/ExpertOnboardingScreen.kt:262-284 | A submit changes only the three error flags of the form. A registered entity is the one built from the form's fields. |
| Onboarding.SubmitRegistersIffFilled | app/src/main/java/com/example/smartfixer/ExpertOnboardingScreen.kt:263-267 | After a submit each flag is its field's blankness. An entity is registered exactly when name, phone and email are all non-blank. It is then the entity built from the form, and those three are non-empty. |
| Onboarding.CategoryStaysAnOption | app/src/main/java/com/example/smartfixer/ExpertOnboardingScreen.kt:18-37 | Every form operation keeps the selected category among the options, and a registered entity's category is an option key. |
| Onboarding.OnUiState | app/src/main/java/com/example/smartfixer/ExpertOnboardingScreen.kt:54-67 | Success shows "Registration successful!", resets and navigates back. Error shows "Error: " followed by the message and resets without navigating. Idle and Saving do nothing. |
| Onboarding.NoSecondRegisterWhileSaving | app/src/main/java/com/example/smartfixer/ExpertOnboardingScreen.kt:286 | Register is disabled once a save starts, and enabled again when it ends or is reset. |
| Onboarding.RegisterRoundTrip | app/src/main/java/com/example/smartfixer/ExpertOnboardingScreen.kt:54-67 | With the screen wired to `insertExpert` and `resetState` (the app itself contains no such wiring), a filled-in form always ends back at Idle. A successful save stores the built entity and pops back; a failed one stores nothing and stays. |
| ContactPro.Recommended | app/src/main/java/com/example/smartfixer/ContactProScreen.kt:75-77 | A card is highlighted exactly when the last category is non-null and equals its key. |
| ContactPro.AtMostOneRecommended | app/src/main/java/com/example/smartfixer/ContactProScreen.kt:34-41 | At most one card is highlighted, none without a last category, and exactly the matching card when there is one. |
| ContactPro.KeysMatchOnboarding | app/src/main/java/com/example/smartfixer/ContactProScreen.kt:34-41 | The cards' keys are the registration form's keys and the sample directory's keys, in the same order. |
| ContactPro.DiagnosisHighlightsItsCard | app/src/main/java/com/example/smartfixer/ContactProScreen.kt:75-77 | A diagnosis in one of the six categories highlights exactly that category's card. |
| ContactPro.PercentEncode | app/src/main/java/com/example/smartfixer/ContactProScreen.kt:81 | The encoding is never shorter than its input. |
| ContactPro.EncodeDecode | app/src/main/java/com/example/smartfixer/ContactProScreen.kt:81 | Percent-decoding the encoded query gives back the query. |
| ContactPro.EncodeAppend | app/src/main/java/com/example/smartfixer/ContactProScreen.kt:81 | Encoding works character by character: the encoding of a concatenation is the concatenation of the encodings. |
| ContactPro.UnreservedUnchanged | app/src/main/java/com/example/smartfixer/ContactProScreen.kt:81 | Text made of unreserved characters is left as it is. |
| ContactPro.TapTarget | app/src/main/java/com/example/smartfixer/ContactProScreen.kt:79-83 | A tap opens a `geo:0,0?q=` URI whose query part decodes back to the card's search text. |
| ContactPro.TapTargetsDistinct | app/src/main/java/com/example/smartfixer/ContactProScreen.kt:34-41 | Different cards open different searches. |
| Routes.RoutesDistinct | app/src/main/java/com/example/smartfixer/navigation/Screen.kt:4-12 | Two screens share a route exactly when they are the same screen. |
| Routes.CreateRoute | app/src/main/java/com/example/smartfixer/navigation/Screen.kt:9-10 | The detail route is the template with `{fixId}` replaced by the id's decimal text. |
| Routes.MatchDetailRoute | app/src/main/java/com/example/smartfixer/navigation/Screen.kt:9 | A matched id comes from a route that starts with `past_fix_detail/`. |
| Routes.DetailRouteRoundTrip | app/src/main/java/com/example/smartfixer/navigation/Screen.kt:10 | Reading the id segment of `createRoute(id)` as a Long gives `id`. |
| Routes.CreatedRouteIsNoScreenRoute | app/src/main/java/com/example/smartfixer/navigation/Screen.kt:4-12 | No detail route equals any screen's fixed route. |
| PastFixDetail.DecodeOrEmpty | app/src/main/java/com/example/smartfixer/PastFixDetailScreen.kt:31-41 | A list decodes to its value, or to the empty list when it cannot be decoded. |
| PastFixDetail.Render | app/src/main/java/com/example/smartfixer/PastFixDetailScreen.kt:21-57 | A null fix shows only a spinner. A fix shows its title, difficulty, time and category verbatim, and both buttons call `onBack`. |
| PastFixDetail.ListsFallBackIndependently | app/src/main/java/com/example/smartfixer/PastFixDetailScreen.kt:31-41 | Tools and steps each fall back to empty on their own; one failing does not affect the other. |
| PastFixDetail.SavedFixShowsItsResult | app/src/main/java/com/example/smartfixer/PastFixDetailScreen.kt:43-50 | A row saved from a result is shown as exactly that result, whatever id it was stored under, given a list codec that round-trips. |
| AppShell.RequestFor | app/src/main/java/com/example/smartfixer/MainActivity.kt:163-169 | With no image, both image fields are null. With an image, the data is its encoding (possibly null) and the media type is always "image/jpeg". |
| AppShell.OnDiagnose | app/src/main/java/com/example/smartfixer/MainActivity.kt:162-172 | Every diagnose is followed by navigation to Results, and the selection is kept. |
| AppShell.BackendSeesImageIffEncoded | app/src/main/java/com/example/smartfixer/MainActivity.kt:163-170 | The backend decodes the sent request unchanged. The model sees the image exactly when one is selected and encodes to non-empty text. |
| AppShell.FailedEncodingAsksTextOnly | app/src/main/java/com/example/smartfixer/MainActivity.kt:166-169 | A selected image that fails to encode still sends "image/jpeg", with null data, and the model gets text only. |
| AppShell.BottomBarOnTabsOnly | app/src/main/java/com/example/smartfixer/MainActivity.kt:118-128 | Judged by the destination's route pattern, the bar shows exactly on Home, Past Fixes, Contact Pro and Profile. It is hidden on Results, onboarding and the detail template, and with no destination. |
| AppShell.ResultsDestination | app/src/main/java/com/example/smartfixer/MainActivity.kt:199-253 | Loading shows the loader. Success shows the result. Error shows "Error: " and the message. Idle pops back at once. |
| AppShell.Run | app/src/main/java/com/example/smartfixer/MainActivity.kt:207-244 | A button performs its navigation. A button that does not reset the diagnosis leaves the view model as it was. |
| AppShell.ResultsButtonsLeave | app/src/main/java/com/example/smartfixer/MainActivity.kt:204-243 | Continue pops one screen and changes nothing. Done, Try Again and Go Back reset and pop to Home, after which Results would leave at once. |
| AppShell.FixIdArgument | app/src/main/java/com/example/smartfixer/MainActivity.kt:276 | The detail screen's id is the route's id, or 0 when there is none. |
| AppShell.DetailDestination | app/src/main/java/com/example/smartfixer/MainActivity.kt:272-284 | The detail screen shows a spinner until loaded, shows a fix only for a stored id, and both buttons pop back. |
| AppShell.TappedFixShowsItsResult | app/src/main/java/com/example/smartfixer/MainActivity.kt:264-284 | Tapping a saved diagnosis opens a route that carries its id back. Once loaded, the screen shows the result the row was saved from. |
| ImageUtil.ScaledSizeIsIntegerFormula | app/src/main/java/com/example/smartfixer/util/ImageUtil.kt:35-49 | The ratio-and-truncate size equals the integer formula: the longer side becomes 1024 and the other is cut in proportion. |
| ImageUtil.ScaledSizeBounds | app/src/main/java/com/example/smartfixer/util/ImageUtil.kt:39-46 | Both sides end at most 1024 and neither grows. A small image is kept, and a large one's longer side is exactly 1024. |
| ImageUtil.ScaledSizeExamples | app/src/main/java/com/example/smartfixer/util/ImageUtil.kt:39-46 | 2048×1024 becomes 1024×512, 800×600 is kept, and 3000×2 scales to a height of 0. |
| ImageUtil.UriToBase64 | app/src/main/java/com/example/smartfixer/util/ImageUtil.kt:14-33 | A null result recycles nothing. |
| ImageUtil.EncodesCappedBitmap | app/src/main/java/com/example/smartfixer/util/ImageUtil.kt:14-33 | The result is non-null exactly when opening, decoding, closing, a non-zero scaled size and compression all succeed. It is then the Base64 of a bitmap at most 1024 a side. |
| ImageUtil.RecycledOnceEach | app/src/main/java/com/example/smartfixer/util/ImageUtil.kt:26-27 | On success the original is recycled exactly once and last, and the scaled copy once when it is a distinct bitmap. |
| Fence.NextFence | backend/main.py:96 | Returns the first fence at or after a position, or none when there is none. |
| Fence.TagEnd | backend/main.py:96 | After a fence, the optional `json` tag is consumed exactly when it is present. |
| Fence.ContentEnd | backend/main.py:96 | Returns the first position from which optional whitespace reaches a closing fence. |
| Fence.StripFollowsRegex | backend/main.py:96-98 | Without a match the text is unchanged. With one, the result is the group of the match a backtracking engine reports: leftmost, `json` taken, greedy `\s*`, shortest lazy group. |
| Fence.UnchangedIffNoMatch | backend/main.py:96-98 | The reply is left as it is exactly when the pattern does not match. |
| Fence.GroupBounds | backend/main.py:96 | A match's group is an infix that starts at a non-space and ends at the first closing position. |
| Fence.GroupHasNoFence | backend/main.py:96 | The captured group never contains a fence. |
| Fence.GroupIsTrimmed | backend/main.py:96 | The captured group neither starts nor ends with whitespace. |
| Fence.NoFenceUnchanged | backend/main.py:96-98 | Text without a fence is left as it is. |
| Fence.StripIdempotent | backend/main.py:96-98 | Stripping twice is stripping once. |
| Backend.Take | backend/main.py:103 | `s[:500]` is a prefix of at most 500 characters, and the whole text when shorter. |
| Backend.BuildContent | backend/main.py:68-84 | The content carries the image exactly when both image fields are non-empty. Both forms use the prompt prefix plus the description. |
| Backend.Answer | backend/main.py:86-107 | Every failure after the key check is a 500 or a 502. |
| Backend.Diagnose | backend/main.py:59-107 | A missing or empty key gives 500 "ANTHROPIC_API_KEY not configured"; otherwise the answer depends only on the model's reply. |
| Backend.MissingKeyNeverCallsAi | backend/main.py:61-63 | Without a key, the answer is the same 500 whatever the model client would do. |
| Backend.BadGatewayExactly | backend/main.py:102-107 | Status 502 occurs exactly for an API error and for a reply whose stripped text does not parse. Every other failure is 500. |
| Backend.ParseFailureDetail | backend/main.py:102-103 | A parse failure is a 502 whose detail is the prefix followed by at most 500 characters of the stripped text. |
| Backend.EncodedReplyAnswers | backend/main.py:94-101 | A reply that parses to a result's JSON is answered with that result. Without `category`, the answer's category is "general". |
| Backend.OneImageFieldIsTextOnly | backend/main.py:68-84 | A media type without data, or data without a media type, gives text-only content. |

## Left out

- Compose rendering, theming and layout: presentation only. The Home, Results, Loading, Past Fixes and Profile screens appear only through the callbacks `MainActivity` passes them.
- The Retrofit client and its timeouts: the HTTP call is a parameter that answers or fails with an optional message.
- ProfileViewModel and PastFixesViewModel: they only delegate to the preference store and the DAO, which are modelled.
- Concurrency: each launched coroutine block is one atomic step. Two cases are out of scope for this reason: a second `diagnose` racing the first, and the unsynchronised count-then-insert in seeding.
- The double-checked `synchronized` block in `getInstance`: only sequential calls are modelled.
- A sample insert that throws while seeding: it escapes the coroutine and crashes the process, outside any state the model keeps.
- `OutOfMemoryError` in `uriToBase64`: it is not an `Exception`, so it is not caught; the model covers only caught failures.
- Room's schema validation at open time: the model states only the migrations' effect on the data, and that an upgraded `past_fixes` has a column the entity lacks.
- The expert-onboarding destination: `MainActivity` registers no route for `ExpertOnboardingScreen` and creates no `ExpertViewModel`, so the screen's callbacks are taken to be `insertExpert` and `resetState`.
- Intents for Maps, the camera FileProvider, the activity-result launchers, the bottom bar's back-stack options, and Navigation's parsing of non-numeric `fixId` text: platform behaviour.
- The backend's `/health` endpoint, CORS middleware, system prompt and model parameters: these are configuration, not logic.
- Text.IsSpace: only the ASCII and C0 whitespace characters are modelled. Kotlin's `isWhitespace` and Python's `\s` also accept Unicode spaces.
- Text.ParseInteger: accepts ASCII digits only, whereas Kotlin's `toIntOrNull` also accepts other Unicode decimal digits.
- ContactPro.PercentEncode: covers ASCII text only, which includes all six fixed search queries. `Uri.encode` also percent-encodes the UTF-8 bytes of other characters.
- ImageUtil.ScaledSize: uses exact reals. The source computes the ratio and the products in 32-bit floats, so rounding can leave the longer side at 1023 instead of 1024.
- Experts.ExpertEntity: `hourlyRate` (a Double) and `rating` (a Float) are exact reals, and `toDoubleOrNull` is a parameter.
- Row ids are unbounded integers. The 64-bit limit of SQLite ids and of Kotlin `Long` is modelled only where the route text is read back.
- The JSON list codec and `json.loads` are parameters. Where a property needs the list codec to round-trip, it is stated as a precondition.
