# Mentor copilot core, modelled in Dafny

This project models the core of the Magic Bus mentor copilot (a Spring
service with two Streamlit pages). It covers four areas.

- **Onboarding document verification.**
  - `NameMatcher` reduces names to their lower-case letters.
  - `AzureDocumentIntelligenceClient` turns an uploaded ID or income proof into a `DocumentExtractionResult`. It tries two REST paths and polls at most fifteen times.
  - `OnboardingService.verify` matches the profile name against the three documents, alerts `PowerAutomateNotifier` for every document read with confidence below 0.90, and builds the `OnboardingResult`.
  - `StudentProfileLookup` is an id-to-name table filled from `students.csv`.
  - `BlobStorageService` names and uploads the audit blob.
- **The curriculum tool.** `CurriculumFunction` returns the modules of the first career-path key named, in any case, inside the student's free text. It falls back to "General".
- **The career advisor's prompt preparation.** `CareerAdvisorService` prepares the prompt:
  - the knowledge-graph rule text;
  - the retrieval context;
  - the language instruction;
  - the choice of template;
  - the null-safe defaults;
  - the fifteen prompt variables.
- **The page helpers** of `Chat.py` and `pages/MentorBridge.py`:
  - the recent-conversation text;
  - choice sanitising;
  - radar scores;
  - statement rows to dictionaries;
  - the student-record lookup;
  - the comma-separated list round trip.

Modelling choices:
- Java's nullable references are `Option`.
- Objects whose fields change are classes with `modifies` frames. The two result records, the notifier's sent alerts, the profile table, the blob container and the advisor service are modelled this way.
- Loops in the source are methods proved against a specification function. The specification functions carry the lemmas.
- The network, the database, the vector search, the clock and the files are parameters:
  - an analysis reply is a function of the URL;
  - a poll reply is a function of the URL and the attempt number;
  - the profile query is a value;
  - the CSV and JSON files are their parsed contents.

Modules:
- `Wrappers` and `Text` hold shared definitions: Java and Python string handling, trimming, join/split and decimal rendering.
- `NameMatcher`, `ExtractionRecord`, `OnboardingRecord`, `Onboarding`, `ProfileLookup`, `DocIntelligence` and `BlobStorage` model the onboarding path.
- `Curriculum` models the curriculum tool.
- `CareerAdvisor` models the prompt preparation.
- `Conversation` and `MentorBridge` model the pages.

Two pieces of Java behaviour are followed throughout:
- In string concatenation Java renders `null` as "null" (`Text.Show`).
- `String.trim` removes every character up to U+0020, while `isBlank` uses `Character.isWhitespace`. These are different sets, and both are modelled as written.

## Model

| member | source | states |
|---|---|---|
| NameMatcher.Normalize | src/main/java/com/magicbus/careercatalyst/onboarding/NameMatcher.java:4-9 | null gives ""; the result holds only lower-case letters a-z |
| NameMatcher.AllMatch | src/main/java/com/magicbus/careercatalyst/onboarding/NameMatcher.java:11-20 | true exactly when the profile name has a letter and the Aadhaar and income names normalise to it, and the PAN name does too unless it is null or blank |
| NameMatcher.NormalizeIdempotent | src/main/java/com/magicbus/careercatalyst/onboarding/NameMatcher.java:4-9 | normalising twice is normalising once |
| NameMatcher.NormalizeIgnoresCase | src/main/java/com/magicbus/careercatalyst/onboarding/NameMatcher.java:8 | lower-casing the input first changes nothing |
| NameMatcher.NormalizeIgnoresNonLetter | src/main/java/com/magicbus/careercatalyst/onboarding/NameMatcher.java:8 | inserting a character that does not lower-case to a-z changes nothing |
| NameMatcher.NormalizeExamples | src/main/java/com/magicbus/careercatalyst/onboarding/NameMatcher.java:4-9 | "Jo Ann" and "JO-ANN " both normalise to "joann" |
| NameMatcher.BlankNormalizesToEmpty | src/main/java/com/magicbus/careercatalyst/onboarding/NameMatcher.java:4-9 | a blank name has no letters |
| NameMatcher.BlankRequiredNameFails | src/main/java/com/magicbus/careercatalyst/onboarding/NameMatcher.java:16-19 | a null or blank Aadhaar or income name never matches |
| NameMatcher.BlankPanIsOptional | src/main/java/com/magicbus/careercatalyst/onboarding/NameMatcher.java:17 | a null or blank PAN name matches exactly as no PAN name |
| NameMatcher.PunctuationPanFails | src/main/java/com/magicbus/careercatalyst/onboarding/NameMatcher.java:17 | a non-blank PAN name without letters ("!!!") makes the match fail |
| ExtractionRecord.DocumentExtractionResult.Empty | src/main/java/com/magicbus/careercatalyst/onboarding/DocumentExtractionResult.java:10 | strings null, confidence 0.0 |
| ExtractionRecord.DocumentExtractionResult.constructor | src/main/java/com/magicbus/careercatalyst/onboarding/DocumentExtractionResult.java:12-18 | every field holds its argument |
| ExtractionRecord.DocumentExtractionResult.SetName | src/main/java/com/magicbus/careercatalyst/onboarding/DocumentExtractionResult.java:40-42 | the name becomes the argument; the other four fields are unchanged |
| ExtractionRecord.DocumentExtractionResult.SetDob | src/main/java/com/magicbus/careercatalyst/onboarding/DocumentExtractionResult.java:44-46 | the date of birth becomes the argument; nothing else changes |
| ExtractionRecord.DocumentExtractionResult.SetIdNumber | src/main/java/com/magicbus/careercatalyst/onboarding/DocumentExtractionResult.java:48-50 | the id number becomes the argument; nothing else changes |
| ExtractionRecord.DocumentExtractionResult.SetAnnualIncome | src/main/java/com/magicbus/careercatalyst/onboarding/DocumentExtractionResult.java:52-54 | the income becomes the argument; nothing else changes |
| ExtractionRecord.DocumentExtractionResult.SetConfidence | src/main/java/com/magicbus/careercatalyst/onboarding/DocumentExtractionResult.java:56-58 | any confidence is stored unclamped; nothing else changes |
| OnboardingRecord.OnboardingResult.Empty | src/main/java/com/magicbus/careercatalyst/onboarding/OnboardingResult.java:11 | not verified, every other field null |
| OnboardingRecord.OnboardingResult.constructor | src/main/java/com/magicbus/careercatalyst/onboarding/OnboardingResult.java:13-18 | every field holds its argument |
| OnboardingRecord.OnboardingResult.SetVerified | src/main/java/com/magicbus/careercatalyst/onboarding/OnboardingResult.java:24-26 | the flag becomes the argument; the other three fields are unchanged |
| OnboardingRecord.OnboardingResult.SetStudentId | src/main/java/com/magicbus/careercatalyst/onboarding/OnboardingResult.java:32-34 | the id becomes the argument; nothing else changes |
| OnboardingRecord.OnboardingResult.SetDocuments | src/main/java/com/magicbus/careercatalyst/onboarding/OnboardingResult.java:40-42 | the documents become the argument; nothing else changes |
| OnboardingRecord.OnboardingResult.SetNotes | src/main/java/com/magicbus/careercatalyst/onboarding/OnboardingResult.java:48-50 | the notes become the argument; nothing else changes |
| Onboarding.FetchStudentName | src/main/java/com/magicbus/careercatalyst/onboarding/OnboardingService.java:65-75 | a failing query gives ""; a row gives its (possibly null) name |
| Onboarding.SuccessDocuments | src/main/java/com/magicbus/careercatalyst/onboarding/OnboardingService.java:38-41 | when every upload reads, the documents map has exactly the keys aadhaar, pan and income, each bound to the extraction of its own upload |
| Onboarding.VerifiedIff | src/main/java/com/magicbus/careercatalyst/onboarding/OnboardingService.java:47-50 | verified exactly when every upload reads, the names match and all three confidences are at least 0.90 |
| Onboarding.VerifiedNamesAgree | src/main/java/com/magicbus/careercatalyst/onboarding/OnboardingService.java:35-36 | a verified student's profile name has letters and agrees with the Aadhaar and income names |
| Onboarding.NotesReportNameMatch | src/main/java/com/magicbus/careercatalyst/onboarding/OnboardingService.java:52 | the notes say "Name match successful" exactly when the names match, whatever the confidences |
| Onboarding.LowConfidenceAlertsExact | src/main/java/com/magicbus/careercatalyst/onboarding/OnboardingService.java:43-45 | one alert per document below 0.90 and none for the others, each with the student id and that confidence, in the order aadhaar, pan, income |
| Onboarding.AlertsExactlyLowConfidence | src/main/java/com/magicbus/careercatalyst/onboarding/OnboardingService.java:43-45 | on success the alerts name exactly the documents of the result whose confidence is below 0.90, each once |
| Onboarding.VerifiedRaisesNoAlert | src/main/java/com/magicbus/careercatalyst/onboarding/OnboardingService.java:43-50 | a verified result raised no alert |
| Onboarding.UnreadableUploadFails | src/main/java/com/magicbus/careercatalyst/onboarding/OnboardingService.java:54-55 | an unreadable upload gives not verified, an empty documents map, no alert and "Verification failed: " with the first failure's message |
| Onboarding.FailedLookupNeverVerifies | src/main/java/com/magicbus/careercatalyst/onboarding/OnboardingService.java:34-36 | a failed, null or blank profile name is never verified |
| Onboarding.Notifier.constructor | src/main/java/com/magicbus/careercatalyst/onboarding/PowerAutomateNotifier.java:20-23 | the webhook URL is kept; nothing has been posted |
| Onboarding.Notifier.NotifyLowConfidence | src/main/java/com/magicbus/careercatalyst/onboarding/PowerAutomateNotifier.java:20-38 | one alert is posted, with the given id, type and confidence, unless the webhook is null or blank |
| Onboarding.OnboardingService.constructor | src/main/java/com/magicbus/careercatalyst/onboarding/OnboardingService.java:18-23 | the collaborators are kept |
| Onboarding.OnboardingService.Extract | src/main/java/com/magicbus/careercatalyst/onboarding/OnboardingService.java:30-32 | a fresh record holding the extractor's output for that request |
| Onboarding.OnboardingService.CheckConfidence | src/main/java/com/magicbus/careercatalyst/onboarding/OnboardingService.java:59-63 | the notifier receives the alert exactly when the confidence is below 0.90 |
| Onboarding.OnboardingService.Conclude | src/main/java/com/magicbus/careercatalyst/onboarding/OnboardingService.java:34-53 | the result and the alerts are those of Decide on the three extractions |
| Onboarding.OnboardingService.Verify | src/main/java/com/magicbus/careercatalyst/onboarding/OnboardingService.java:25-57 | the result's four fields and the alerts sent are those of VerifySpec |
| ProfileLookup.LoadAppend | src/main/java/com/magicbus/careercatalyst/onboarding/StudentProfileLookup.java:51-57 | loading in two runs is loading once when the first run throws nothing |
| ProfileLookup.ExceptionStopsLoading | src/main/java/com/magicbus/careercatalyst/onboarding/StudentProfileLookup.java:51-61 | a record that cannot be read ends the loading; nothing after it is stored |
| ProfileLookup.LoadedIsLastName | src/main/java/com/magicbus/careercatalyst/onboarding/StudentProfileLookup.java:51-57 | after a full read an id is a key exactly when some record stores it, and its name is that of the last such record |
| ProfileLookup.LoadSkipsBlankIds | src/main/java/com/magicbus/careercatalyst/onboarding/StudentProfileLookup.java:54 | blank ids never become keys |
| ProfileLookup.StudentProfileLookup.constructor | src/main/java/com/magicbus/careercatalyst/onboarding/StudentProfileLookup.java:23-25 | the table is the loaded file; empty when the file is missing or unreadable |
| ProfileLookup.StudentProfileLookup.LoadProfiles | src/main/java/com/magicbus/careercatalyst/onboarding/StudentProfileLookup.java:34-62 | the records are put in order until the first exception; a missing or unreadable file leaves the table as it is |
| ProfileLookup.StudentProfileLookup.GetNameById | src/main/java/com/magicbus/careercatalyst/onboarding/StudentProfileLookup.java:27-32 | "" for a null or unknown id, the stored name otherwise |
| ProfileLookup.LookupGivesLastName | src/main/java/com/magicbus/careercatalyst/onboarding/StudentProfileLookup.java:27-57 | a lookup gives the last record's name for that id, and "" for an id no record stores |
| ProfileLookup.BlankIdFindsNothing | src/main/java/com/magicbus/careercatalyst/onboarding/StudentProfileLookup.java:27-57 | a blank id never finds a name |
| DocIntelligence.GetFieldValue | src/main/java/com/magicbus/careercatalyst/onboarding/AzureDocumentIntelligenceClient.java:186-193 | "" when the field or its value member is missing |
| DocIntelligence.GetFieldConfidence | src/main/java/com/magicbus/careercatalyst/onboarding/AzureDocumentIntelligenceClient.java:195-202 | 0.0 when the field or its confidence is missing |
| DocIntelligence.FieldsToResult | src/main/java/com/magicbus/careercatalyst/onboarding/AzureDocumentIntelligenceClient.java:53-76 | no documents gives the empty-strings sentinel; otherwise the name is NameOf, the confidence ConfidenceOf, the birth date DateOfBirth's valueDate, the id DocumentNumber's content and the income TotalIncome's content, all of the first document; the four strings are never null; an ID document has income "" |
| DocIntelligence.NameFallback | src/main/java/com/magicbus/careercatalyst/onboarding/AzureDocumentIntelligenceClient.java:60-65 | a non-blank FullName is the name; otherwise first and last names joined by a space and trimmed |
| DocIntelligence.JoinedNameIsTrimmed | src/main/java/com/magicbus/careercatalyst/onboarding/AzureDocumentIntelligenceClient.java:61-65 | a joined name has no space at either end |
| DocIntelligence.ConfidenceFallback | src/main/java/com/magicbus/careercatalyst/onboarding/AzureDocumentIntelligenceClient.java:71-74 | the DocumentNumber confidence, or the FullName one when that is exactly 0.0 |
| DocIntelligence.ResolveIdModel | src/main/java/com/magicbus/careercatalyst/onboarding/AzureDocumentIntelligenceClient.java:133-142 | null, blank, "aadhaar" and "pan" in any case and padding give the ID model; anything else is kept as given |
| DocIntelligence.ResolveIdModelIdempotent | src/main/java/com/magicbus/careercatalyst/onboarding/AzureDocumentIntelligenceClient.java:133-142 | resolving a resolved model changes nothing |
| DocIntelligence.PanWithSpacesResolves | src/main/java/com/magicbus/careercatalyst/onboarding/AzureDocumentIntelligenceClient.java:137-139 | " PAN " resolves to the ID model |
| DocIntelligence.PollFrom | src/main/java/com/magicbus/careercatalyst/onboarding/AzureDocumentIntelligenceClient.java:144-176 | never more than fifteen requests; a result only from a reply that succeeded |
| DocIntelligence.PollStopsAtFirstNonRunning | src/main/java/com/magicbus/careercatalyst/onboarding/AzureDocumentIntelligenceClient.java:146-169 | polling stops at the first reply that is not still running; every earlier one was; the body is returned exactly when the last reply succeeded |
| DocIntelligence.PollTimesOut | src/main/java/com/magicbus/careercatalyst/onboarding/AzureDocumentIntelligenceClient.java:146-171 | fifteen running replies give no result after exactly fifteen requests |
| DocIntelligence.FallbackFrom | src/main/java/com/magicbus/careercatalyst/onboarding/AzureDocumentIntelligenceClient.java:83-131 | one post per remaining base path, or fewer when an answer other than 404 ends the loop, and then at least one |
| DocIntelligence.FallbackPostsInOrder | src/main/java/com/magicbus/careercatalyst/onboarding/AzureDocumentIntelligenceClient.java:89-91 | the URLs posted to are the base paths in order, each with the model id and the analyze suffix |
| DocIntelligence.FallbackOnlyOnNotFound | src/main/java/com/magicbus/careercatalyst/onboarding/AzureDocumentIntelligenceClient.java:100-103 | the legacy path is tried only after a 404; two 404s give no result |
| DocIntelligence.ErrorStatusStops | src/main/java/com/magicbus/careercatalyst/onboarding/AzureDocumentIntelligenceClient.java:104-107 | an exception, or a first status of 300 or more other than 202 and 404, ends the analysis after one post with no result and no poll |
| DocIntelligence.PollsOnlyAfterAccepted | src/main/java/com/magicbus/careercatalyst/onboarding/AzureDocumentIntelligenceClient.java:109-119 | polling happens only after a 202 with an operation location, at most fifteen times |
| DocIntelligence.FailuresGiveSentinel | src/main/java/com/magicbus/careercatalyst/onboarding/AzureDocumentIntelligenceClient.java:43-56 | missing configuration gives the sentinel |
| DocIntelligence.AnalyzeShape | src/main/java/com/magicbus/careercatalyst/onboarding/AzureDocumentIntelligenceClient.java:42-81 | the analysis never gives a null string, and an ID document has no income |
| DocIntelligence.AzureDocumentIntelligenceClient.constructor | src/main/java/com/magicbus/careercatalyst/onboarding/AzureDocumentIntelligenceClient.java:25-31 | endpoint and key are kept |
| DocIntelligence.AzureDocumentIntelligenceClient.AnalyzeIdDocument | src/main/java/com/magicbus/careercatalyst/onboarding/AzureDocumentIntelligenceClient.java:33-36 | the analysis with the resolved model and no income |
| DocIntelligence.AzureDocumentIntelligenceClient.AnalyzeIncomeDocument | src/main/java/com/magicbus/careercatalyst/onboarding/AzureDocumentIntelligenceClient.java:38-40 | the analysis with the general document model and income |
| DocIntelligence.AzureDocumentIntelligenceClient.AnalyzeDocument | src/main/java/com/magicbus/careercatalyst/onboarding/AzureDocumentIntelligenceClient.java:42-81 | a fresh record holding Analyze's fields |
| DocIntelligence.AzureDocumentIntelligenceClient.AnalyzeWithFallback | src/main/java/com/magicbus/careercatalyst/onboarding/AzureDocumentIntelligenceClient.java:83-131 | the root, the URLs posted to and the number of polls are those of FallbackFrom |
| DocIntelligence.AzureDocumentIntelligenceClient.SettleAttempt | src/main/java/com/magicbus/careercatalyst/onboarding/AzureDocumentIntelligenceClient.java:99-122 | an answer other than 404 ends the attempt exactly as Settle says: an exception or error status gives nothing, a 202 polls the operation location, a success is parsed |
| DocIntelligence.AzureDocumentIntelligenceClient.PollForResult | src/main/java/com/magicbus/careercatalyst/onboarding/AzureDocumentIntelligenceClient.java:144-176 | the result and request count are those of PollFrom |
| DocIntelligence.CollapseWhitespace | src/main/java/com/magicbus/careercatalyst/onboarding/AzureDocumentIntelligenceClient.java:182 | no longer than the input, empty only for empty input, every whitespace is a single space, no two spaces in a row |
| DocIntelligence.CollapseKeepsNonSpace | src/main/java/com/magicbus/careercatalyst/onboarding/AzureDocumentIntelligenceClient.java:182 | every character other than whitespace is kept, in order, and no other is added |
| DocIntelligence.CollapseKeepsWord | src/main/java/com/magicbus/careercatalyst/onboarding/AzureDocumentIntelligenceClient.java:182 | a character other than whitespace is copied and the rest collapsed after it |
| DocIntelligence.CollapseRun | src/main/java/com/magicbus/careercatalyst/onboarding/AzureDocumentIntelligenceClient.java:182 | a whole run of whitespace, up to the next other character or the end, becomes exactly one space in its place |
| DocIntelligence.TrimBody | src/main/java/com/magicbus/careercatalyst/onboarding/AzureDocumentIntelligenceClient.java:178-184 | null gives ""; never more than 501 characters; a collapsed, trimmed body longer than 500 characters is cut to its first 500 followed by an ellipsis |
| DocIntelligence.TrimBodyWhitespace | src/main/java/com/magicbus/careercatalyst/onboarding/AzureDocumentIntelligenceClient.java:178-184 | the output holds no whitespace but single spaces |
| DocIntelligence.ShortBodyKept | src/main/java/com/magicbus/careercatalyst/onboarding/AzureDocumentIntelligenceClient.java:183 | a body of at most 500 characters after collapsing and trimming is kept whole |
| BlobStorage.DashRuns | src/main/java/com/magicbus/careercatalyst/storage/BlobStorageService.java:67 | only [a-z0-9-] with no two dashes in a row; a dash first exactly when the input starts with another character |
| BlobStorage.Slugify | src/main/java/com/magicbus/careercatalyst/storage/BlobStorageService.java:62-70 | null or blank gives "unknown" |
| BlobStorage.SlugifyGivesSlug | src/main/java/com/magicbus/careercatalyst/storage/BlobStorageService.java:62-70 | every result is non-empty [a-z0-9-] with no dash at either end and no two dashes in a row |
| BlobStorage.SlugifyIdempotent | src/main/java/com/magicbus/careercatalyst/storage/BlobStorageService.java:62-70 | slugifying a slug gives it back |
| BlobStorage.SlugKeepsLettersAndDigits | src/main/java/com/magicbus/careercatalyst/storage/BlobStorageService.java:66-69 | the slug keeps every ASCII letter and digit of the lower-cased name, in order |
| BlobStorage.NoLettersOrDigitsGivesUnknown | src/main/java/com/magicbus/careercatalyst/storage/BlobStorageService.java:63-69 | a name without ASCII letters or digits gives "unknown" |
| BlobStorage.SafeStudentId | src/main/java/com/magicbus/careercatalyst/storage/BlobStorageService.java:57 | "unknown" for a null or blank id, otherwise the id trimmed |
| BlobStorage.DatePathLayout | src/main/java/com/magicbus/careercatalyst/storage/BlobStorageService.java:25 | a date renders as ten characters, digits with '/' at 4 and 7 |
| BlobStorage.BuildOnboardingBlobName | src/main/java/com/magicbus/careercatalyst/storage/BlobStorageService.java:55-60 | "onboarding/", the yyyy/MM/dd date, "/student-", the safe id, "-", the slug of the name, "-", the milliseconds and ".json", in that order |
| BlobStorage.DistinctMillisDistinctNames | src/main/java/com/magicbus/careercatalyst/storage/BlobStorageService.java:59 | two different millisecond stamps never give the same name |
| BlobStorage.UploadReply | src/main/java/com/magicbus/careercatalyst/storage/BlobStorageService.java:38-53 | unconfigured gives the fixed message, success "", a failure the exception's message |
| BlobStorage.BlobStorageService.constructor | src/main/java/com/magicbus/careercatalyst/storage/BlobStorageService.java:30-36 | whether a container exists, and its blobs |
| BlobStorage.BlobStorageService.UploadJson | src/main/java/com/magicbus/careercatalyst/storage/BlobStorageService.java:38-53 | the reply is UploadReply; only a successful upload replaces the blob of that name |
| Curriculum.FirstMatch | src/main/java/com/magicbus/careercatalyst/functions/CurriculumFunction.java:31-34 | a found key is in the list and named in the path; none found means no key is named |
| Curriculum.GetModules | src/main/java/com/magicbus/careercatalyst/functions/CurriculumFunction.java:29-36 | always a list of the table; the list of a key the path names, or the General list when it names none |
| Curriculum.CurriculumFunction | src/main/java/com/magicbus/careercatalyst/functions/CurriculumFunction.java:59-61 | the answer of GetModules for the same path, so always a list of the table |
| Curriculum.GetModulesIgnoresCase | src/main/java/com/magicbus/careercatalyst/functions/CurriculumFunction.java:32 | the answer for a path equals the answer for its lower-case form |
| Curriculum.SingleMatchDecides | src/main/java/com/magicbus/careercatalyst/functions/CurriculumFunction.java:29-36 | when exactly one key is named, its list is the answer, whatever the map's order |
| Curriculum.DataAnalystWish | src/main/java/com/magicbus/careercatalyst/functions/CurriculumFunction.java:30-35 | "I want to be a Data Analyst" gets the Data Analyst modules in every order |
| CareerAdvisor.Field | src/main/java/com/magicbus/careercatalyst/CareerAdvisorService.java:49-52 | a missing key gives "Unknown"; a null value renders as "null"; a text value is kept |
| CareerAdvisor.RuleLines | src/main/java/com/magicbus/careercatalyst/CareerAdvisorService.java:48-54 | one line per rule, in order |
| CareerAdvisor.RulesFailIff | src/main/java/com/magicbus/careercatalyst/CareerAdvisorService.java:41-59 | the fixed failure text appears exactly when the file is unavailable, an element is not an object, or an element holds a value other than text or null under "interest", "trait", "skill" or "role" |
| CareerAdvisor.RulesTextSplitsIntoLines | src/main/java/com/magicbus/careercatalyst/CareerAdvisorService.java:47-55 | with single-line values, splitting the text at newlines gives back the rule lines |
| CareerAdvisor.NoRulesGiveEmptyText | src/main/java/com/magicbus/careercatalyst/CareerAdvisorService.java:55 | an empty list gives "" |
| CareerAdvisor.RagContextKeepsOrder | src/main/java/com/magicbus/careercatalyst/CareerAdvisorService.java:99-101 | a later story follows the earlier ones behind the separator |
| CareerAdvisor.LanguageInstruction | src/main/java/com/magicbus/careercatalyst/CareerAdvisorService.java:104-109 | Hindi exactly when the preference is "Hindi" in any case, Marathi likewise, English otherwise (null included) |
| CareerAdvisor.OneLanguageAtMost | src/main/java/com/magicbus/careercatalyst/CareerAdvisorService.java:105-108 | no preference selects both Hindi and Marathi |
| CareerAdvisor.ShoutedHindi | src/main/java/com/magicbus/careercatalyst/CareerAdvisorService.java:105 | "HINDI" selects Hindi |
| CareerAdvisor.TemplateFor | src/main/java/com/magicbus/careercatalyst/CareerAdvisorService.java:257 | the roadmap template exactly when a roadmap is requested |
| CareerAdvisor.OrDefault | src/main/java/com/magicbus/careercatalyst/CareerAdvisorService.java:261-262 | null gives the default; any other text is kept, even blank |
| CareerAdvisor.NonBlankOr | src/main/java/com/magicbus/careercatalyst/CareerAdvisorService.java:263-265 | null or blank gives the default; the result is never blank when the default is not |
| CareerAdvisor.SafeHours | src/main/java/com/magicbus/careercatalyst/CareerAdvisorService.java:266 | null gives "Not shared" |
| CareerAdvisor.SafeRating | src/main/java/com/magicbus/careercatalyst/CareerAdvisorService.java:267-269 | null gives "Not shared" |
| CareerAdvisor.SafeRatingFaithful | src/main/java/com/magicbus/careercatalyst/CareerAdvisorService.java:267-269 | a given rating never reads "Not shared"; different ratings read differently |
| CareerAdvisor.SafeHoursFaithful | src/main/java/com/magicbus/careercatalyst/CareerAdvisorService.java:266 | a given time never reads "Not shared"; different times read differently |
| CareerAdvisor.PromptVarsBindEveryPlaceholder | src/main/java/com/magicbus/careercatalyst/CareerAdvisorService.java:271-287 | exactly the template's fifteen variables are bound |
| CareerAdvisor.Safe | src/main/java/com/magicbus/careercatalyst/CareerAdvisorService.java:261-269 | the null-safe student name, AI interest and device access are never blank |
| CareerAdvisor.OnlyRawFieldsMayBeNull | src/main/java/com/magicbus/careercatalyst/CareerAdvisorService.java:271-287 | whatever the null-safe texts, only education, skills and interests can be null in the map |
| CareerAdvisor.StudentNameNeverBlank | src/main/java/com/magicbus/careercatalyst/CareerAdvisorService.java:263 | the student name variable is never blank |
| CareerAdvisor.CareerAdvisorService.constructor | src/main/java/com/magicbus/careercatalyst/CareerAdvisorService.java:29-39 | the rule text is read once, when the service is built |
| CareerAdvisor.CareerAdvisorService.ReadField | src/main/java/com/magicbus/careercatalyst/CareerAdvisorService.java:49-52 | the String cast fails exactly when the value is neither text nor null; otherwise the value is Field's |
| CareerAdvisor.CareerAdvisorService.LoadKnowledgeGraphRules | src/main/java/com/magicbus/careercatalyst/CareerAdvisorService.java:41-59 | the loop's text is KnowledgeGraphRules of the file |
| CareerAdvisor.CareerAdvisorService.PreparePrompt | src/main/java/com/magicbus/careercatalyst/CareerAdvisorService.java:96-287 | the template is TemplateFor, the variables those of PromptVars over the request's null-safe texts (Safe) and the three stories retrieved for skills and interests |
| Conversation.WindowIsLastTurns | pages/MentorBridge.py:328-330 | a positive count keeps the last min(n, count) messages |
| Conversation.ZeroTurnsKeepEverything | Chat.py:181-183 | a count of zero keeps every message, as Python's "-0" slice does |
| Conversation.BuildConversationContext | Chat.py:181-186 | the text is ConversationContext of the messages and count |
| Conversation.PlaceholderIffEmpty | pages/MentorBridge.py:328-333 | "No prior messages." appears exactly when the window is empty |
| Conversation.LabelIsUserIff | Chat.py:184 | a line starts "User: " exactly when the role is "user" |
| Conversation.ContextSplitsIntoLines | pages/MentorBridge.py:328-333 | with single-line contents, splitting the text at newlines gives one labelled line per message of the window |
| MentorBridge.SanitizeChoices | pages/MentorBridge.py:244-248 | nothing for a missing or empty list; every kept value is an option |
| MentorBridge.KeepOptionsCounts | pages/MentorBridge.py:248 | each option keeps every occurrence; anything else is dropped |
| MentorBridge.KeepOptionsAppend | pages/MentorBridge.py:248 | filtering keeps order |
| MentorBridge.SanitizeIdempotent | pages/MentorBridge.py:244-248 | sanitising twice is sanitising once |
| MentorBridge.AxesAreCategories | pages/MentorBridge.py:254-273 | every mapped item lands on one of the five axes |
| MentorBridge.UnmappedIgnored | pages/MentorBridge.py:275-278 | an unmapped item changes no count |
| MentorBridge.MappedCountsOnce | pages/MentorBridge.py:275-278 | a mapped item adds one to its axis and nothing elsewhere |
| MentorBridge.CountAppend | pages/MentorBridge.py:276 | counts add over concatenation |
| MentorBridge.MaxCount | pages/MentorBridge.py:279 | at least 1 |
| MentorBridge.RoundIsNearest | pages/MentorBridge.py:280 | Python's round gives a nearest whole number, the even one on a tie |
| MentorBridge.Scale | pages/MentorBridge.py:280 | always between 1 and 5 |
| MentorBridge.ScaleEndpoints | pages/MentorBridge.py:280 | no mentions give 1; the top count gives 5 |
| MentorBridge.ScaleMonotone | pages/MentorBridge.py:280 | more mentions never give a smaller value |
| MentorBridge.UnmentionedAxisIsOne | pages/MentorBridge.py:274-281 | an axis nobody mentions reads 1 |
| MentorBridge.TopAxisIsFive | pages/MentorBridge.py:274-281 | an axis with the largest positive count reads 5 |
| MentorBridge.RadarKeepsOrder | pages/MentorBridge.py:274-281 | axes keep the order of their counts |
| MentorBridge.ComputeRadarScores | pages/MentorBridge.py:253-281 | the five categories, and their RadarValues over skills then interests |
| MentorBridge.TallyAxes | pages/MentorBridge.py:274-278 | one score per category, each the number of items the mapping sends to it |
| MentorBridge.ColumnNames | pages/MentorBridge.py:102 | one key per column: its name, None for a null name, "col_" and the index for a missing one |
| MentorBridge.DefaultNamesDistinct | pages/MentorBridge.py:102 | default names at different positions differ |
| MentorBridge.ZipDict | pages/MentorBridge.py:103 | the keys are those of the first min(len) positions |
| MentorBridge.ZipDictLastValue | pages/MentorBridge.py:103 | a repeated key keeps the value of its last occurrence |
| MentorBridge.RowsToDicts | pages/MentorBridge.py:98-103 | one dictionary per data row, row i being the column keys zipped with its values; none when the result or data is missing, and no keys when the schema is |
| MentorBridge.ColumnValueUnderItsKey | pages/MentorBridge.py:102-103 | a column's value is under its key unless a later column the row reaches has the same key |
| MentorBridge.NullNameIsNoneKey | pages/MentorBridge.py:102-103 | a column with a null name puts its value under None, unless a later column the row reaches also has a null name |
| MentorBridge.UnnamedColumnsUseDefaults | pages/MentorBridge.py:102-103 | without names, column j's value is under "col_j" |
| MentorBridge.ZipTruncates | pages/MentorBridge.py:103 | a dictionary never has more keys than the shorter of names and row |
| MentorBridge.NotFoundMeansNoRow | pages/MentorBridge.py:146-149 | no row found means no row has the name |
| MentorBridge.FoundIsFirstRow | pages/MentorBridge.py:146-148 | a found row has the name and every earlier row has another |
| MentorBridge.GetStudentRecord | pages/MentorBridge.py:144-149 | the first row whose stripped, lower-cased name equals the query's, else none |
| MentorBridge.FindFirstNamed | pages/MentorBridge.py:146-149 | the scan returns the first row whose name is the key, searching from the front, else none |
| MentorBridge.DecodeEncode | pages/MentorBridge.py:213 | loading a saved list gives it back when no item is empty or holds a comma |
| MentorBridge.DecodedIsClean | pages/MentorBridge.py:232-233 | every loaded list survives another save and load unchanged |
| Text.SplitJoin | pages/MentorBridge.py:232 | splitting a join gives back the parts when none holds the separator |
| Text.IntToStringInjective | src/main/java/com/magicbus/careercatalyst/CareerAdvisorService.java:266-269 | different integers render differently |

## Left out

- Case mapping covers ASCII letters only. Java's `toLowerCase` and `equalsIgnoreCase` and Python's `lower` also map other letters, such as the Kelvin sign to 'k'.
- Java `double` confidences and Python floats are exact reals. The threshold 0.90 is the real 0.9. Only comparisons and one rounding use them.
- MentorBridge.RoundHalfEven rounds the exact fraction `(m + 4c)/m`. Python rounds the float value. The two agree unless float error moves a value across a .5 boundary; for the counts that occur (at most a few dozen items) that cannot happen.
- HTTP, `Thread.sleep`, the request headers and timeouts are not modelled. Replies are parameters: a reply to a POST is a function of the URL, and a reply to the n-th poll a function of the URL and n.
- Jackson parsing, the `asText`/`asDouble` coercions of JSON nodes and the CSV parser are not modelled. The parsed trees and records are inputs. `asDouble` of a numeric string, which Jackson parses, is 0.0 here. `asText` of a number is its recorded source text.
- The log messages and the `trimBody` text written to them are not modelled. DocIntelligence.TrimBody is modelled on its own.
- DocIntelligence.TrimBody cuts at 500 UTF-16 code units in Java. The model cuts at 500 characters and does not split surrogate pairs.
- The JDBC query, the database and the Databricks SQL connection are not modelled. The query's outcome is a parameter.
- `StudentProfileSchemaInitializer`, `DataLoadingService`, `DatabricksVectorSearchClient`, the controllers and the Spring wiring are not part of this model.
- `buildContainerClient` is not modelled. The service is configured or it is not.
- The JSON serialisation of the uploaded payload is not modelled: BlobStorage.BlobStorageService.UploadJson stores a text.
- PowerAutomateNotifier's `%.2f` body and the webhook POST are not modelled. The notifier records the alerts it sends. A failed POST is ignored in the source, as here.
- The clock: BlobStorage.BuildOnboardingBlobName takes the date and the milliseconds as parameters.
- BlobStorage.DatePath: for a year above 9999 Java's "yyyy" pattern prints a '+' before the year; the model prints the digits only. Such years are also outside BlobStorage.DatePathLayout.
- Curriculum.GetModules takes the order of `Map.of`'s entries as a parameter, because Java leaves it unspecified. A null career path, which throws in Java, is not modelled.
- The chat model call, the tool-calling loop, `PromptTemplate` rendering and the wording of the two prompt texts are not modelled. The variable map and the choice of template are.
- The Streamlit UI, `app.py`, `pages/Onboarding.py`, `pages/onboarding_velocity_engine.py` and `generate_data.py` are not part of this model.
- `save_profile`/`load_profile` are modelled only for the comma-joined lists. The SQL statement and the other columns are left out.
- A statement payload whose `result`, `data_array`, `schema` or `columns` is JSON null is not modelled. Python raises a TypeError or AttributeError there; the model reads each of them as missing (`None`) and gives the defaults.
- MentorBridge.GetStudentRecord: the rows it searches hold text cells only. A short CSV row, whose missing cells `csv.DictReader` fills with `None`, and a SQL NULL cell, which MentorBridge.RowsToDicts keeps as `None`, are outside it. A `None` "name" cell makes Python's `.strip()` raise an AttributeError, which the model does not express.
- The document text held by a retrieved story is taken as a string. A null text is not modelled.
- CareerAdvisor.Placeholders lists the fifteen variable names as a set; its size is not stated as a lemma.
