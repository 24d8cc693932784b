# Kiddo Academy content pipeline and story service, in Dafny

This project models the decision logic of the Kiddo Academy backend, a NestJS
service that has a generative model write English stories and quizzes for
Tunisian primary-school classes, and proves properties of that model.

- **Prompt parameters** (`ContentPrompt`). `buildPrompt` picks four
  descriptions for grades 4, 5 and 6 and falls back to generic ones for other
  grades. A truthy `complexityLevel` or `difficultyDegree` from the caller
  replaces the grade's text. The template also says how many more questions to
  add. The quiz-only prompt joins the paragraphs with blank lines and describes
  the caller's complexity and difficulty.
- **Reply normalisation** (`ResponseNormalizer`). The reply is trimmed, a
  leading "```json" is dropped, then a trailing "```", and the rest is trimmed
  again. JavaScript's `trim` is modelled with the ECMAScript whitespace set
  (`JsText`).
- **Validation with repair** (`ContentValidation`). These are the checks
  `generateContent` and `generateOnlyQuiz` make on the parsed JSON (`JsonValues`).
  - A reply with a missing or ill-typed required field is rejected.
  - An `open_ended` item loses an `options` field.
  - The quiz length is only compared with the requested count for a log line.
  - The loop that repairs items in place is a method over an array, proved
    against the functional specification.
- **Orchestration** (`ContentGeneration`). One model call, normalisation,
  parsing and validation. Every failure comes out as one HTTP 500 error.
- **`sanitizePrompt`** (`PromptSanitizer`). It removes disallowed characters,
  trims, and keeps at most 500 characters.
- **`StoryService`** (`StoryService`, over `ObjectIds`). The Mongo collections
  are in-memory tables.
  - `create` checks the caller, then checks the paragraphs, gives a placeholder
    title, and stores the record.
  - `getStoriesForChildsEtablissement` resolves the child's responsable role
    (failing on an unknown child, a missing level or an unusable parent link),
    then returns the teacher stories for the child's grade by the teachers whose
    `idResponsable` is the child's own `responsableId`. The establishment id the
    resolution computes is never used (see "## Findings").
  - `StoryStore` is a class holding the collections; its methods are proved
    against the functions.

Design notes on the model:
- The normaliser is not idempotent: "``````" normalises to "```", which
  normalises to "". The model proves both steps
  (`ResponseNormalizer.NormalizeNotIdempotent`).
- The code deletes `options` in place. The model keeps the in-place loop
  (`ContentValidation.RepairQuizInPlace`) and proves it equal to the pure
  repair.
- `sanitizePrompt` is private and has no caller: `generateImage` posts its
  prompt unfiltered. It is modelled on its own.
- Outside effects are parameters:
  - the generative model's reply (`ModelReply`);
  - `JSON.parse` (`ParseOutcome`);
  - the database contents (`Tables`, or the fields of `StoryStore`).

## Model

| member | source | states |
|---|---|---|
| ContentPrompt.GradeSelection | backend-kiddo-academy/src/content/content.service.ts:46-71 | grades 4, 5 and 6 select their own profile, and every other grade selects the generic one; each of a selected grade's four descriptions differs from every other grade's |
| ContentPrompt.ComplexityChoice | backend-kiddo-academy/src/content/content.service.ts:73 | a truthy non-negative complexity level appears as "<c> (user specified value)" and is read back as c; otherwise the grade's complexity text is used, and it reads back as no caller value |
| ContentPrompt.DifficultyChoice | backend-kiddo-academy/src/content/content.service.ts:74 | for a request in the DTO's ranges, the prompt's difficulty is one of simple/intermediate/advanced exactly when the caller gave one, and it is then the caller's; a missing or empty degree gives the grade profile's difficulty text |
| ContentPrompt.RemainingQuestionsPhrase | backend-kiddo-academy/src/content/content.service.ts:101 | the phrase is "aucune autre question" exactly when n <= 1; otherwise it ends in " autres questions" and the number in front reads back as n - 1 |
| ContentPrompt.ReadUserComplexity | backend-kiddo-academy/src/content/content.service.ts:73 | a caller's value is only read back from a text that ends with the " (user specified value)" marker |
| ContentPrompt.ReadCount | backend-kiddo-academy/src/content/content.service.ts:101 | a count is only read back from a text that ends with " autres questions" |
| ContentPrompt.OffsetOfPrefix | backend-kiddo-academy/src/content/content.service.ts:211 | the offset of an element in a join depends only on the elements before it |
| ContentPrompt.JoinLength | backend-kiddo-academy/src/content/content.service.ts:211 | the joined paragraphs are as long as the paragraphs plus one separator between each neighbouring pair |
| ContentPrompt.JoinElementAt | backend-kiddo-academy/src/content/content.service.ts:211 | the i-th paragraph occurs in the joined text, unchanged, at its offset |
| ContentPrompt.JoinSeparatorAfter | backend-kiddo-academy/src/content/content.service.ts:211 | exactly one "\n\n" separator lies between neighbouring paragraphs in the joined text |
| ContentPrompt.QuizPromptContents | backend-kiddo-academy/src/content/content.service.ts:210-240 | for a valid quiz request, the prompt carries every paragraph in order with blank-line separators, names the caller's complexity as the single digit in its scale description, and quotes the caller's difficulty |
| ResponseNormalizer.Normalize | backend-kiddo-academy/src/content/content.service.ts:147-154 | the cleaned text has no leading or trailing whitespace and is no longer than the reply |
| ResponseNormalizer.StripFences | backend-kiddo-academy/src/content/content.service.ts:148-153 | dropping the fences never lengthens the text |
| ResponseNormalizer.FencedReply | backend-kiddo-academy/src/content/content.service.ts:147-154 | "```json" + s + "```" normalises to trim(s) |
| ResponseNormalizer.UnfencedReply | backend-kiddo-academy/src/content/content.service.ts:147-154 | a reply that, once trimmed, neither starts with "```json" nor ends with "```" normalises to its trim |
| ResponseNormalizer.NormalizeIsSlice | backend-kiddo-academy/src/content/content.service.ts:147-154 | the cleaned text is a contiguous slice of the reply |
| ResponseNormalizer.StripFencesIsSlice | backend-kiddo-academy/src/content/content.service.ts:148-153 | dropping the fences leaves a contiguous slice |
| ResponseNormalizer.NormalizeNotIdempotent | backend-kiddo-academy/src/content/content.service.ts:147-154 | a second pass can change the result: "``````" becomes "```", which becomes "" |
| ResponseNormalizer.TwoFencesLoseOne | backend-kiddo-academy/src/content/content.service.ts:147-154 | "``````" normalises to "```" |
| ResponseNormalizer.OneFenceVanishes | backend-kiddo-academy/src/content/content.service.ts:147-154 | "```" normalises to "" |
| ResponseNormalizer.NormalizeStable | backend-kiddo-academy/src/content/content.service.ts:147-154 | a result that neither starts with "```json" nor ends with "```" is unchanged by a second pass |
| JsText.Trim | backend-kiddo-academy/src/content/content.service.ts:147 | `trim` leaves no whitespace at either end and never lengthens the text |
| JsText.TrimIsSlice | backend-kiddo-academy/src/content/content.service.ts:147 | the trimmed text is a slice whose surroundings are all whitespace |
| JsText.TrimOfTrimmed | backend-kiddo-academy/src/content/content.service.ts:154 | trimming text without surrounding whitespace changes nothing |
| JsText.TrimIdempotent | backend-kiddo-academy/src/content/content.service.ts:154 | trimming twice is trimming once |
| JsText.TrimEmptyIffAllWhitespace | backend-kiddo-academy/src/openai/openai.service.ts:14 | trim gives the empty string exactly when every character is whitespace |
| JsText.DecimalRoundTrip | backend-kiddo-academy/src/content/content.service.ts:73 | the decimal rendering of a number reads back as that number |
| JsText.NatToDecimalInjective | backend-kiddo-academy/src/content/content.service.ts:101 | different numbers render differently |
| PromptSanitizer.RemoveDisallowed | backend-kiddo-academy/src/openai/openai.service.ts:13 | every character kept is a letter, a digit, one of . , ! ? ' " ( ) or whitespace |
| PromptSanitizer.SliceTo | backend-kiddo-academy/src/openai/openai.service.ts:15 | `slice(0, n)` gives a prefix of at most n characters, and the whole text when it is short enough |
| PromptSanitizer.SanitizeBounds | backend-kiddo-academy/src/openai/openai.service.ts:11-16 | the output has at most 500 characters, all of them allowed, and does not start with whitespace |
| PromptSanitizer.SanitizeIsPrefix | backend-kiddo-academy/src/openai/openai.service.ts:12-15 | the output is a prefix of trim(filter(prompt)), equal to it when that has at most 500 characters and 500 characters long otherwise |
| PromptSanitizer.CleanPromptUnchanged | backend-kiddo-academy/src/openai/openai.service.ts:12-15 | an allowed, trimmed prompt of at most 500 characters is returned unchanged |
| PromptSanitizer.SanitizeNotIdempotent | backend-kiddo-academy/src/openai/openai.service.ts:14-15 | there is a prompt whose sanitised form still changes on a second pass, because the slice can end in whitespace |
| JsonValues.Prop | backend-kiddo-academy/src/content/content.service.ts:159-188 | a property read gives a value exactly when the value is an object holding the key, and then gives that field |
| ContentValidation.ItemErrorCharacterised | backend-kiddo-academy/src/content/content.service.ts:177-184 | an item passes exactly when it is an object with string question, type and correct_answer and, for multiple_choice, an options array of strings; only null throws the TypeError; only a multiple_choice item fails on its options |
| ContentValidation.RepairEffect | backend-kiddo-academy/src/content/content.service.ts:185-188 | the repair changes an item exactly when it is open_ended with an options field (null included), removes only that field, keeps every other field, does not change whether the item passes, and is idempotent |
| ContentValidation.RepairAll | backend-kiddo-academy/src/content/content.service.ts:176-189 | the repaired quiz has the same length and order, item i being item i repaired |
| ContentValidation.FirstInvalid | backend-kiddo-academy/src/content/content.service.ts:176-189 | the loop stops at the first rejected item: all before it pass, and the item there fails |
| ContentValidation.RepairQuizInPlace | backend-kiddo-academy/src/content/content.service.ts:176-189 | the in-place loop returns the first rejected item's error, with the items before it repaired and the rest untouched, or repairs every item in place |
| ContentValidation.ValidateGeneratedContent | backend-kiddo-academy/src/content/content.service.ts:159-191 | the full-content checks and repair over an array equal the functional specification, whatever count was requested |
| ContentValidation.ValidateGeneratedQuiz | backend-kiddo-academy/src/content/content.service.ts:280-301 | the quiz-only checks and repair over an array equal the functional specification |
| ContentValidation.ValidateItemsCharacterised | backend-kiddo-academy/src/content/content.service.ts:176-191 | the loop succeeds exactly when every item is acceptable and returns the items in order, each repaired; a failure is the error of an unacceptable item whose predecessors are all acceptable |
| ContentValidation.ValidatedItemsConform | backend-kiddo-academy/src/content/content.service.ts:176-191 | every returned item is acceptable, and no returned open_ended item has options |
| ContentValidation.ValidateItemsIdempotent | backend-kiddo-academy/src/content/content.service.ts:176-191 | validating the output again returns it unchanged |
| ContentValidation.ValidateContentCharacterised | backend-kiddo-academy/src/content/content.service.ts:159-191 | null throws on the first read; the title check fails exactly when the title is not a non-empty string; success means a non-empty title, a truthy story and an array quiz of acceptable items; the output is the reply with only quiz replaced by the repaired items |
| ContentValidation.ValidateContentIdempotent | backend-kiddo-academy/src/content/content.service.ts:159-191 | a validated reply validates again unchanged |
| ContentValidation.ValidateQuizCharacterised | backend-kiddo-academy/src/content/content.service.ts:280-301 | quiz-only validation fails with the not-an-array error exactly when the reply is not an array, and succeeds exactly when it is an array of acceptable items, returning them repaired |
| ContentValidation.FirstInvalidNeverNotArray | backend-kiddo-academy/src/content/content.service.ts:286-299 | the item loop never raises the not-an-array error |
| ContentValidation.WellFormedReplyUnchanged | backend-kiddo-academy/src/content/content.service.ts:159-191 | a well-formed reply with a multiple_choice question passes unchanged |
| ContentValidation.OpenEndedOptionsStripped | backend-kiddo-academy/src/content/content.service.ts:295-298 | an open_ended item with options passes with options removed |
| ContentValidation.MissingAnswerRejected | backend-kiddo-academy/src/content/content.service.ts:287-290 | an item without correct_answer is rejected as malformed |
| ContentValidation.MixedOptionsRejected | backend-kiddo-academy/src/content/content.service.ts:291-294 | a multiple_choice item with a number among its options is rejected |
| ContentValidation.ShortQuizAccepted | backend-kiddo-academy/src/content/content.service.ts:172-174 | a reply with four questions passes with exactly those four |
| ContentGeneration.GenerateContentOutcome | backend-kiddo-academy/src/content/content.service.ts:119-205 | content is returned exactly when the model replied, the normalised reply parsed and the value validated, and it is then the validated value; every failure is a 500 whose message is "Failed to generate content: " followed by the original message |
| ContentGeneration.GenerateQuizOutcome | backend-kiddo-academy/src/content/content.service.ts:209-314 | the same for the quiz-only entry point, with the "Failed to generate quiz: " prefix |
| ContentGeneration.FencedReplyAccepted | backend-kiddo-academy/src/content/content.service.ts:146-160 | a fenced reply reaches the parser as the trimmed text inside the fence |
| ObjectIds.ParseObjectId | backend-kiddo-academy/src/modules/story/story.service.ts:24 | a string denotes an id exactly when it has 24 hex digits, and the id is those digits in lower case |
| ObjectIds.ParseCanonical | backend-kiddo-academy/src/modules/story/story.service.ts:59 | an id's own text parses back to it |
| ObjectIds.ParseIgnoresCase | backend-kiddo-academy/src/modules/story/story.service.ts:28 | two valid strings denote the same id exactly when they agree up to letter case |
| StoryService.Status | backend-kiddo-academy/src/modules/story/story.service.ts:23-182 | every refusal is a 400, a 404 or a 500; it is a 500 exactly for the null paragraph's TypeError and a 404 exactly for the `NotFoundException`s (unknown responsable, unknown child, invalid or unlinked parent, missing profile); every other refusal is a 400 |
| StoryService.FirstBadParagraph | backend-kiddo-academy/src/modules/story/story.service.ts:39-43 | the loop stops at the first rejected paragraph: all before it pass |
| StoryService.CheckParagraphs | backend-kiddo-academy/src/modules/story/story.service.ts:39-43 | the paragraph loop returns the error of the first rejected paragraph, or none |
| StoryService.ParagraphsErrorCharacterised | backend-kiddo-academy/src/modules/story/story.service.ts:39-43 | the paragraphs pass exactly when each is an object with a truthy text; otherwise the first bad one decides: null gives the TypeError, anything else the 400 |
| StoryService.DefaultTitleRules | backend-kiddo-academy/src/modules/story/story.service.ts:46-54 | a truthy title is kept; a falsy title with a non-empty topic becomes "The Adventures of " + topic, from which the topic reads back; an empty topic leaves the title as it was; the result is truthy exactly when the title or the topic was; the rule is idempotent |
| StoryService.CreateStoryOutcome | backend-kiddo-academy/src/modules/story/story.service.ts:23-65 | create succeeds exactly when the caller's id is valid, names a user with a non-empty role, and the paragraphs are an array of acceptable paragraphs; the record is the DTO's fields with the default title, the caller as responsableId and the caller's role as userRole, whatever the DTO claimed for those |
| StoryService.CreateChecksCallerFirst | backend-kiddo-academy/src/modules/story/story.service.ts:24-34 | with a bad id, an unknown user or a missing role, create fails whatever the DTO holds, and in the same way |
| StoryService.StoryStore.Create | backend-kiddo-academy/src/modules/story/story.service.ts:23-65 | the result is the specification's; on success the record is appended to the stories, on failure nothing is stored; no other collection changes |
| StoryService.ResolveParent | backend-kiddo-academy/src/modules/story/story.service.ts:127-149 | a parent's child resolves exactly when a parent-role user exists, is linked to an establishment and that profile exists; the answer is the profile's userId; every failure is a 404 |
| StoryService.ResolveRoles | backend-kiddo-academy/src/modules/story/story.service.ts:123-154 | an establishment's child resolves to its responsable; any role other than etablissement or parent is the unsupported-role 400 |
| StoryService.TeacherIds | backend-kiddo-academy/src/modules/story/story.service.ts:169 | the id list holds each teacher's userId, in order |
| StoryService.StoriesOfMembership | backend-kiddo-academy/src/modules/story/story.service.ts:158-178 | a story is returned exactly when it is stored, a teacher's, of the requested level and by a teacher of the establishment; no such teacher means an empty result |
| StoryService.StoriesForChildErrors | backend-kiddo-academy/src/modules/story/story.service.ts:98-154 | the failures come in order: malformed id (exactly then), unknown child (exactly then), a child without level, then the role resolution; the two versions of the query fail alike |
| StoryService.StoriesForChildContents | backend-kiddo-academy/src/modules/story/story.service.ts:158-181 | the stories returned are exactly the teacher stories of the child's level by teachers of the resolved establishment |
| StoryService.AsWrittenContents | backend-kiddo-academy/src/modules/story/story.service.ts:158-181 | as written, the stories returned are exactly the teacher stories of the child's level by teachers whose `idResponsable` is the child's own `responsableId` |
| StoryService.StoryStore.GetStoriesForChildsEtablissement | backend-kiddo-academy/src/modules/story/story.service.ts:95-182 | the method gives the as-written result: the same errors, in order, and the stories of the teachers found by the child's `responsableId` |
| StoryService.AsWrittenAgreesForEtablissementChild | backend-kiddo-academy/src/modules/story/story.service.ts:123-126 | for an establishment's child the code as written and the corrected query agree |
| StoryService.AsWrittenParentChildSeesNothing | backend-kiddo-academy/src/modules/story/story.service.ts:158-166 | as written, when teachers only belong to establishment users, a parent's child is always given an empty list |
| StoryService.ParentChildCounterexample | backend-kiddo-academy/src/modules/story/story.service.ts:148-178 | on concrete tables the code as written returns [] where the corrected query returns the school's story |

## Left out

- The Gemini call, its generation configuration and safety settings. The reply is a parameter, either text or a failure message.
- `JSON.parse`. It is a parameter that gives a value or a SyntaxError message.
- The template prose of both prompts. The prompt is represented by the values it interpolates.
- Logging, including the question-count warning. It has no effect on results; `ValidateGeneratedContent` takes the requested count and ignores it.
- The checks that decide which extra line to log in the `catch` blocks (`JSON.parse` in the message, prompt feedback). They only decide what is logged.
- JSON numbers are reals. The only test applied to them is truthiness.
- The order of keys in objects. Objects are maps.
- Strings are sequences of Unicode scalar values, not UTF-16 code units. After the filter only ASCII characters and ECMAScript whitespace remain, and all of that whitespace lies in the Basic Multilingual Plane, so the difference never reaches the 500-character slice.
- ContentPrompt.ComplexityChoice: the read-back covers non-negative levels only. A negative level renders with a minus sign, and the DTO allows only 1 to 5.
- The Mongoose schema casting and defaults: `_id` generation, `timestamps`, and the casting of paragraph fields to the Paragraph schema. The stored record keeps the paragraphs as given.
- `createdStory.save()` failing. Storage is an append to the story table.
- StoryService.StoryStore.Create: the in-place assignment of `createStoryDto.titleStory` is modelled as a new value in the record. The caller never reads the DTO again.
- `Types.ObjectId.isValid` also accepts 12-character strings in older versions of the bson library. The model accepts 24 hex digits only, as current versions do.
- A user's `role` that is present but not a string is represented like a missing role. The check rejects both the same way.
- `findAll`, `findOne`, `update`, `delete`, `generateForStory`, image generation, translation, controllers and guards. They are database or HTTP plumbing.
- Concurrency between requests. Every call is sequential here.

## Findings

| source | as written | input that shows it | evidently intended | confidence | as-written member | corrected member |
|---|---|---|---|---|---|---|
| backend-kiddo-academy/src/modules/story/story.service.ts:158-160 | the teacher query filters on `child.responsableId`, not on the establishment id resolved at lines 123-149, which is computed and never used | a grade-4 child whose responsable is a parent linked to a school with one teacher who wrote a grade-4 story: the child gets [] | list the stories of the teachers of the resolved establishment, as the comments at lines 122 and 156-157 say | medium, not executed | StoryService.StoriesForChildAsWritten (StoryService.AsWrittenContents, StoryService.AsWrittenParentChildSeesNothing, StoryService.ParentChildCounterexample; the store method StoryService.StoryStore.GetStoriesForChildsEtablissement returns it) | StoryService.StoriesForChild (StoryService.StoriesForChildContents) |
