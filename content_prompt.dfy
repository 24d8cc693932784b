/** The decision logic of `buildPrompt` and of the quiz-only prompt in
    `generateOnlyQuiz` (content.service.ts): which descriptions are chosen for a
    grade, when the caller's values replace them, and the phrase that says how
    many more questions to add. The French and English prose around these values
    is fixed text and is not modelled; a prompt is represented by the values it
    interpolates. */
module ContentPrompt {
  import opened Wrappers
  import opened JsText

  /** `CreateContentDto`. */
  datatype ContentRequest = ContentRequest(
    gradeLevel: int,
    unitNumber: int,
    lessonNumber: int,
    storyTopic: string,
    complexityLevel: Option<int>,
    difficultyDegree: Option<string>,
    numberOfStoryParagraphs: int,
    numberOfQuizQuestions: int)

  const DifficultyDegrees: set<string> := {"simple", "intermediate", "advanced"}

  /** The class-validator ranges of `CreateContentDto`, checked before the
      service is called. */
  predicate ValidContentRequest(r: ContentRequest) {
    4 <= r.gradeLevel <= 6 && 1 <= r.unitNumber <= 7 && 1 <= r.lessonNumber <= 5 &&
    r.storyTopic != "" &&
    (r.complexityLevel.Some? ==> 1 <= r.complexityLevel.value <= 5) &&
    (r.difficultyDegree.Some? ==> r.difficultyDegree.value in DifficultyDegrees) &&
    1 <= r.numberOfStoryParagraphs <= 10 && 1 <= r.numberOfQuizQuestions <= 10
  }

  /** The four descriptions the grade switch assigns. */
  datatype GradeProfile = GradeProfile(
    complexity: string,
    difficulty: string,
    expectedParagraphs: string,
    expectedQuestions: string)

  const Grade4: GradeProfile := GradeProfile(
    "very simple, suitable for 4th graders (ages 9-10). Use basic sentence structures.",
    "simple English vocabulary and grammar, avoiding complex idioms.",
    "around 2-3 paragraphs",
    "around 3-5 questions")

  const Grade5: GradeProfile := GradeProfile(
    "simple to intermediate, suitable for 5th graders (ages 10-11). Use clear and mostly simple sentences.",
    "intermediate English vocabulary and grammar, may include very common simple phrasal verbs.",
    "around 3-5 paragraphs",
    "around 4-6 questions")

  const Grade6: GradeProfile := GradeProfile(
    "intermediate to slightly complex, suitable for 6th graders (ages 11-12). Can use slightly more varied sentence structures.",
    "advanced English vocabulary and grammar for primary level, possibly including some common idioms.",
    "around 4-7 paragraphs",
    "around 5-8 questions")

  const DefaultGrade: GradeProfile := GradeProfile(
    "general complexity",
    "general difficulty",
    "a reasonable number of paragraphs",
    "a reasonable number of questions")

  /** The `switch (dto.gradeLevel)`; grades other than 4, 5 and 6 fall through to
      the default without an error. */
  function GradeProfileFor(grade: int): GradeProfile {
    match grade
    case 4 => Grade4
    case 5 => Grade5
    case 6 => Grade6
    case _ => DefaultGrade
  }

  const UserSpecifiedSuffix := " (user specified value)"

  /** The complexity text: a non-zero caller level written in decimal and marked
      as user specified, otherwise the grade profile's description. */
  function FinalComplexity(req: ContentRequest): string {
    if req.complexityLevel.Some? && req.complexityLevel.value != 0
    then IntToDecimal(req.complexityLevel.value) + UserSpecifiedSuffix
    else GradeProfileFor(req.gradeLevel).complexity
  }

  /** The difficulty text: the caller's degree when it is a non-empty string,
      otherwise the grade profile's description. */
  function FinalDifficulty(req: ContentRequest): string {
    if req.difficultyDegree.Some? && req.difficultyDegree.value != ""
    then req.difficultyDegree.value
    else GradeProfileFor(req.gradeLevel).difficulty
  }

  const NoOtherQuestion := "aucune autre question"
  const OtherQuestionsSuffix := " autres questions"

  /** The phrase for the questions after the first: their number followed by
      the plural suffix when there is at least one, the "none" phrase otherwise;
      used by both prompts. */
  function RemainingQuestions(n: int): string {
    if n - 1 > 0 then IntToDecimal(n - 1) + OtherQuestionsSuffix else NoOtherQuestion
  }

  /** The values the story prompt interpolates into its template. */
  datatype StoryPrompt = StoryPrompt(
    gradeLevel: int,
    unitNumber: int,
    lessonNumber: int,
    storyTopic: string,
    complexity: string,
    difficulty: string,
    paragraphCount: int,
    expectedParagraphs: string,
    questionCount: int,
    expectedQuestions: string,
    remainingQuestions: string)

  /** `buildPrompt`. */
  function BuildPrompt(req: ContentRequest): StoryPrompt {
    var profile := GradeProfileFor(req.gradeLevel);
    StoryPrompt(
      req.gradeLevel, req.unitNumber, req.lessonNumber, req.storyTopic,
      FinalComplexity(req), FinalDifficulty(req),
      req.numberOfStoryParagraphs, profile.expectedParagraphs,
      req.numberOfQuizQuestions, profile.expectedQuestions,
      RemainingQuestions(req.numberOfQuizQuestions))
  }

  /** Grades 4, 5 and 6 each get their own descriptions, all four of them
      different from the other grades'; every other grade gets the defaults. */
  lemma GradeSelection(grade: int)
    ensures grade == 4 ==> GradeProfileFor(grade) == Grade4
    ensures grade == 5 ==> GradeProfileFor(grade) == Grade5
    ensures grade == 6 ==> GradeProfileFor(grade) == Grade6
    ensures GradeProfileFor(grade) == DefaultGrade <==> grade !in {4, 5, 6}
    ensures 4 <= grade <= 6 ==> forall other: int :: other != grade ==>
              GradeProfileFor(other).complexity != GradeProfileFor(grade).complexity &&
              GradeProfileFor(other).difficulty != GradeProfileFor(grade).difficulty &&
              GradeProfileFor(other).expectedParagraphs != GradeProfileFor(grade).expectedParagraphs &&
              GradeProfileFor(other).expectedQuestions != GradeProfileFor(grade).expectedQuestions
  {
  }

  /** Reads the caller's complexity level back out of a complexity text: the
      digits in front of " (user specified value)", if there are any. Leading
      zeros are accepted ("05 ..." reads as 5), so this is an inverse of
      `FinalComplexity` on its image only, not on all strings. */
  function ReadUserComplexity(text: string): (r: Option<nat>)
    ensures r.Some? ==> EndsWith(text, UserSpecifiedSuffix)
  {
    var n := |text| - |UserSpecifiedSuffix|;
    if n > 0 && EndsWith(text, UserSpecifiedSuffix) && forall i :: 0 <= i < n ==> IsDigit(text[i])
    then Some(DecimalValue(text[..n]))
    else None
  }

  /** A truthy complexity level is carried into the prompt and can be read back
      from it; otherwise the grade's description is used, and it does not look
      like a caller's value. */
  lemma ComplexityChoice(req: ContentRequest)
    requires req.complexityLevel.Some? ==> req.complexityLevel.value >= 0
    ensures ReadUserComplexity(FinalComplexity(req)) ==
              if req.complexityLevel.Some? && req.complexityLevel.value != 0
              then Some(req.complexityLevel.value as nat) else None
    ensures ReadUserComplexity(FinalComplexity(req)).None? ==>
              FinalComplexity(req) == GradeProfileFor(req.gradeLevel).complexity
  {
    var text := FinalComplexity(req);
    if req.complexityLevel.Some? && req.complexityLevel.value != 0 {
      var c: nat := req.complexityLevel.value;
      var digits := NatToDecimal(c);
      assert text == digits + UserSpecifiedSuffix;
      assert text[..|digits|] == digits;
      assert text[|text| - |UserSpecifiedSuffix|..] == UserSpecifiedSuffix;
      DecimalRoundTrip(c);
    } else {
      var profile := GradeProfileFor(req.gradeLevel);
      assert profile in {Grade4, Grade5, Grade6, DefaultGrade};
      assert text[|text| - 1] != ')';
      assert !EndsWith(text, UserSpecifiedSuffix);
    }
  }

  /** For a request within the DTO's ranges, the difficulty in the prompt is one
      of the three allowed degrees exactly when the caller gave one, and then it
      is the caller's. */
  lemma DifficultyChoice(req: ContentRequest)
    requires ValidContentRequest(req)
    ensures FinalDifficulty(req) in DifficultyDegrees <==> req.difficultyDegree.Some?
    ensures req.difficultyDegree.Some? ==> FinalDifficulty(req) == req.difficultyDegree.value
    ensures (req.difficultyDegree.None? || req.difficultyDegree.value == "") ==>
              FinalDifficulty(req) == GradeProfileFor(req.gradeLevel).difficulty
  {
  }

  /** The "more questions" phrase names `n - 1` exactly when that is positive. */
  lemma RemainingQuestionsPhrase(n: int)
    ensures RemainingQuestions(n) == NoOtherQuestion <==> n <= 1
    ensures n >= 2 ==> EndsWith(RemainingQuestions(n), OtherQuestionsSuffix)
    ensures n >= 2 ==> ReadCount(RemainingQuestions(n)) == Some(n - 1)
  {
    if n >= 2 {
      var r := RemainingQuestions(n);
      var digits := NatToDecimal(n - 1);
      assert r == digits + OtherQuestionsSuffix;
      assert r[0] != NoOtherQuestion[0];
      assert r[..|digits|] == digits;
      assert r[|r| - |OtherQuestionsSuffix|..] == OtherQuestionsSuffix;
      DecimalRoundTrip(n - 1);
    }
  }

  /** The count in front of " autres questions", if there is one. */
  function ReadCount(text: string): (r: Option<nat>)
    ensures r.Some? ==> EndsWith(text, OtherQuestionsSuffix)
  {
    var n := |text| - |OtherQuestionsSuffix|;
    if n > 0 && EndsWith(text, OtherQuestionsSuffix) && forall i :: 0 <= i < n ==> IsDigit(text[i])
    then Some(DecimalValue(text[..n]))
    else None
  }

  /** `GenerateQuizRequestDto`. */
  datatype QuizRequest = QuizRequest(
    paragraphs: seq<string>,
    topic: string,
    gradeLevel: int,
    complexity: int,
    difficulty: string,
    numberOfQuestions: int)

  predicate ValidQuizRequest(r: QuizRequest) {
    (forall i :: 0 <= i < |r.paragraphs| ==> r.paragraphs[i] != "") &&
    r.topic != "" && 4 <= r.gradeLevel <= 6 && 1 <= r.complexity <= 5 &&
    r.difficulty in DifficultyDegrees && 1 <= r.numberOfQuestions <= 10
  }

  const ParagraphSeparator := "\n\n"

  /** `Array.prototype.join`: the elements with `sep` between neighbours. */
  function Join(ps: seq<string>, sep: string): string
    decreases |ps|
  {
    if |ps| == 0 then ""
    else if |ps| == 1 then ps[0]
    else Join(ps[..|ps| - 1], sep) + sep + ps[|ps| - 1]
  }

  /** Where the `i`-th element starts in the joined text: the lengths of the
      elements before it, each followed by a separator. */
  function Offset(ps: seq<string>, sep: string, i: nat): nat
    requires i <= |ps|
  {
    if i == 0 then 0 else Offset(ps, sep, i - 1) + |ps[i - 1]| + |sep|
  }

  lemma {:induction false} OffsetOfPrefix(ps: seq<string>, qs: seq<string>, sep: string, i: nat)
    requires i <= |ps| <= |qs| && ps == qs[..|ps|]
    ensures Offset(ps, sep, i) == Offset(qs, sep, i)
  {
    if i > 0 {
      OffsetOfPrefix(ps, qs, sep, i - 1);
      assert ps[i - 1] == qs[i - 1];
    }
  }

  /** The joined text is as long as the elements and the separators between them. */
  lemma {:induction false} JoinLength(ps: seq<string>, sep: string)
    requires |ps| > 0
    ensures |Join(ps, sep)| + |sep| == Offset(ps, sep, |ps|)
    decreases |ps|
  {
    if |ps| > 1 {
      var init := ps[..|ps| - 1];
      JoinLength(init, sep);
      OffsetOfPrefix(init, ps, sep, |init|);
    }
  }

  /** The `i`-th element appears in the joined text at `Offset(ps, sep, i)`. */
  lemma {:induction false} JoinElementAt(ps: seq<string>, sep: string, i: nat)
    requires i < |ps|
    ensures Offset(ps, sep, i) + |ps[i]| <= |Join(ps, sep)|
    ensures Join(ps, sep)[Offset(ps, sep, i)..Offset(ps, sep, i) + |ps[i]|] == ps[i]
    decreases |ps|
  {
    if |ps| > 1 {
      var init := ps[..|ps| - 1];
      var prefix := Join(init, sep);
      var joined := Join(ps, sep);
      assert joined == prefix + sep + ps[|ps| - 1];
      if i == |ps| - 1 {
        JoinLength(init, sep);
        OffsetOfPrefix(init, ps, sep, |init|);
        assert joined[|prefix| + |sep|..] == ps[i];
      } else {
        JoinElementAt(init, sep, i);
        OffsetOfPrefix(init, ps, sep, i);
        var a := Offset(ps, sep, i);
        assert joined[a..a + |ps[i]|] == prefix[a..a + |ps[i]|];
      }
    }
  }

  /** Between the `i`-th element and the next, the joined text holds exactly one
      separator. */
  lemma {:induction false} JoinSeparatorAfter(ps: seq<string>, sep: string, i: nat)
    requires i + 1 < |ps|
    ensures Offset(ps, sep, i + 1) <= |Join(ps, sep)|
    ensures Join(ps, sep)[Offset(ps, sep, i) + |ps[i]|..Offset(ps, sep, i + 1)] == sep
    decreases |ps|
  {
    var init := ps[..|ps| - 1];
    var prefix := Join(init, sep);
    var joined := Join(ps, sep);
    assert joined == prefix + sep + ps[|ps| - 1];
    var a := Offset(ps, sep, i) + |ps[i]|;
    if i + 1 == |ps| - 1 {
      JoinLength(init, sep);
      OffsetOfPrefix(init, ps, sep, |init|);
      assert joined[|prefix|..|prefix| + |sep|] == sep;
    } else {
      JoinSeparatorAfter(init, sep, i);
      OffsetOfPrefix(init, ps, sep, i + 1);
      assert joined[a..a + |sep|] == prefix[a..a + |sep|];
    }
  }

  /** The values the quiz-only prompt interpolates into its template. */
  datatype QuizPrompt = QuizPrompt(
    paragraphsText: string,
    topic: string,
    gradeLevel: int,
    complexity: string,
    complexityDescription: string,
    difficulty: string,
    difficultyDescription: string,
    questionCount: int,
    remainingQuestions: string)

  const ScalePrefix := "(on a scale of 1-5, "
  const ScaleSuffix := " being the complexity for this quiz)"
  const ExamplePrefix := "(e.g., '"
  const ExampleSuffix := "' vocabulary and grammar)"

  /** The prompt of `generateOnlyQuiz`. */
  function BuildQuizPrompt(req: QuizRequest): QuizPrompt {
    QuizPrompt(
      Join(req.paragraphs, ParagraphSeparator),
      req.topic,
      req.gradeLevel,
      IntToDecimal(req.complexity),
      ScalePrefix + IntToDecimal(req.complexity) + ScaleSuffix,
      req.difficulty,
      ExamplePrefix + req.difficulty + ExampleSuffix,
      req.numberOfQuestions,
      RemainingQuestions(req.numberOfQuestions))
  }

  /** The quiz prompt carries every paragraph, in order and separated by one
      blank line, names the caller's complexity as a single digit inside its
      scale description, and quotes the caller's difficulty degree. */
  lemma QuizPromptContents(req: QuizRequest, i: nat)
    requires ValidQuizRequest(req)
    requires i < |req.paragraphs|
    ensures var text := BuildQuizPrompt(req).paragraphsText;
            var o := Offset(req.paragraphs, ParagraphSeparator, i);
            o + |req.paragraphs[i]| <= |text| &&
            text[o..o + |req.paragraphs[i]|] == req.paragraphs[i] &&
            (i + 1 < |req.paragraphs| ==>
               Offset(req.paragraphs, ParagraphSeparator, i + 1) <= |text| &&
               text[o + |req.paragraphs[i]|..Offset(req.paragraphs, ParagraphSeparator, i + 1)] == ParagraphSeparator)
    ensures var d := BuildQuizPrompt(req).complexityDescription;
            |d| > |ScalePrefix| && IsDigit(d[|ScalePrefix|]) && DigitValue(d[|ScalePrefix|]) == req.complexity
    ensures var d := BuildQuizPrompt(req).difficultyDescription;
            d[|ExamplePrefix|..|ExamplePrefix| + |req.difficulty|] == req.difficulty
  {
    JoinElementAt(req.paragraphs, ParagraphSeparator, i);
    if i + 1 < |req.paragraphs| {
      JoinSeparatorAfter(req.paragraphs, ParagraphSeparator, i);
    }
    SingleDigit(req.complexity);
    var d := BuildQuizPrompt(req).complexityDescription;
    assert d[|ScalePrefix|] == DigitChar(req.complexity);
    var e := BuildQuizPrompt(req).difficultyDescription;
    assert e[|ExamplePrefix|..|ExamplePrefix| + |req.difficulty|] == req.difficulty;
  }
}
