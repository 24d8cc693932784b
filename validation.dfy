/** The structural checks `generateContent` and `generateOnlyQuiz`
    (content.service.ts) apply to a parsed model reply, and the one repair they
    make: an `open_ended` question loses an `options` field it should not have. */
module ContentValidation {
  import opened Wrappers
  import opened JsonValues

  /** Why a reply is rejected; each kind is one `throw` of the validators. A
      property read on `null` throws a TypeError before any check of its own. */
  datatype ValidationError =
    | InvalidTitle
    | MissingStoryOrQuiz
    | QuizNotArray
    | ReplyNotArray
    | InvalidQuestion
    | InvalidOptions
    | NullDereference(key: string)

  /** The message of the error each kind throws. */
  function ErrorMessage(e: ValidationError): string {
    match e
    case InvalidTitle => "Invalid JSON structure received from AI: Missing or invalid titleStory."
    case MissingStoryOrQuiz => "Invalid JSON structure received from AI."
    case QuizNotArray => "Invalid JSON structure: quiz is not an array."
    case ReplyNotArray => "Invalid JSON structure received from AI: quiz is not an array."
    case InvalidQuestion => "Invalid quiz question structure from AI."
    case InvalidOptions => "Invalid multiple_choice question options from AI."
    case NullDereference(key) => "Cannot read properties of null (reading '" + key + "')"
  }

  /** The checks of one quiz item, in the order the loop body makes them; None
      when the item passes. */
  function ItemError(q: Json): Option<ValidationError> {
    if q.JNull? then Some(NullDereference("question"))
    else if !(IsStringProp(q, "question") && IsStringProp(q, "type") && IsStringProp(q, "correct_answer"))
    then Some(InvalidQuestion)
    else if PropIs(q, "type", "multiple_choice") && !IsStringArrayProp(q, "options")
    then Some(InvalidOptions)
    else None
  }

  /** What an acceptable quiz item is, stated on the object's fields: an object
      with string `question`, `type` and `correct_answer`, and, for a
      `multiple_choice` item, an `options` array of strings. */
  predicate AcceptedItem(q: Json) {
    q.JObj? &&
    "question" in q.fields && q.fields["question"].JStr? &&
    "type" in q.fields && q.fields["type"].JStr? &&
    "correct_answer" in q.fields && q.fields["correct_answer"].JStr? &&
    (q.fields["type"] == JStr("multiple_choice") ==>
       "options" in q.fields && q.fields["options"].JArr? &&
       forall i :: 0 <= i < |q.fields["options"].items| ==> q.fields["options"].items[i].JStr?)
  }

  /** `delete q.options` for an `open_ended` item that has the field, whatever
      its value (`null` included); every other item is left as it is. */
  function Repair(q: Json): Json {
    if q.JObj? && PropIs(q, "type", "open_ended") && "options" in q.fields
    then JObj(q.fields - {"options"})
    else q
  }

  function RepairAll(items: seq<Json>): (r: seq<Json>)
    ensures |r| == |items|
    ensures forall i :: 0 <= i < |items| ==> r[i] == Repair(items[i])
  {
    seq(|items|, i requires 0 <= i < |items| => Repair(items[i]))
  }

  /** The index of the first item the loop rejects, or `|items|` when there is
      none. */
  function FirstInvalid(items: seq<Json>): (r: nat)
    ensures r <= |items|
    ensures forall k :: 0 <= k < r ==> ItemError(items[k]).None?
    ensures r < |items| ==> ItemError(items[r]).Some?
  {
    if |items| == 0 then 0
    else if ItemError(items[0]).Some? then 0
    else 1 + FirstInvalid(items[1..])
  }

  /** The `for (const q of …)` loop: the error of the first rejected item, or
      every item repaired. */
  function ValidateItems(items: seq<Json>): Result<seq<Json>, ValidationError> {
    var k := FirstInvalid(items);
    if k < |items| then Err(ItemError(items[k]).value) else Ok(RepairAll(items))
  }

  /** The checks of `generateContent` on the parsed reply. On success the reply
      is returned with its `quiz` items repaired; the question count is only
      logged, so it plays no part. */
  function ValidateContent(parsed: Json): Result<Json, ValidationError> {
    if parsed.JNull? then Err(NullDereference("titleStory"))
    else
      var title := Prop(parsed, "titleStory");
      if !(title.Some? && IsNonEmptyString(title.value)) then Err(InvalidTitle)
      else if !TruthyOpt(Prop(parsed, "story")) || !TruthyOpt(Prop(parsed, "quiz")) then Err(MissingStoryOrQuiz)
      else
        var quiz := parsed.fields["quiz"];
        if !quiz.JArr? then Err(QuizNotArray)
        else match ValidateItems(quiz.items)
          case Err(e) => Err(e)
          case Ok(repaired) => Ok(JObj(parsed.fields["quiz" := JArr(repaired)]))
  }

  /** The checks of `generateOnlyQuiz` on the parsed reply. */
  function ValidateQuiz(parsed: Json): Result<seq<Json>, ValidationError> {
    if !parsed.JArr? then Err(ReplyNotArray) else ValidateItems(parsed.items)
  }

  /** The validation loop as the source runs it: item by item, repairing in
      place, stopping at the first rejected item with the items before it
      already repaired. */
  method RepairQuizInPlace(quiz: array<Json>) returns (err: Option<ValidationError>)
    modifies quiz
    ensures var k := FirstInvalid(old(quiz[..]));
            (err.None? <==> k == quiz.Length) &&
            (err.Some? ==> err.value == ItemError(old(quiz[..])[k]).value &&
                           quiz[..] == RepairAll(old(quiz[..])[..k]) + old(quiz[..])[k..]) &&
            (err.None? ==> quiz[..] == RepairAll(old(quiz[..])))
  {
    ghost var original := quiz[..];
    var i := 0;
    while i < quiz.Length
      invariant 0 <= i <= quiz.Length
      invariant forall k :: 0 <= k < i ==> ItemError(original[k]).None?
      invariant forall k :: 0 <= k < i ==> quiz[k] == Repair(original[k])
      invariant forall k :: i <= k < quiz.Length ==> quiz[k] == original[k]
    {
      var e := ItemError(quiz[i]);
      if e.Some? {
        assert FirstInvalid(original) == i;
        assert quiz[..] == RepairAll(original[..i]) + original[i..];
        return Some(e.value);
      }
      quiz[i] := Repair(quiz[i]);
      i := i + 1;
    }
    assert quiz[..] == RepairAll(original);
    return None;
  }

  /** `generateContent`'s validation of a parsed reply. `requestedQuestions` is
      only compared with the quiz length for a log line. */
  method ValidateGeneratedContent(parsed: Json, requestedQuestions: int) returns (r: Result<Json, ValidationError>)
    ensures r == ValidateContent(parsed)
  {
    if parsed.JNull? {
      return Err(NullDereference("titleStory"));
    }
    var title := Prop(parsed, "titleStory");
    if !(title.Some? && IsNonEmptyString(title.value)) {
      return Err(InvalidTitle);
    }
    if !TruthyOpt(Prop(parsed, "story")) || !TruthyOpt(Prop(parsed, "quiz")) {
      return Err(MissingStoryOrQuiz);
    }
    var quiz := parsed.fields["quiz"];
    if !quiz.JArr? {
      return Err(QuizNotArray);
    }
    var items := new Json[|quiz.items|](i requires 0 <= i < |quiz.items| => quiz.items[i]);
    assert items[..] == quiz.items;
    var err := RepairQuizInPlace(items);
    if err.Some? {
      return Err(err.value);
    }
    return Ok(JObj(parsed.fields["quiz" := JArr(items[..])]));
  }

  /** `generateOnlyQuiz`'s validation of a parsed reply. */
  method ValidateGeneratedQuiz(parsed: Json) returns (r: Result<seq<Json>, ValidationError>)
    ensures r == ValidateQuiz(parsed)
  {
    if !parsed.JArr? {
      return Err(ReplyNotArray);
    }
    var items := new Json[|parsed.items|](i requires 0 <= i < |parsed.items| => parsed.items[i]);
    assert items[..] == parsed.items;
    var err := RepairQuizInPlace(items);
    if err.Some? {
      return Err(err.value);
    }
    return Ok(items[..]);
  }

  /** An item passes the loop exactly when it is acceptable; `null` is the only
      item on which the loop itself throws a TypeError, and only a
      `multiple_choice` item is rejected for its options. */
  lemma ItemErrorCharacterised(q: Json)
    ensures ItemError(q).None? <==> AcceptedItem(q)
    ensures ItemError(q) == Some(NullDereference("question")) <==> q.JNull?
    ensures ItemError(q) == Some(InvalidOptions) ==> q.JObj? && q.fields["type"] == JStr("multiple_choice")
    ensures ItemError(q).Some? ==> ItemError(q).value in {NullDereference("question"), InvalidQuestion, InvalidOptions}
  {
  }

  /** The repair removes `options` from an open-ended item that has it and
      changes nothing else: no other field, no other item. It does not change
      whether the item passes, and a repaired item needs no further repair. */
  lemma RepairEffect(q: Json)
    ensures Repair(q).JObj? <==> q.JObj?
    ensures q.JObj? ==> forall k :: k in q.fields && k != "options" ==>
              k in Repair(q).fields && Repair(q).fields[k] == q.fields[k]
    ensures q.JObj? ==> Repair(q).fields.Keys <= q.fields.Keys
    ensures Repair(q) != q <==> q.JObj? && PropIs(q, "type", "open_ended") && "options" in q.fields
    ensures PropIs(q, "type", "open_ended") ==> "options" !in Repair(q).fields
    ensures ItemError(Repair(q)) == ItemError(q)
    ensures Repair(Repair(q)) == Repair(q)
  {
  }

  /** The loop succeeds exactly when every item is acceptable, and then returns
      as many items as it was given, in the same order, each repaired; when it
      fails, it is with the error of an item all of whose predecessors are
      acceptable. */
  lemma ValidateItemsCharacterised(items: seq<Json>)
    ensures ValidateItems(items).Ok? <==> forall i :: 0 <= i < |items| ==> AcceptedItem(items[i])
    ensures ValidateItems(items).Ok? ==>
              |ValidateItems(items).value| == |items| &&
              forall i :: 0 <= i < |items| ==> ValidateItems(items).value[i] == Repair(items[i])
    ensures ValidateItems(items).Err? ==>
              exists k :: 0 <= k < |items| && ItemError(items[k]) == Some(ValidateItems(items).error) &&
                forall j :: 0 <= j < k ==> AcceptedItem(items[j])
  {
  }

  /** Every item the loop returns is acceptable, and no returned `open_ended`
      item has `options`. */
  lemma ValidatedItemsConform(items: seq<Json>)
    requires ValidateItems(items).Ok?
    ensures forall i :: 0 <= i < |ValidateItems(items).value| ==>
              var q := ValidateItems(items).value[i];
              AcceptedItem(q) && (q.fields["type"] == JStr("open_ended") ==> "options" !in q.fields)
  {
  }

  /** Validating the loop's own output again accepts it unchanged. */
  lemma ValidateItemsIdempotent(items: seq<Json>)
    requires ValidateItems(items).Ok?
    ensures ValidateItems(ValidateItems(items).value) == ValidateItems(items)
  {
    var out := ValidateItems(items).value;
    ValidateItemsCharacterised(items);
    forall i | 0 <= i < |items|
      ensures AcceptedItem(out[i]) && Repair(out[i]) == out[i]
    {
      ItemErrorCharacterised(items[i]);
      RepairEffect(items[i]);
      ItemErrorCharacterised(out[i]);
    }
    ValidateItemsCharacterised(out);
    assert RepairAll(out) == out;
  }

  /** The full-content checks, in order: a `null` reply throws on the first
      read; the title must be a non-empty string; `story` and `quiz` must be
      truthy; `quiz` must be an array; then the items are checked. A reply that
      passes comes back with only its `quiz` replaced by the repaired items. */
  lemma ValidateContentCharacterised(parsed: Json)
    ensures ValidateContent(parsed) == Err(NullDereference("titleStory")) <==> parsed.JNull?
    ensures ValidateContent(parsed) == Err(InvalidTitle) <==>
              !parsed.JNull? && !(parsed.JObj? && "titleStory" in parsed.fields && IsNonEmptyString(parsed.fields["titleStory"]))
    ensures ValidateContent(parsed).Ok? <==>
              parsed.JObj? &&
              "titleStory" in parsed.fields && IsNonEmptyString(parsed.fields["titleStory"]) &&
              "story" in parsed.fields && Truthy(parsed.fields["story"]) &&
              "quiz" in parsed.fields && parsed.fields["quiz"].JArr? &&
              forall i :: 0 <= i < |parsed.fields["quiz"].items| ==> AcceptedItem(parsed.fields["quiz"].items[i])
    ensures ValidateContent(parsed).Ok? ==>
              var out := ValidateContent(parsed).value;
              out.JObj? && out.fields.Keys == parsed.fields.Keys &&
              (forall k :: k in parsed.fields && k != "quiz" ==> out.fields[k] == parsed.fields[k]) &&
              out.fields["quiz"] == JArr(RepairAll(parsed.fields["quiz"].items))
  {
  }

  /** A validated reply passes validation again, unchanged. */
  lemma ValidateContentIdempotent(parsed: Json)
    requires ValidateContent(parsed).Ok?
    ensures ValidateContent(ValidateContent(parsed).value) == ValidateContent(parsed)
  {
    var out := ValidateContent(parsed).value;
    ValidateContentCharacterised(parsed);
    ValidateItemsIdempotent(parsed.fields["quiz"].items);
    assert out.fields["quiz" := JArr(ValidateItems(parsed.fields["quiz"].items).value)] == out.fields;
  }

  /** The quiz-only checks: the reply must be an array, then the items are
      checked as in the full-content case. */
  lemma ValidateQuizCharacterised(parsed: Json)
    ensures ValidateQuiz(parsed) == Err(ReplyNotArray) <==> !parsed.JArr?
    ensures ValidateQuiz(parsed).Ok? <==>
              parsed.JArr? && forall i :: 0 <= i < |parsed.items| ==> AcceptedItem(parsed.items[i])
    ensures ValidateQuiz(parsed).Ok? ==> ValidateQuiz(parsed).value == RepairAll(parsed.items)
  {
  }

  lemma FirstInvalidNeverNotArray(items: seq<Json>)
    ensures ValidateItems(items) != Err(ReplyNotArray)
  {
  }

  // Replies that show the rules at work.

  const FoxQuestion: Json := JObj(map[
    "question" := JStr("Q1?"), "type" := JStr("multiple_choice"),
    "options" := JArr([JStr("A"), JStr("B"), JStr("C")]), "correct_answer" := JStr("A")])

  const FoxContent: Json := JObj(map[
    "titleStory" := JStr("The Fox"), "story" := JStr("p1\n\np2"), "quiz" := JArr([FoxQuestion])])

  /** A well-formed reply passes validation unchanged. */
  lemma WellFormedReplyUnchanged()
    ensures ValidateContent(FoxContent) == Ok(FoxContent)
  {
    assert AcceptedItem(FoxQuestion);
    assert Repair(FoxQuestion) == FoxQuestion;
    ValidateContentCharacterised(FoxContent);
    assert RepairAll([FoxQuestion]) == [FoxQuestion];
    assert FoxContent.fields["quiz" := JArr([FoxQuestion])] == FoxContent.fields;
  }

  /** An open-ended item carrying `options` passes, with `options` removed. */
  lemma OpenEndedOptionsStripped()
    ensures ValidateQuiz(JArr([JObj(map[
              "question" := JStr("Q2?"), "type" := JStr("open_ended"),
              "correct_answer" := JStr("42"), "options" := JArr([JStr("x")])])]))
            == Ok([JObj(map["question" := JStr("Q2?"), "type" := JStr("open_ended"), "correct_answer" := JStr("42")])])
  {
    var q := JObj(map["question" := JStr("Q2?"), "type" := JStr("open_ended"),
                      "correct_answer" := JStr("42"), "options" := JArr([JStr("x")])]);
    assert AcceptedItem(q);
    ValidateQuizCharacterised(JArr([q]));
    assert PropIs(q, "type", "open_ended");
    assert q.fields - {"options"} ==
      map["question" := JStr("Q2?"), "type" := JStr("open_ended"), "correct_answer" := JStr("42")];
    assert RepairAll([q]) == [Repair(q)];
  }

  /** An item without `correct_answer` is rejected as malformed. */
  lemma MissingAnswerRejected()
    ensures ValidateQuiz(JArr([JObj(map["question" := JStr("Q3?"), "type" := JStr("open_ended")])]))
            == Err(InvalidQuestion)
  {
  }

  /** A multiple-choice item with a number among its options is rejected. */
  lemma MixedOptionsRejected()
    ensures ValidateQuiz(JArr([JObj(map[
              "question" := JStr("Q4?"), "type" := JStr("multiple_choice"),
              "options" := JArr([JStr("A"), JNum(2.0)]), "correct_answer" := JStr("A")])]))
            == Err(InvalidOptions)
  {
    var q := JObj(map["question" := JStr("Q4?"), "type" := JStr("multiple_choice"),
                      "options" := JArr([JStr("A"), JNum(2.0)]), "correct_answer" := JStr("A")]);
    assert !q.fields["options"].items[1].JStr?;
    assert ItemError(q) == Some(InvalidOptions);
    assert FirstInvalid([q]) == 0;
  }

  /** A quiz of four items passes with its four items, whatever count was asked
      for. */
  lemma ShortQuizAccepted()
    ensures var reply := JObj(FoxContent.fields["quiz" := JArr([FoxQuestion, FoxQuestion, FoxQuestion, FoxQuestion])]);
            ValidateContent(reply).Ok? && ValidateContent(reply).value.fields["quiz"].items ==
              [FoxQuestion, FoxQuestion, FoxQuestion, FoxQuestion]
  {
  }
}
