/** The rules of `StoryService` (story.service.ts): the checks `create` makes
    before it stores a story, the default title, the stored record, and the way
    `getStoriesForChildsEtablissement` finds the stories a child may read. The
    Mongo collections are in-memory tables. */
module StoryService {
  import opened Wrappers
  import opened JsonValues
  import opened ObjectIds
  import opened Seqs

  /** A `User` document: its role (None when missing or not a string) and the
      `etablissement` profile it is linked to (`null` by default). */
  datatype User = User(role: Option<string>, etablissement: Option<ObjectId>)

  /** An `Enfant` document; `level` is None when it is `undefined` or `null`. */
  datatype Child = Child(level: Option<int>, responsableId: ObjectId, roleResponsable: string)

  /** An `Etablissement` profile: the user account of the establishment. */
  datatype EtablissementProfile = EtablissementProfile(userId: ObjectId)

  /** An `Enseignant` profile: the teacher's account and the establishment
      account it belongs to. */
  datatype Teacher = Teacher(userId: ObjectId, idResponsable: ObjectId)

  /** A stored `Story`. */
  datatype Story = Story(
    storyTopic: string,
    titleStory: Option<string>,
    complexityLevel: int,
    difficultyDegree: string,
    paragraphs: seq<Json>,
    poster: Option<string>,
    responsableId: ObjectId,
    userRole: string,
    gradeLevel: int,
    unitNumber: int,
    lessonNumber: int,
    numberOfStoryParagraphs: int,
    numberOfQuizQuestions: int)

  /** `CreateStoryDto` as the service receives it; `paragraphs` is whatever the
      request carried. The optional `responsableId` and `userRole` a client may
      send are kept, to show that they never reach the record. */
  datatype CreateStoryDto = CreateStoryDto(
    storyTopic: string,
    titleStory: Option<string>,
    complexityLevel: int,
    difficultyDegree: string,
    paragraphs: Json,
    poster: Option<string>,
    responsableId: Option<ObjectId>,
    userRole: Option<string>,
    gradeLevel: int,
    unitNumber: int,
    lessonNumber: int,
    numberOfStoryParagraphs: int,
    numberOfQuizQuestions: int)

  /** The collections the service reads: users, children and establishment
      profiles by id, and the teacher and story collections in their stored
      order. */
  datatype Tables = Tables(
    users: map<ObjectId, User>,
    children: map<ObjectId, Child>,
    profiles: map<ObjectId, EtablissementProfile>,
    teachers: seq<Teacher>,
    stories: seq<Story>)

  /** Why the service refuses a request: one kind per `throw`, and the
      TypeError the paragraph check runs into on `null`. */
  datatype StoryError =
    | InvalidUserId
    | ResponsableNotFound
    | InvalidRole
    | ParagraphsNotArray
    | InvalidParagraph
    | NullParagraph
    | InvalidChildId
    | ChildNotFound(enfantId: string)
    | NoGradeLevel(enfantId: string)
    | ParentInvalid(enfantId: string)
    | ParentUnlinked(enfantId: string)
    | ProfileMissing(parentId: ObjectId)
    | UnsupportedRole(role: string)

  /** The HTTP status: 400 for a `BadRequestException`, 404 for a
      `NotFoundException`, 500 for the TypeError. */
  function Status(e: StoryError): (status: int)
    ensures status in {400, 404, 500}
    ensures status == 500 <==> e.NullParagraph?
    ensures status == 404 <==>
              (e.ResponsableNotFound? || e.ChildNotFound? || e.ParentInvalid? || e.ParentUnlinked? || e.ProfileMissing?)
  {
    match e
    case ResponsableNotFound | ChildNotFound(_) | ParentInvalid(_) | ParentUnlinked(_) | ProfileMissing(_) => 404
    case NullParagraph => 500
    case _ => 400
  }

  function Message(e: StoryError): string {
    match e
    case InvalidUserId => "ID utilisateur invalide."
    case ResponsableNotFound => "Responsable (utilisateur) non trouvé."
    case InvalidRole => "Le rôle de l'utilisateur est manquant ou invalide."
    case ParagraphsNotArray => "Les paragraphes doivent être un tableau."
    case InvalidParagraph => "Chaque paragraphe doit être un objet contenant une propriété \"text\"."
    case NullParagraph => "Cannot read properties of null (reading 'text')"
    case InvalidChildId => "Invalid child ID format."
    case ChildNotFound(id) => "Child with ID " + id + " not found."
    case NoGradeLevel(id) => "Child with ID " + id + " does not have a defined grade level."
    case ParentInvalid(id) => "Parent user for child ID " + id + " not found or has an invalid role."
    case ParentUnlinked(id) => "The parent account for child " + id + " is not associated with an establishment."
    case ProfileMissing(id) => "The establishment profile linked to parent " + id + " was not found."
    case UnsupportedRole(role) => "Unsupported responsable role for child: " + role
  }

  // ---------------------------------------------------------------- create

  /** The check of one paragraph: `typeof` must be 'object' and `text` truthy.
      `null` passes the `typeof` test and the read of `text` then throws. */
  function ParagraphError(p: Json): Option<StoryError> {
    if !TypeofIsObject(p) then Some(InvalidParagraph)
    else if p.JNull? then Some(NullParagraph)
    else if !TruthyOpt(Prop(p, "text")) then Some(InvalidParagraph)
    else None
  }

  /** A paragraph `create` accepts: an object whose `text` is truthy. */
  predicate AcceptedParagraph(p: Json) {
    p.JObj? && "text" in p.fields && Truthy(p.fields["text"])
  }

  /** The index of the first paragraph the loop rejects, `|ps|` when none. */
  function FirstBadParagraph(ps: seq<Json>): (r: nat)
    ensures r <= |ps|
    ensures forall k :: 0 <= k < r ==> ParagraphError(ps[k]).None?
    ensures r < |ps| ==> ParagraphError(ps[r]).Some?
  {
    if |ps| == 0 then 0
    else if ParagraphError(ps[0]).Some? then 0
    else 1 + FirstBadParagraph(ps[1..])
  }

  function ParagraphsError(ps: seq<Json>): Option<StoryError> {
    var k := FirstBadParagraph(ps);
    if k < |ps| then ParagraphError(ps[k]) else None
  }

  /** The `for (const paragraph of …)` loop, stopping at the first rejected
      paragraph. */
  method CheckParagraphs(ps: seq<Json>) returns (err: Option<StoryError>)
    ensures err == ParagraphsError(ps)
  {
    var i := 0;
    while i < |ps|
      invariant 0 <= i <= |ps|
      invariant forall k :: 0 <= k < i ==> ParagraphError(ps[k]).None?
    {
      var e := ParagraphError(ps[i]);
      if e.Some? {
        assert FirstBadParagraph(ps) == i;
        return e;
      }
      i := i + 1;
    }
    assert FirstBadParagraph(ps) == |ps|;
    return None;
  }

  /** Every paragraph passes exactly when every paragraph is acceptable; when
      one fails, it is the first unacceptable one that decides the error. */
  lemma ParagraphsErrorCharacterised(ps: seq<Json>)
    ensures ParagraphsError(ps).None? <==> forall i :: 0 <= i < |ps| ==> AcceptedParagraph(ps[i])
    ensures ParagraphsError(ps).Some? ==>
              exists k :: 0 <= k < |ps| && !AcceptedParagraph(ps[k]) &&
                (forall j :: 0 <= j < k ==> AcceptedParagraph(ps[j])) &&
                ParagraphsError(ps) == Some(if ps[k].JNull? then NullParagraph else InvalidParagraph)
  {
  }

  const TitlePrefix := "The Adventures of "

  /** The placeholder title: a falsy title with a truthy topic becomes the
      prefix followed by the topic; any other title is kept. */
  function DefaultTitle(title: Option<string>, topic: string): Option<string> {
    if (title.None? || title.value == "") && topic != "" then Some(TitlePrefix + topic) else title
  }

  /** A truthy title is kept; a falsy one is replaced by the placeholder built
      from a non-empty topic, from which the topic can be read back; with an
      empty topic the title stays as it was. Applying the default twice changes
      nothing more. */
  lemma DefaultTitleRules(title: Option<string>, topic: string)
    ensures title.Some? && title.value != "" ==> DefaultTitle(title, topic) == title
    ensures (title.None? || title.value == "") && topic != "" ==>
              var t := DefaultTitle(title, topic).value;
              |t| > |TitlePrefix| && t[..|TitlePrefix|] == TitlePrefix && t[|TitlePrefix|..] == topic
    ensures topic == "" ==> DefaultTitle(title, topic) == title
    ensures (DefaultTitle(title, topic).Some? && DefaultTitle(title, topic).value != "") <==>
              (title.Some? && title.value != "") || topic != ""
    ensures DefaultTitle(DefaultTitle(title, topic), topic) == DefaultTitle(title, topic)
  {
  }

  /** The checks of `create`, in order, and the record it stores:
      the DTO's fields with the default title, the caller's id as
      `responsableId` and the caller's role as `userRole`. */
  function CreateStory(t: Tables, dto: CreateStoryDto, userId: Option<string>): Result<Story, StoryError> {
    if userId.None? || userId.value == "" || !IsValidObjectId(userId.value) then Err(InvalidUserId)
    else
      var id := ParseObjectId(userId.value).value;
      if id !in t.users then Err(ResponsableNotFound)
      else
        var role := t.users[id].role;
        if role.None? || role.value == "" then Err(InvalidRole)
        else if !dto.paragraphs.JArr? then Err(ParagraphsNotArray)
        else if ParagraphsError(dto.paragraphs.items).Some? then Err(ParagraphsError(dto.paragraphs.items).value)
        else Ok(Story(
          dto.storyTopic, DefaultTitle(dto.titleStory, dto.storyTopic), dto.complexityLevel,
          dto.difficultyDegree, dto.paragraphs.items, dto.poster, id, role.value,
          dto.gradeLevel, dto.unitNumber, dto.lessonNumber,
          dto.numberOfStoryParagraphs, dto.numberOfQuizQuestions))
  }

  /** `create` succeeds exactly when the caller's id is a valid object id of a
      user with a non-empty role and the paragraphs are an array of acceptable
      paragraphs. The stored record then carries every DTO field unchanged but
      the title, which follows the default rule; its owner and role are the
      caller's, whatever the DTO claimed. */
  lemma CreateStoryOutcome(t: Tables, dto: CreateStoryDto, userId: Option<string>)
    ensures CreateStory(t, dto, userId).Ok? <==>
              userId.Some? && IsValidObjectId(userId.value) &&
              ParseObjectId(userId.value).value in t.users &&
              t.users[ParseObjectId(userId.value).value].role.Some? &&
              t.users[ParseObjectId(userId.value).value].role.value != "" &&
              dto.paragraphs.JArr? &&
              forall i :: 0 <= i < |dto.paragraphs.items| ==> AcceptedParagraph(dto.paragraphs.items[i])
    ensures CreateStory(t, dto, userId).Ok? ==>
              var s := CreateStory(t, dto, userId).value;
              var owner := ParseObjectId(userId.value).value;
              s.responsableId == owner && s.userRole == t.users[owner].role.value &&
              s.titleStory == DefaultTitle(dto.titleStory, dto.storyTopic) &&
              s.paragraphs == dto.paragraphs.items &&
              s.storyTopic == dto.storyTopic && s.complexityLevel == dto.complexityLevel &&
              s.difficultyDegree == dto.difficultyDegree && s.poster == dto.poster &&
              s.gradeLevel == dto.gradeLevel && s.unitNumber == dto.unitNumber &&
              s.lessonNumber == dto.lessonNumber &&
              s.numberOfStoryParagraphs == dto.numberOfStoryParagraphs &&
              s.numberOfQuizQuestions == dto.numberOfQuizQuestions
    ensures CreateStory(t, dto, userId).Err? ==> Status(CreateStory(t, dto, userId).error) in {400, 404, 500}
  {
  }

  /** The identity checks come first: with a bad id, an unknown user or a
      missing role, `create` fails the same way whatever the DTO holds. */
  lemma CreateChecksCallerFirst(t: Tables, dto1: CreateStoryDto, dto2: CreateStoryDto, userId: Option<string>)
    requires
      userId.None? || !IsValidObjectId(userId.value) ||
      ParseObjectId(userId.value).value !in t.users ||
      t.users[ParseObjectId(userId.value).value].role.None? ||
      t.users[ParseObjectId(userId.value).value].role.value == ""
    ensures CreateStory(t, dto1, userId).Err?
    ensures CreateStory(t, dto1, userId) == CreateStory(t, dto2, userId)
  {
  }

  // ---------------------------------------------------- story retrieval

  /** Steps 1 and 2: the user id of the child's establishment. A child of an
      establishment names it directly; a parent must be a `parent` user linked
      to an existing establishment profile, whose `userId` is the answer. */
  function ResolveEtablissement(t: Tables, enfantId: string, child: Child): Result<ObjectId, StoryError> {
    if child.roleResponsable == "etablissement" then Ok(child.responsableId)
    else if child.roleResponsable == "parent" then
      if child.responsableId !in t.users || t.users[child.responsableId].role != Some("parent")
      then Err(ParentInvalid(enfantId))
      else
        var parent := t.users[child.responsableId];
        if parent.etablissement.None? then Err(ParentUnlinked(enfantId))
        else if parent.etablissement.value !in t.profiles then Err(ProfileMissing(child.responsableId))
        else Ok(t.profiles[parent.etablissement.value].userId)
    else Err(UnsupportedRole(child.roleResponsable))
  }

  /** What the parent branch demands, stated on the tables. */
  lemma ResolveParent(t: Tables, enfantId: string, child: Child)
    requires child.roleResponsable == "parent"
    ensures ResolveEtablissement(t, enfantId, child).Ok? <==>
              child.responsableId in t.users &&
              t.users[child.responsableId].role == Some("parent") &&
              t.users[child.responsableId].etablissement.Some? &&
              t.users[child.responsableId].etablissement.value in t.profiles
    ensures ResolveEtablissement(t, enfantId, child).Ok? ==>
              ResolveEtablissement(t, enfantId, child).value ==
                t.profiles[t.users[child.responsableId].etablissement.value].userId
    ensures ResolveEtablissement(t, enfantId, child).Err? ==>
              Status(ResolveEtablissement(t, enfantId, child).error) == 404
  {
  }

  /** Only the two roles of the `Enfant` schema resolve; any other is a 400. */
  lemma ResolveRoles(t: Tables, enfantId: string, child: Child)
    ensures child.roleResponsable == "etablissement" ==>
              ResolveEtablissement(t, enfantId, child) == Ok(child.responsableId)
    ensures child.roleResponsable !in {"etablissement", "parent"} <==>
              ResolveEtablissement(t, enfantId, child) == Err(UnsupportedRole(child.roleResponsable))
  {
  }

  predicate TeacherOf(establishment: ObjectId, tc: Teacher) {
    tc.idResponsable == establishment
  }

  predicate StoryMatches(ids: seq<ObjectId>, level: int, s: Story) {
    s.responsableId in ids && s.userRole == "teacher" && s.gradeLevel == level
  }

  function TeacherIds(teachers: seq<Teacher>): (ids: seq<ObjectId>)
    ensures |ids| == |teachers|
    ensures forall i :: 0 <= i < |teachers| ==> ids[i] == teachers[i].userId
  {
    seq(|teachers|, i requires 0 <= i < |teachers| => teachers[i].userId)
  }

  /** Steps 3 and 4: the teachers attached to an establishment account, then
      their stories for one grade level, in the collection's order. */
  function StoriesOf(t: Tables, establishment: ObjectId, level: int): seq<Story> {
    var teachers := Filter(t.teachers, tc => TeacherOf(establishment, tc));
    if |teachers| == 0 then []
    else
      var ids := TeacherIds(teachers);
      Filter(t.stories, s => StoryMatches(ids, level, s))
  }

  /** A story is returned exactly when it is stored, is a teacher's, has the
      requested grade level, and was written by a teacher of this
      establishment. */
  lemma StoriesOfMembership(t: Tables, establishment: ObjectId, level: int, s: Story)
    ensures s in StoriesOf(t, establishment, level) <==>
              s in t.stories && s.userRole == "teacher" && s.gradeLevel == level &&
              exists tc :: tc in t.teachers && tc.idResponsable == establishment && tc.userId == s.responsableId
    ensures (forall tc :: tc in t.teachers ==> tc.idResponsable != establishment) ==>
              StoriesOf(t, establishment, level) == []
  {
    var pick := tc => TeacherOf(establishment, tc);
    var teachers := Filter(t.teachers, pick);
    var ids := TeacherIds(teachers);
    forall tc ensures tc in teachers <==> tc in t.teachers && tc.idResponsable == establishment {
      FilterMembership(t.teachers, pick, tc);
    }
    if |teachers| > 0 {
      FilterMembership(t.stories, s => StoryMatches(ids, level, s), s);
      if s.responsableId in ids {
        var i :| 0 <= i < |ids| && ids[i] == s.responsableId;
        assert teachers[i] in teachers;
      }
    }
  }

  /** The checks of `getStoriesForChildsEtablissement` up to the establishment
      it resolves, with the child's level. */
  function ChildContext(t: Tables, enfantId: string): Result<(Child, int, ObjectId), StoryError> {
    if !IsValidObjectId(enfantId) then Err(InvalidChildId)
    else
      var id := ParseObjectId(enfantId).value;
      if id !in t.children then Err(ChildNotFound(enfantId))
      else
        var child := t.children[id];
        if child.level.None? then Err(NoGradeLevel(enfantId))
        else match ResolveEtablissement(t, enfantId, child)
          case Err(e) => Err(e)
          case Ok(establishment) => Ok((child, child.level.value, establishment))
  }

  /** `getStoriesForChildsEtablissement` as written: the establishment is
      resolved and checked, but the teacher query then uses
      `child.responsableId`. */
  function StoriesForChildAsWritten(t: Tables, enfantId: string): Result<seq<Story>, StoryError> {
    match ChildContext(t, enfantId)
    case Err(e) => Err(e)
    case Ok((child, level, _)) => Ok(StoriesOf(t, child.responsableId, level))
  }

  /** `getStoriesForChildsEtablissement` with the teacher query on the resolved
      establishment account, as its comments describe. */
  function StoriesForChild(t: Tables, enfantId: string): Result<seq<Story>, StoryError> {
    match ChildContext(t, enfantId)
    case Err(e) => Err(e)
    case Ok((_, level, establishment)) => Ok(StoriesOf(t, establishment, level))
  }

  /** The failures of retrieval, in order: a malformed id, an unknown child, a
      child without a level, then the role resolution. */
  lemma StoriesForChildErrors(t: Tables, enfantId: string)
    ensures StoriesForChild(t, enfantId) == Err(InvalidChildId) <==> !IsValidObjectId(enfantId)
    ensures IsValidObjectId(enfantId) ==>
              (StoriesForChild(t, enfantId) == Err(ChildNotFound(enfantId)) <==>
                 ParseObjectId(enfantId).value !in t.children)
    ensures IsValidObjectId(enfantId) && ParseObjectId(enfantId).value in t.children ==>
              var child := t.children[ParseObjectId(enfantId).value];
              (child.level.None? ==> StoriesForChild(t, enfantId) == Err(NoGradeLevel(enfantId))) &&
              (child.level.Some? ==>
                 (StoriesForChild(t, enfantId).Err? <==> ResolveEtablissement(t, enfantId, child).Err?))
    ensures StoriesForChild(t, enfantId).Err? <==> StoriesForChildAsWritten(t, enfantId).Err?
    ensures StoriesForChild(t, enfantId).Err? ==> StoriesForChild(t, enfantId) == StoriesForChildAsWritten(t, enfantId)
  {
  }

  /** What retrieval returns: exactly the teacher stories of the child's level
      written by a teacher of the resolved establishment. */
  lemma StoriesForChildContents(t: Tables, enfantId: string, s: Story)
    requires StoriesForChild(t, enfantId).Ok?
    ensures var (child, level, establishment) := ChildContext(t, enfantId).value;
            s in StoriesForChild(t, enfantId).value <==>
              s in t.stories && s.userRole == "teacher" && s.gradeLevel == level &&
              exists tc :: tc in t.teachers && tc.idResponsable == establishment && tc.userId == s.responsableId
  {
    var (child, level, establishment) := ChildContext(t, enfantId).value;
    StoriesOfMembership(t, establishment, level, s);
  }

  /** What retrieval as written returns: exactly the teacher stories of the
      child's level written by a teacher whose `idResponsable` is the child's
      own `responsableId`, whatever the role resolution found. */
  lemma AsWrittenContents(t: Tables, enfantId: string, s: Story)
    requires StoriesForChildAsWritten(t, enfantId).Ok?
    ensures var (child, level, _) := ChildContext(t, enfantId).value;
            s in StoriesForChildAsWritten(t, enfantId).value <==>
              s in t.stories && s.userRole == "teacher" && s.gradeLevel == level &&
              exists tc :: tc in t.teachers && tc.idResponsable == child.responsableId && tc.userId == s.responsableId
  {
    var (child, level, _) := ChildContext(t, enfantId).value;
    StoriesOfMembership(t, child.responsableId, level, s);
  }

  /** For a child of an establishment the two versions agree. */
  lemma AsWrittenAgreesForEtablissementChild(t: Tables, enfantId: string)
    requires IsValidObjectId(enfantId) && ParseObjectId(enfantId).value in t.children
    requires t.children[ParseObjectId(enfantId).value].roleResponsable == "etablissement"
    ensures StoriesForChildAsWritten(t, enfantId) == StoriesForChild(t, enfantId)
  {
  }

  /** Teachers are only created under a user whose role is `etablissement`
      (user.service.ts). */
  predicate TeachersUnderEtablissements(t: Tables) {
    forall tc :: tc in t.teachers ==>
      tc.idResponsable in t.users && t.users[tc.idResponsable].role == Some("etablissement")
  }

  /** As written, a parent's child never sees a story: the teacher query looks
      for teachers of the parent's own account, and teachers only belong to
      establishment accounts. */
  lemma AsWrittenParentChildSeesNothing(t: Tables, enfantId: string)
    requires TeachersUnderEtablissements(t)
    requires IsValidObjectId(enfantId) && ParseObjectId(enfantId).value in t.children
    requires t.children[ParseObjectId(enfantId).value].roleResponsable == "parent"
    ensures StoriesForChildAsWritten(t, enfantId).Ok? ==> StoriesForChildAsWritten(t, enfantId).value == []
  {
    var child := t.children[ParseObjectId(enfantId).value];
    if StoriesForChildAsWritten(t, enfantId).Ok? {
      assert t.users[child.responsableId].role == Some("parent");
      StoriesOfMembership(t, child.responsableId, child.level.value, Story("", None, 0, "", [], None, child.responsableId, "", 0, 0, 0, 0, 0));
    }
  }

  // A parent P linked to establishment profile E of account A, a teacher T of
  // A, a grade-4 story by T, and a grade-4 child of P.
  const ParentId: ObjectId := "000000000000000000000001"
  const ProfileId: ObjectId := "000000000000000000000002"
  const SchoolId: ObjectId := "000000000000000000000003"
  const TeacherId: ObjectId := "000000000000000000000004"
  const ChildId: ObjectId := "000000000000000000000005"

  const SchoolStory := Story("Fox", Some("The Fox"), 2, "simple", [], None, TeacherId, "teacher", 4, 1, 1, 1, 1)

  const SchoolTables := Tables(
    map[ParentId := User(Some("parent"), Some(ProfileId)), SchoolId := User(Some("etablissement"), None),
        TeacherId := User(Some("teacher"), None)],
    map[ChildId := Child(Some(4), ParentId, "parent")],
    map[ProfileId := EtablissementProfile(SchoolId)],
    [Teacher(TeacherId, SchoolId)],
    [SchoolStory])

  /** On these tables the code as written returns nothing to the child, while
      querying the resolved establishment returns the school's story. */
  lemma ParentChildCounterexample()
    ensures TeachersUnderEtablissements(SchoolTables)
    ensures StoriesForChildAsWritten(SchoolTables, ChildId) == Ok([])
    ensures StoriesForChild(SchoolTables, ChildId) == Ok([SchoolStory])
  {
    var t := SchoolTables;
    ParseCanonical(ChildId);
    assert ParentId != SchoolId && ParentId != TeacherId && SchoolId != TeacherId;
    assert ResolveEtablissement(t, ChildId, t.children[ChildId]) == Ok(SchoolId);
    assert ChildContext(t, ChildId) == Ok((t.children[ChildId], 4, SchoolId));
    var byParent := tc => TeacherOf(ParentId, tc);
    assert Filter(t.teachers, byParent) == [];
    var bySchool := tc => TeacherOf(SchoolId, tc);
    assert Filter(t.teachers, bySchool) == t.teachers;
    assert TeacherIds(t.teachers) == [TeacherId];
    assert Filter(t.stories, s => StoryMatches([TeacherId], 4, s)) == [SchoolStory];
  }

  // ------------------------------------------------------- the service

  /** The service over its collections. */
  class StoryStore {
    var users: map<ObjectId, User>
    var children: map<ObjectId, Child>
    var profiles: map<ObjectId, EtablissementProfile>
    var teachers: seq<Teacher>
    var stories: seq<Story>

    function Contents(): Tables
      reads this
    {
      Tables(users, children, profiles, teachers, stories)
    }

    constructor(t: Tables)
      ensures Contents() == t
    {
      users := t.users;
      children := t.children;
      profiles := t.profiles;
      teachers := t.teachers;
      stories := t.stories;
    }

    /** `create`: on success the record is appended to the stories and
        returned; on failure nothing is stored. No other collection changes. */
    method Create(dto: CreateStoryDto, userId: Option<string>) returns (r: Result<Story, StoryError>)
      modifies this
      ensures r == CreateStory(old(Contents()), dto, userId)
      ensures stories == if r.Ok? then old(stories) + [r.value] else old(stories)
      ensures users == old(users) && children == old(children) && profiles == old(profiles) && teachers == old(teachers)
    {
      if userId.None? || userId.value == "" || !IsValidObjectId(userId.value) {
        return Err(InvalidUserId);
      }
      var id := ParseObjectId(userId.value).value;
      if id !in users {
        return Err(ResponsableNotFound);
      }
      var role := users[id].role;
      if role.None? || role.value == "" {
        return Err(InvalidRole);
      }
      if !dto.paragraphs.JArr? {
        return Err(ParagraphsNotArray);
      }
      var err := CheckParagraphs(dto.paragraphs.items);
      if err.Some? {
        return Err(err.value);
      }
      var title := DefaultTitle(dto.titleStory, dto.storyTopic);
      var story := Story(
        dto.storyTopic, title, dto.complexityLevel, dto.difficultyDegree,
        dto.paragraphs.items, dto.poster, id, role.value,
        dto.gradeLevel, dto.unitNumber, dto.lessonNumber,
        dto.numberOfStoryParagraphs, dto.numberOfQuizQuestions);
      stories := stories + [story];
      return Ok(story);
    }

    /** `getStoriesForChildsEtablissement` as written: the role resolution runs
        for its errors, and the teacher query then uses the child's own
        `responsableId`. */
    method GetStoriesForChildsEtablissement(enfantId: string) returns (r: Result<seq<Story>, StoryError>)
      ensures r == StoriesForChildAsWritten(Contents(), enfantId)
    {
      var context := ChildContext(Contents(), enfantId);
      if context.Err? {
        return Err(context.error);
      }
      var (child, level, _) := context.value;
      var found := Filter(teachers, tc => TeacherOf(child.responsableId, tc));
      if |found| == 0 {
        return Ok([]);
      }
      var ids := TeacherIds(found);
      return Ok(Filter(stories, s => StoryMatches(ids, level, s)));
    }
  }
}
