/** The session editor: the form state, its field and tag edits, the checks and request of a
    save, and the condition under which an autosave is scheduled. */
module SessionEditor {
  import opened Base
  import opened Text
  import opened Lists
  import opened SessionSchema
  import opened SessionRoutes

  /** `formData`. A new form has no `_id` and no `created_by`; a loaded one has both. */
  datatype Form = Form(
    id: Option<SessionId>,
    title: string,
    description: string,
    tags: seq<string>,
    jsonFileUrl: string,
    duration: Duration,
    difficulty: string,
    category: string,
    imageUrl: string,
    status: string,
    createdBy: Option<UserId>)

  /** The form a new session starts from. */
  const EmptyForm := Form(None, "", "", [], "", Blank, "beginner", "", "", "draft", None)

  /** `setFormData(data)` after loading a stored session. */
  function FromSession(s: Session): (f: Form)
    ensures f.id == Some(s.id) && f.title == s.title && f.category == s.category && f.tags == s.tags
    ensures f.description == s.description && f.jsonFileUrl == s.jsonFileUrl && f.imageUrl == s.imageUrl
    ensures f.difficulty == s.difficulty && f.status == s.status && f.createdBy == Some(s.createdBy)
    ensures f.duration == if s.duration.Some? then Minutes(s.duration.value) else Blank
  {
    Form(Some(s.id), s.title, s.description, s.tags, s.jsonFileUrl,
         if s.duration.Some? then Minutes(s.duration.value) else Blank,
         s.difficulty, s.category, s.imageUrl, s.status, Some(s.createdBy))
  }

  /** The edits the form's inputs make through `handleInputChange(field, value)`. */
  datatype Edit =
    | SetTitle(newTitle: string)
    | SetDescription(newDescription: string)
    | SetTags(newTags: seq<string>)
    | SetJsonFileUrl(newJsonFileUrl: string)
    | SetDuration(newDuration: Duration)
    | SetDifficulty(newDifficulty: string)
    | SetCategory(newCategory: string)
    | SetImageUrl(newImageUrl: string)

  /** The field `e` names holds the value `e` carries. */
  predicate Holds(f: Form, e: Edit) {
    match e
    case SetTitle(v) => f.title == v
    case SetDescription(v) => f.description == v
    case SetTags(v) => f.tags == v
    case SetJsonFileUrl(v) => f.jsonFileUrl == v
    case SetDuration(v) => f.duration == v
    case SetDifficulty(v) => f.difficulty == v
    case SetCategory(v) => f.category == v
    case SetImageUrl(v) => f.imageUrl == v
  }

  /** `a` and `b` agree on every field other than the one `e` names. */
  predicate SameOutside(a: Form, b: Form, e: Edit) {
    && a.id == b.id && a.status == b.status && a.createdBy == b.createdBy
    && (!e.SetTitle? ==> a.title == b.title)
    && (!e.SetDescription? ==> a.description == b.description)
    && (!e.SetTags? ==> a.tags == b.tags)
    && (!e.SetJsonFileUrl? ==> a.jsonFileUrl == b.jsonFileUrl)
    && (!e.SetDuration? ==> a.duration == b.duration)
    && (!e.SetDifficulty? ==> a.difficulty == b.difficulty)
    && (!e.SetCategory? ==> a.category == b.category)
    && (!e.SetImageUrl? ==> a.imageUrl == b.imageUrl)
  }

  /** `{ ...prev, [field]: value }`. */
  function ApplyEdit(form: Form, e: Edit): (r: Form)
    ensures Holds(r, e) && SameOutside(r, form, e)
  {
    match e
    case SetTitle(v) => form.(title := v)
    case SetDescription(v) => form.(description := v)
    case SetTags(v) => form.(tags := v)
    case SetJsonFileUrl(v) => form.(jsonFileUrl := v)
    case SetDuration(v) => form.(duration := v)
    case SetDifficulty(v) => form.(difficulty := v)
    case SetCategory(v) => form.(category := v)
    case SetImageUrl(v) => form.(imageUrl := v)
  }

  /** The tag list after `handleAddTag`: the trimmed input is appended when it is non-empty
      and not already a tag; otherwise the list is unchanged. */
  function AddTag(tags: seq<string>, input: string): (r: seq<string>)
    ensures r == tags || r == tags + [Trim(input)]
    ensures r != tags <==> Trim(input) != "" && Trim(input) !in tags
    ensures Distinct(tags) ==> Distinct(r)
  {
    var t := Trim(input);
    if t != "" && t !in tags then tags + [t] else tags
  }

  /** The tag list after `handleRemoveTag(tag)`: every copy of `tag` goes, the rest stay in order. */
  function RemoveTag(tags: seq<string>, tag: string): (r: seq<string>)
    ensures tag !in r
    ensures IsSubsequence(r, tags)
    ensures forall i :: 0 <= i < |tags| && tags[i] != tag ==> tags[i] in r
    ensures multiset(r) <= multiset(tags)
    ensures forall i :: 0 <= i < |tags| && tags[i] != tag ==> multiset(r)[tags[i]] == multiset(tags)[tags[i]]
    ensures Distinct(tags) ==> Distinct(r)
  {
    if Distinct(tags) then FilterDistinct(tags, t => t != tag); Filter(tags, t => t != tag)
    else Filter(tags, t => t != tag)
  }

  /** The checks `handleSave` makes before any request: the alert it shows, if any. */
  function SaveAlert(form: Form, status: string): (alert: Option<string>)
    ensures alert.None? <==> Trim(form.title) != "" && (status == "published" ==> form.category != "")
    ensures Trim(form.title) == "" ==> alert == Some("Please enter a session title")
  {
    if Trim(form.title) == "" then Some("Please enter a session title")
    else if status == "published" && form.category == "" then Some("Please select a category to publish.")
    else None
  }

  /** A draft is never refused for its category; publishing is refused without one. */
  lemma CategoryCheckOnlyForPublish(form: Form)
    requires Trim(form.title) != "" && form.category == ""
    ensures SaveAlert(form, "draft").None?
    ensures SaveAlert(form, "published") == Some("Please select a category to publish.")
  {
  }

  /** `{ ...formData, status }`: the form as a request body, with `status` overridden. */
  function Payload(form: Form, status: string): (body: Fields)
    ensures body.status == Some(status)
    ensures body.id == form.id && body.createdBy == form.createdBy
    ensures body.title == Some(form.title) && body.category == Some(form.category)
    ensures body.tags == Some(form.tags)
    ensures && body.description == Some(form.description)
            && body.jsonFileUrl == Some(form.jsonFileUrl)
            && body.duration == Some(form.duration)
            && body.difficulty == Some(form.difficulty)
            && body.imageUrl == Some(form.imageUrl)
  {
    Fields(form.id, Some(form.title), Some(form.description), Some(form.tags), Some(form.jsonFileUrl),
           Some(form.duration), Some(form.difficulty), Some(form.category), Some(status),
           Some(form.imageUrl), form.createdBy)
  }

  /** The route `handleSave` posts to. */
  function EndpointFor(status: string): (path: string)
    ensures path == "save-draft" <==> status == "draft"
    ensures path == "publish" <==> status != "draft"
  {
    if status == "draft" then "save-draft" else "publish"
  }

  datatype Post = Post(endpoint: string, payload: Fields)

  /** `response.ok`. */
  predicate IsOk(reply: Reply) {
    200 <= reply.code < 300
  }

  /** What `setSession(result)` stores: the saved document, or nothing for a null body. */
  function SavedSession(reply: Reply): Option<Session> {
    if reply.body.One? then Some(reply.body.session) else None
  }

  /** The autosave effect's guard: there are unsaved changes and the title is not blank. */
  predicate AutosaveDue(form: Form, hasUnsavedChanges: bool): (due: bool)
    ensures due <==> hasUnsavedChanges && exists i :: 0 <= i < |form.title| && !IsSpace(form.title[i])
  {
    TrimEmptyIffBlank(form.title);
    hasUnsavedChanges && Trim(form.title) != ""
  }

  /** A scheduled autosave always passes the checks of the draft save it performs. */
  lemma AutosavePassesChecks(form: Form, hasUnsavedChanges: bool)
    requires AutosaveDue(form, hasUnsavedChanges)
    ensures SaveAlert(form, "draft").None?
  {
  }

  /** The form with the `_id` of the document a save returned, so that later saves update it. */
  function KeepSavedId(form: Form, reply: Reply): (f: Form)
    ensures reply.body.One? ==> f.id == Some(reply.body.session.id)
    ensures !reply.body.One? ==> f == form
    ensures f.(id := form.id) == form
  {
    if reply.body.One? then form.(id := Some(reply.body.session.id)) else form
  }

  /** The editor page's own state. */
  class Editor {
    var form: Form
    var tagInput: string
    var session: Option<Session>
    var isLoading: bool
    var lastSaved: Option<nat>
    var hasUnsavedChanges: bool

    constructor ()
      ensures form == EmptyForm && tagInput == "" && session.None?
      ensures !isLoading && lastSaved.None? && !hasUnsavedChanges
    {
      form := EmptyForm;
      tagInput := "";
      session := None;
      isLoading := false;
      lastSaved := None;
      hasUnsavedChanges := false;
    }

    /** `loadSession` with an ok response carrying `s`. */
    method Load(s: Session)
      modifies this
      ensures session == Some(s) && form == FromSession(s)
      ensures tagInput == old(tagInput) && isLoading == old(isLoading)
      ensures lastSaved == old(lastSaved) && hasUnsavedChanges == old(hasUnsavedChanges)
    {
      session := Some(s);
      form := FromSession(s);
    }

    /** `handleInputChange`: one field changes and the form is marked unsaved. */
    method InputChange(e: Edit)
      modifies this
      ensures form == ApplyEdit(old(form), e) && hasUnsavedChanges
      ensures tagInput == old(tagInput) && session == old(session)
      ensures isLoading == old(isLoading) && lastSaved == old(lastSaved)
    {
      form := ApplyEdit(form, e);
      hasUnsavedChanges := true;
    }

    /** `handleAddTag`: a new tag is added and the input cleared; otherwise nothing happens. */
    method AddTagFromInput()
      modifies this
      ensures var t := Trim(old(tagInput));
        if t != "" && t !in old(form.tags) then
          && form == old(form).(tags := AddTag(old(form.tags), old(tagInput)))
          && tagInput == "" && hasUnsavedChanges
        else
          form == old(form) && tagInput == old(tagInput) && hasUnsavedChanges == old(hasUnsavedChanges)
      ensures session == old(session) && isLoading == old(isLoading) && lastSaved == old(lastSaved)
    {
      var t := Trim(tagInput);
      if t != "" && t !in form.tags {
        InputChange(SetTags(form.tags + [t]));
        tagInput := "";
      }
    }

    /** `handleRemoveTag`. */
    method RemoveTagNamed(tag: string)
      modifies this
      ensures form == old(form).(tags := RemoveTag(old(form.tags), tag)) && hasUnsavedChanges
      ensures tagInput == old(tagInput) && session == old(session)
      ensures isLoading == old(isLoading) && lastSaved == old(lastSaved)
    {
      InputChange(SetTags(RemoveTag(form.tags, tag)));
    }

    /** `handleSave(status)`, where `reply` is the server's answer to the request it sends.
        A failed check sends nothing and changes nothing. Otherwise the request goes to the
        endpoint for `status` with the form as payload; an ok answer records the returned
        session and the save time and clears the unsaved flag. The form itself is left as it
        was, `_id` included. */
    method Save(status: string, now: nat, reply: Reply) returns (ok: bool, request: Option<Post>)
      modifies this
      ensures SaveAlert(old(form), status).Some? ==>
        && !ok && request.None?
        && session == old(session) && isLoading == old(isLoading)
        && lastSaved == old(lastSaved) && hasUnsavedChanges == old(hasUnsavedChanges)
      ensures SaveAlert(old(form), status).None? ==>
        && request == Some(Post(EndpointFor(status), Payload(old(form), status)))
        && ok == IsOk(reply) && !isLoading
        && (ok ==> session == SavedSession(reply) && lastSaved == Some(now) && !hasUnsavedChanges)
        && (!ok ==> session == old(session) && lastSaved == old(lastSaved)
                    && hasUnsavedChanges == old(hasUnsavedChanges))
      ensures form == old(form) && tagInput == old(tagInput)
    {
      if SaveAlert(form, status).Some? {
        return false, None;
      }
      isLoading := true;
      request := Some(Post(EndpointFor(status), Payload(form, status)));
      if IsOk(reply) {
        session := SavedSession(reply);
        lastSaved := Some(now);
        hasUnsavedChanges := false;
        isLoading := false;
        ok := true;
      } else {
        isLoading := false;
        ok := false;
      }
    }

    /** `handleSave` as it is evidently meant to behave: identical, except that an ok answer
        carrying a document also puts that document's `_id` into the form. */
    method SaveKeepingId(status: string, now: nat, reply: Reply) returns (ok: bool, request: Option<Post>)
      modifies this
      ensures SaveAlert(old(form), status).Some? ==>
        && !ok && request.None? && form == old(form)
        && session == old(session) && isLoading == old(isLoading)
        && lastSaved == old(lastSaved) && hasUnsavedChanges == old(hasUnsavedChanges)
      ensures SaveAlert(old(form), status).None? ==>
        && request == Some(Post(EndpointFor(status), Payload(old(form), status)))
        && ok == IsOk(reply) && !isLoading
        && (ok ==> && session == SavedSession(reply) && lastSaved == Some(now) && !hasUnsavedChanges
                   && form == KeepSavedId(old(form), reply))
        && (!ok ==> && session == old(session) && lastSaved == old(lastSaved) && form == old(form)
                    && hasUnsavedChanges == old(hasUnsavedChanges))
      ensures tagInput == old(tagInput)
    {
      ok, request := Save(status, now, reply);
      if ok {
        form := KeepSavedId(form, reply);
      }
    }
  }

  // ------------------------------------------------------------ editor against the server

  /** A new draft with a title and no category passes every check of the editor, yet the
      server refuses it, because the schema requires a category for drafts too. */
  lemma NewDraftWithoutCategoryFailsOnServer(db: Db, caller: UserId, form: Form, now: nat)
    requires Consistent(db)
    requires form.id.None? && form.category == "" && Trim(form.title) != ""
    ensures SaveAlert(form, "draft").None?
    ensures Upsert(db, caller, Payload(form, "draft"), EndpointStatus(EndpointFor("draft")), now) == (db, Failed)
  {
    assert EndpointStatus(EndpointFor("draft")) == "draft";
    var body := Payload(form, "draft");
    var data := Stamped(body, caller, "draft");
    CategoryRequiredForEveryStatus(data, db.nextId, now);
    var r := Upsert(db, caller, body, "draft", now);
    assert r.1.code != 200;
  }

  /** The status the route behind an endpoint forces. */
  function EndpointStatus(path: string): (status: string)
    ensures path == "save-draft" ==> status == "draft"
    ensures path != "save-draft" ==> status == "published"
  {
    if path == "save-draft" then "draft" else "published"
  }

  /** As written, a save of a new session leaves the form without `_id`, so saving the same
      form again (the next autosave, or the final "Save Draft") inserts a second document. */
  lemma {:induction false} ResaveInsertsAgain(db: Db, caller: UserId, form: Form, t1: nat, t2: nat)
    requires Consistent(db) && form.id.None?
    requires Upsert(db, caller, Payload(form, "draft"), "draft", t1).1.code == 200
    ensures var (db1, r1) := Upsert(db, caller, Payload(form, "draft"), "draft", t1);
      var (db2, r2) := Upsert(db1, caller, Payload(form, "draft"), "draft", t2);
      && r2.code == 200 && r1.body.One? && r2.body.One?
      && r1.body.session.id != r2.body.session.id
      && |db2.sessions| == |db.sessions| + 2
  {
    var (db1, r1) := Upsert(db, caller, Payload(form, "draft"), "draft", t1);
    assert db.nextId !in db.sessions;
    assert db1.nextId !in db1.sessions;
  }

  /** With the `_id` of the first save kept in the form, saving again updates that document
      in place and creates nothing. */
  lemma {:induction false} ResaveKeepingIdUpdates(db: Db, caller: UserId, form: Form, t1: nat, t2: nat)
    requires Consistent(db) && form.id.None?
    requires Upsert(db, caller, Payload(form, "draft"), "draft", t1).1.code == 200
    ensures var (db1, r1) := Upsert(db, caller, Payload(form, "draft"), "draft", t1);
      var (db2, r2) := Upsert(db1, caller, Payload(KeepSavedId(form, r1), "draft"), "draft", t2);
      && r2.code == 200 && r1.body.One? && r2.body.One?
      && r2.body.session.id == r1.body.session.id
      && db2.sessions.Keys == db1.sessions.Keys
  {
    var body1 := Payload(form, "draft");
    var (db1, r1) := Upsert(db, caller, body1, "draft", t1);
    assert r1.body.One? && r1.body.session.id == db.nextId;
    assert KeepSavedId(form, r1) == form.(id := Some(db.nextId));
    ResaveAccepted(form, caller, db.nextId, t1);
    assert Owns(db1, caller, db.nextId);
    var body2 := Payload(form.(id := Some(db.nextId)), "draft");
    var (db2, r2) := Upsert(db1, caller, body2, "draft", t2);
    assert r2.code == 200 && r2.body.session.id == db.nextId;
    assert db2.sessions.Keys == db1.sessions.Keys;
  }

  /** The second save's body differs from the first only in `_id`, so the update validators
      accept it whenever the first save's document validated. */
  lemma ResaveAccepted(form: Form, caller: UserId, id: SessionId, now: nat)
    requires form.id.None?
    requires Create(Stamped(Payload(form, "draft"), caller, "draft"), id, now).Some?
    ensures UpdateAccepted(Stamped(Payload(form.(id := Some(id)), "draft"), caller, "draft"))
  {
    var first := Stamped(Payload(form, "draft"), caller, "draft");
    var again := Stamped(Payload(form.(id := Some(id)), "draft"), caller, "draft");
    assert again == first.(id := Some(id));
    assert PathsValid(Trimmed(first));
    assert Trimmed(again) == Trimmed(first).(id := Some(id));
  }

  /** The status an autosave should post with: a published session stays published, anything
      else is saved as a draft. */
  function AutosaveStatus(form: Form): (status: string)
    ensures status == "published" <==> form.status == "published"
    ensures status == "draft" || status == "published"
  {
    if form.status == "published" then "published" else "draft"
  }

  /** A stored session loaded into the editor, with its description edited. */
  function EditedStored(s: Session, description: string): (form: Form)
    ensures form.id == Some(s.id) && form.status == s.status && form.description == description
  {
    ApplyEdit(FromSession(s), SetDescription(description))
  }

  /** Whatever status it posts with, the autosave of an edited stored session passes the
      update validators. */
  lemma EditedStoredAccepted(s: Session, caller: UserId, description: string, status: string)
    requires SessionSchema.Valid(s) && (status == "draft" || status == "published")
    ensures UpdateAccepted(Stamped(Payload(EditedStored(s, description), status), caller, status))
  {
    StoredTitleNotBlank(s);
  }

  /** The autosave always posts to save-draft, so editing a published session and pausing for
      five seconds turns it back into a draft that the public listing no longer shows. */
  lemma AutosaveUnpublishes(db: Db, caller: UserId, id: SessionId, description: string, now: nat)
    requires Consistent(db) && Owns(db, caller, id) && db.sessions[id].status == "published"
    ensures var form := EditedStored(db.sessions[id], description);
      var (db', r) := Upsert(db, caller, Payload(form, "draft"), "draft", now);
      && AutosaveDue(form, true)
      && r.code == 200 && db'.sessions[id].status == "draft"
  {
    var s := db.sessions[id];
    StoredTitleNotBlank(s);
    EditedStoredAccepted(s, caller, description, "draft");
  }

  /** Posting the autosave with `AutosaveStatus` keeps an edited published session published
      and still stores the edit. */
  lemma AutosaveKeepsPublished(db: Db, caller: UserId, id: SessionId, description: string, now: nat)
    requires Consistent(db) && Owns(db, caller, id) && db.sessions[id].status == "published"
    ensures var form := EditedStored(db.sessions[id], description);
      var status := AutosaveStatus(form);
      var (db', r) := Upsert(db, caller, Payload(form, status), status, now);
      && r.code == 200
      && db'.sessions[id].status == "published" && db'.sessions[id].description == description
  {
    var s := db.sessions[id];
    EditedStoredAccepted(s, caller, description, "published");
  }
}
