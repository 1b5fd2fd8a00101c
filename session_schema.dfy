/** The `Session` document schema: enumerations, required paths, trimming, defaults and the
    minimum duration, applied when a document is created and when an update sets a path. */
module SessionSchema {
  import opened Base
  import opened Text

  const Difficulties: set<string> := {"beginner", "intermediate", "advanced"}
  const Categories: set<string> :=
    {"yoga", "meditation", "breathwork", "mindfulness", "movement", "relaxation"}
  const Statuses: set<string> := {"draft", "published"}

  const DefaultDifficulty := "beginner"
  const DefaultStatus := "draft"
  const MinDuration := 1

  /** A stored session document. `createdAt` and `updatedAt` are the timestamps the schema
      option adds; `duration` is `None` when the path is unset or null. */
  datatype Session = Session(
    id: SessionId,
    title: string,
    description: string,
    tags: seq<string>,
    jsonFileUrl: string,
    duration: Option<int>,
    difficulty: string,
    category: string,
    status: string,
    imageUrl: string,
    createdBy: UserId,
    createdAt: nat,
    updatedAt: nat)

  /** A duration as it arrives in a request: a number of minutes, or the empty string, which
      the schema casts to null. */
  datatype Duration = Minutes(value: int) | Blank

  /** The paths of a request body that the schema knows; `None` is a path the body leaves out. */
  datatype Fields = Fields(
    id: Option<SessionId>,
    title: Option<string>,
    description: Option<string>,
    tags: Option<seq<string>>,
    jsonFileUrl: Option<string>,
    duration: Option<Duration>,
    difficulty: Option<string>,
    category: Option<string>,
    status: Option<string>,
    imageUrl: Option<string>,
    createdBy: Option<UserId>)

  /** Every constraint of the schema holds of a stored document. */
  predicate Valid(s: Session): (ok: bool)
    ensures ok ==> s.title != "" && !IsSpace(s.title[0])
    ensures ok ==> s.category != "" && (s.status == "draft" || s.status == "published")
    ensures ok ==> s.duration.None? || s.duration.value > 0
  {
    var ok :=
      && s.title != "" && IsTrimmed(s.title)
      && (forall i :: 0 <= i < |s.tags| ==> IsTrimmed(s.tags[i]))
      && (s.duration.Some? ==> s.duration.value >= MinDuration)
      && s.difficulty in Difficulties
      && s.category in Categories
      && s.status in Statuses;
    ok
  }

  /** A stored title is non-empty and trimming it again changes nothing. */
  lemma StoredTitleNotBlank(s: Session)
    requires Valid(s)
    ensures s.title != "" && Trim(s.title) == s.title
  {
    TrimmedIsFixed(s.title);
  }

  function TrimAll(tags: seq<string>): seq<string> {
    seq(|tags|, i requires 0 <= i < |tags| => Trim(tags[i]))
  }

  function TrimOpt(s: Option<string>): Option<string> {
    if s.Some? then Some(Trim(s.value)) else None
  }

  /** The setters the schema runs before validation: `title` and every tag are trimmed. */
  function Trimmed(f: Fields): (g: Fields)
    ensures g.title.Some? ==> IsTrimmed(g.title.value)
    ensures g.tags.Some? ==> forall i :: 0 <= i < |g.tags.value| ==> IsTrimmed(g.tags.value[i])
    ensures g.title == TrimOpt(f.title)
    ensures g.tags == if f.tags.Some? then Some(TrimAll(f.tags.value)) else None
    ensures g.(title := f.title, tags := f.tags) == f
  {
    f.(title := TrimOpt(f.title),
       tags := if f.tags.Some? then Some(TrimAll(f.tags.value)) else None)
  }

  /** The validators of every path that `g` sets: a set `title` is non-empty (required),
      a set `duration` number is at least 1, and a set `difficulty`, `category` or `status` is
      one of its enumeration's values. Unset paths are not checked. */
  predicate PathsValid(g: Fields) {
    && (g.title.Some? ==> g.title.value != "")
    && (g.duration.Some? && g.duration.value.Minutes? ==> g.duration.value.value >= MinDuration)
    && (g.difficulty.Some? ==> g.difficulty.value in Difficulties)
    && (g.category.Some? ==> g.category.value in Categories)
    && (g.status.Some? ==> g.status.value in Statuses)
  }

  /** The paths the schema marks `required`. */
  predicate HasRequired(f: Fields) {
    f.title.Some? && f.category.Some? && f.createdBy.Some?
  }

  function DurationValue(d: Duration): Option<int> {
    match d
    case Minutes(n) => Some(n)
    case Blank => None
  }

  /** `new Session(data)` followed by `save()`: trims, fills the defaults and validates the
      whole document; `None` is a validation error. */
  function Create(f: Fields, id: SessionId, now: nat): (r: Option<Session>)
    ensures r.Some? <==> HasRequired(f) && PathsValid(Trimmed(f))
    ensures r.Some? ==> Valid(r.value)
    ensures r.Some? ==> r.value.id == id && r.value.createdBy == f.createdBy.value
    ensures r.Some? ==> r.value.title == Trim(f.title.value) && r.value.category == f.category.value
    ensures r.Some? ==> r.value.status == f.status.GetOr(DefaultStatus)
    ensures r.Some? ==> r.value.difficulty == f.difficulty.GetOr(DefaultDifficulty)
    ensures r.Some? ==> && r.value.description == f.description.GetOr("")
                        && r.value.jsonFileUrl == f.jsonFileUrl.GetOr("")
                        && r.value.imageUrl == f.imageUrl.GetOr("")
                        && r.value.tags == TrimAll(f.tags.GetOr([]))
    ensures r.Some? ==> r.value.duration == if f.duration.Some? then DurationValue(f.duration.value) else None
    ensures r.Some? ==> r.value.createdAt == now && r.value.updatedAt == now
  {
    var g := Trimmed(f);
    if !HasRequired(g) || !PathsValid(g) then None
    else
      Some(Session(
        id := id,
        title := g.title.value,
        description := g.description.GetOr(""),
        tags := g.tags.GetOr([]),
        jsonFileUrl := g.jsonFileUrl.GetOr(""),
        duration := if g.duration.Some? then DurationValue(g.duration.value) else None,
        difficulty := g.difficulty.GetOr(DefaultDifficulty),
        category := g.category.value,
        status := g.status.GetOr(DefaultStatus),
        imageUrl := g.imageUrl.GetOr(""),
        createdBy := g.createdBy.value,
        createdAt := now,
        updatedAt := now))
  }

  /** The update validators of `findOneAndUpdate(..., { runValidators: true })`: they check only
      the paths the update sets, after the setters, and run before any document is matched. */
  predicate UpdateAccepted(f: Fields): (ok: bool)
    ensures ok && f.title.Some? ==> Trim(f.title.value) != ""
    ensures f.category == Some("") ==> !ok
    ensures (&& f.title.None? && f.duration.None? && f.difficulty.None?
             && f.category.None? && f.status.None?) ==> ok
  {
    PathsValid(Trimmed(f))
  }

  /** The matched document `s` after an accepted update `f` has set its paths: each path `f`
      sets takes the new value, every other path keeps its old one, `_id` cannot change and
      `updatedAt` becomes `now`. `None` is an update whose `_id` differs from the document's. */
  function Apply(s: Session, f: Fields, now: nat): (r: Option<Session>)
    requires UpdateAccepted(f)
    ensures r.Some? <==> f.id.None? || f.id.value == s.id
    ensures r.Some? && Valid(s) ==> Valid(r.value)
    ensures r.Some? ==> r.value.id == s.id && r.value.createdAt == s.createdAt && r.value.updatedAt == now
    ensures r.Some? ==> r.value.status == f.status.GetOr(s.status)
    ensures r.Some? ==> r.value.createdBy == f.createdBy.GetOr(s.createdBy)
    ensures r.Some? ==> r.value.category == f.category.GetOr(s.category)
    ensures r.Some? ==> r.value.title == (if f.title.Some? then Trim(f.title.value) else s.title)
    ensures r.Some? ==> r.value.tags == (if f.tags.Some? then TrimAll(f.tags.value) else s.tags)
    ensures r.Some? ==> && r.value.description == f.description.GetOr(s.description)
                        && r.value.jsonFileUrl == f.jsonFileUrl.GetOr(s.jsonFileUrl)
                        && r.value.imageUrl == f.imageUrl.GetOr(s.imageUrl)
                        && r.value.difficulty == f.difficulty.GetOr(s.difficulty)
    ensures r.Some? ==>
      r.value.duration == (if f.duration.Some? then DurationValue(f.duration.value) else s.duration)
  {
    var g := Trimmed(f);
    if g.id.Some? && g.id.value != s.id then None
    else
      Some(s.(
        title := g.title.GetOr(s.title),
        description := g.description.GetOr(s.description),
        tags := g.tags.GetOr(s.tags),
        jsonFileUrl := g.jsonFileUrl.GetOr(s.jsonFileUrl),
        duration := if g.duration.Some? then DurationValue(g.duration.value) else s.duration,
        difficulty := g.difficulty.GetOr(s.difficulty),
        category := g.category.GetOr(s.category),
        status := g.status.GetOr(s.status),
        imageUrl := g.imageUrl.GetOr(s.imageUrl),
        createdBy := g.createdBy.GetOr(s.createdBy),
        updatedAt := now))
  }

  /** A document that validates and has just been created with no `category` is impossible:
      the schema requires `category` whatever the status, drafts included. */
  lemma CategoryRequiredForEveryStatus(f: Fields, id: SessionId, now: nat)
    requires f.category.None? || f.category == Some("")
    ensures Create(f, id, now).None?
  {
    if f.category.Some? {
      assert Trimmed(f).category == Some("") && "" !in Categories;
      assert !PathsValid(Trimmed(f));
    } else {
      assert !HasRequired(f);
    }
  }

}
