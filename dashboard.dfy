/** The dashboard's client-side logic: searching and filtering the published sessions, the
    featured strip, the tag preview on each card and the greeting. */
module Dashboard {
  import opened Base
  import opened Text
  import opened Lists
  import opened SessionSchema

  /** The select value that stands for every category, or every difficulty. */
  const All := "all"

  /** The case-insensitive search: the query occurs in the title, the description or a tag.
      The empty query matches every session. */
  predicate MatchesSearch(s: Session, query: string): (matched: bool)
    ensures query == "" ==> matched
  {
    var q := Lower(query);
    ContainsEmpty(Lower(s.title));
    || Contains(Lower(s.title), q)
    || Contains(Lower(s.description), q)
    || (exists i :: 0 <= i < |s.tags| && Contains(Lower(s.tags[i]), q))
  }

  /** A category or difficulty selection: "all", or exactly the session's value. */
  predicate MatchesChoice(value: string, selected: string) {
    selected == All || value == selected
  }

  /** The predicate `filterSessions` passes to `filter`. */
  predicate Keep(s: Session, query: string, category: string, difficulty: string): (kept: bool)
    ensures query == "" && category == All && difficulty == All ==> kept
    ensures category != All && s.category != category ==> !kept
    ensures difficulty != All && s.difficulty != difficulty ==> !kept
  {
    MatchesSearch(s, query) && MatchesChoice(s.category, category) && MatchesChoice(s.difficulty, difficulty)
  }

  /** `filterSessions`: the sessions that pass the search and both selections, in order. */
  function FilterSessions(sessions: seq<Session>, query: string, category: string, difficulty: string)
    : (r: seq<Session>)
    ensures IsSubsequence(r, sessions)
    ensures forall i :: 0 <= i < |r| ==> Keep(r[i], query, category, difficulty)
    ensures forall i :: 0 <= i < |sessions| && Keep(sessions[i], query, category, difficulty) ==>
      sessions[i] in r
    ensures multiset(r) <= multiset(sessions)
    ensures forall i :: 0 <= i < |sessions| && Keep(sessions[i], query, category, difficulty) ==>
      multiset(r)[sessions[i]] == multiset(sessions)[sessions[i]]
  {
    Filter(sessions, s => Keep(s, query, category, difficulty))
  }

  /** With no query and both selections on "all", the dashboard shows every session. */
  lemma NoFilterShowsAll(sessions: seq<Session>)
    ensures FilterSessions(sessions, "", All, All) == sessions
  {
    FilterKeepsAll(sessions, s => Keep(s, "", All, All));
  }

  /** Search ignores the case of the query: lower-casing it first changes nothing. */
  lemma SearchIgnoresQueryCase(s: Session, query: string)
    ensures MatchesSearch(s, Lower(query)) == MatchesSearch(s, query)
  {
    LowerIdempotent(query);
  }

  /** The featured strip: at most the first three filtered sessions. */
  function Featured(filtered: seq<Session>): (r: seq<Session>)
    ensures |r| <= 3 && IsSubsequence(r, filtered)
    ensures |r| == if |filtered| < 3 then |filtered| else 3
    ensures r == filtered[..|r|]
  {
    var r := Take(filtered, 3);
    PrefixIsSubsequence(filtered, |r|);
    r
  }

  lemma {:induction false} PrefixIsSubsequence(s: seq<Session>, n: nat)
    requires n <= |s|
    ensures IsSubsequence(s[..n], s)
  {
    if n > 0 {
      assert s[..n][1..] == s[1..][..n - 1];
      PrefixIsSubsequence(s[1..], n - 1);
    }
  }

  /** A card's tag row: the first three tags, then a "+n" badge for the n tags left over. */
  datatype TagPreview = TagPreview(shown: seq<string>, more: Option<nat>)

  function PreviewTags(tags: seq<string>): (p: TagPreview)
    ensures |p.shown| <= 3 && |p.shown| <= |tags| && p.shown == tags[..|p.shown|]
    ensures |p.shown| == if |tags| < 3 then |tags| else 3
    ensures p.more.Some? <==> |tags| > 3
    ensures p.more.Some? ==> p.more.value == |tags| - 3
    ensures |p.shown| + p.more.GetOr(0) == |tags|
  {
    if |tags| > 3 then TagPreview(tags[..3], Some(|tags| - 3)) else TagPreview(tags, None)
  }

  /** `getWelcomeMessage` for the local hour of the day. */
  function Greeting(hour: nat): (g: string)
    ensures hour < 12 <==> g == "Good morning"
    ensures 12 <= hour < 17 <==> g == "Good afternoon"
    ensures 17 <= hour <==> g == "Good evening"
  {
    if hour < 12 then "Good morning"
    else if hour < 17 then "Good afternoon"
    else "Good evening"
  }
}
