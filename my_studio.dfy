/** The studio page: the caller's sessions split into drafts and published, the counts shown
    above them, the tab that chooses which list is visible, and the local delete. */
module MyStudio {
  import opened Lists
  import opened SessionSchema

  predicate IsDraft(s: Session) {
    s.status == "draft"
  }

  predicate IsPublished(s: Session) {
    s.status == "published"
  }

  /** `draftSessions`: the drafts, in the order the list has them. */
  function Drafts(sessions: seq<Session>): (r: seq<Session>)
    ensures IsSubsequence(r, sessions)
    ensures forall i :: 0 <= i < |r| ==> r[i].status == "draft"
    ensures forall i :: 0 <= i < |sessions| && sessions[i].status == "draft" ==> sessions[i] in r
    ensures multiset(r) <= multiset(sessions)
    ensures forall i :: 0 <= i < |sessions| && sessions[i].status == "draft" ==>
      multiset(r)[sessions[i]] == multiset(sessions)[sessions[i]]
  {
    Filter(sessions, IsDraft)
  }

  /** `publishedSessions`: the published sessions, in the order the list has them. */
  function Published(sessions: seq<Session>): (r: seq<Session>)
    ensures IsSubsequence(r, sessions)
    ensures forall i :: 0 <= i < |r| ==> r[i].status == "published"
    ensures forall i :: 0 <= i < |sessions| && sessions[i].status == "published" ==> sessions[i] in r
    ensures multiset(r) <= multiset(sessions)
    ensures forall i :: 0 <= i < |sessions| && sessions[i].status == "published" ==>
      multiset(r)[sessions[i]] == multiset(sessions)[sessions[i]]
  {
    Filter(sessions, IsPublished)
  }

  /** No session is in both lists, and when every status is "draft" or "published" the two
      lists together have as many entries as the whole list. */
  lemma SplitIsPartition(sessions: seq<Session>)
    ensures forall x :: x in Drafts(sessions) ==> x !in Published(sessions)
    ensures (forall i :: 0 <= i < |sessions| ==> sessions[i].status in Statuses) ==>
      |Drafts(sessions)| + |Published(sessions)| == |sessions|
  {
    if forall i :: 0 <= i < |sessions| ==> sessions[i].status in Statuses {
      FilterSplit(sessions, IsDraft, IsPublished);
    }
  }

  /** The three numbers of the stats row. */
  datatype Stats = Stats(total: nat, published: nat, drafts: nat)

  function StudioStats(sessions: seq<Session>): (st: Stats)
    ensures st.total == |sessions|
    ensures st.published == |Published(sessions)| && st.drafts == |Drafts(sessions)|
    ensures st.published <= st.total && st.drafts <= st.total
    ensures (forall i :: 0 <= i < |sessions| ==> sessions[i].status in Statuses) ==>
      st.published + st.drafts == st.total
  {
    SplitIsPartition(sessions);
    Stats(|sessions|, |Published(sessions)|, |Drafts(sessions)|)
  }

  /** The list the page shows: the drafts on the "drafts" tab, the published list otherwise. */
  function Visible(sessions: seq<Session>, activeTab: string): (r: seq<Session>)
    ensures activeTab == "drafts" ==> r == Drafts(sessions)
    ensures activeTab != "drafts" ==> r == Published(sessions)
    ensures forall i :: 0 <= i < |r| ==> (r[i].status == "draft" <==> activeTab == "drafts")
  {
    if activeTab == "drafts" then Drafts(sessions) else Published(sessions)
  }

  /** `sessions.filter(s => s._id !== id)`. */
  function WithoutId(sessions: seq<Session>, id: nat): (r: seq<Session>)
    ensures IsSubsequence(r, sessions)
    ensures forall i :: 0 <= i < |r| ==> r[i].id != id
    ensures forall i :: 0 <= i < |sessions| && sessions[i].id != id ==> sessions[i] in r
    ensures multiset(r) <= multiset(sessions)
    ensures forall i :: 0 <= i < |sessions| && sessions[i].id != id ==>
      multiset(r)[sessions[i]] == multiset(sessions)[sessions[i]]
  {
    Filter(sessions, (s: Session) => s.id != id)
  }

  /** The page's own state. */
  class Studio {
    var sessions: seq<Session>
    var activeTab: string

    constructor (loaded: seq<Session>)
      ensures sessions == loaded && activeTab == "drafts"
    {
      sessions := loaded;
      activeTab := "drafts";
    }

    /** `handleDelete`: the entries with the deleted session's `_id` leave the local list
        only when the user confirmed and the server answered with an ok status. */
    method Delete(target: Session, confirmed: bool, responseOk: bool)
      modifies this
      ensures confirmed && responseOk ==> sessions == WithoutId(old(sessions), target.id)
      ensures !(confirmed && responseOk) ==> sessions == old(sessions)
      ensures activeTab == old(activeTab)
    {
      if !confirmed {
        return;
      }
      if responseOk {
        sessions := WithoutId(sessions, target.id);
      }
    }
  }
}
