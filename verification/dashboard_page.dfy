/**
 * The dashboard: the campaign, session, note and character lists it keeps in
 * step with the server (replace by id, append, delete by id), the selected
 * campaign and session and how they fall back after a delete or a load, the
 * ordering of loaded sessions, and the submit guards. Page state is a
 * `Dashboard` object; what each API call returned is a parameter.
 */
module DashboardPage {
  import opened Common

  // ---------------------------------------------------------------------------
  // List maintenance, for any record with an id
  // ---------------------------------------------------------------------------

  /** `prev.map((item) => (item.id === updated.id ? updated : item))`. */
  function ReplaceById<T>(items: seq<T>, updated: T, idOf: T -> int): (r: seq<T>)
    ensures |r| == |items|
    ensures forall i :: 0 <= i < |items| && idOf(items[i]) == idOf(updated) ==> r[i] == updated
    ensures forall i :: 0 <= i < |items| && idOf(items[i]) != idOf(updated) ==> r[i] == items[i]
  {
    MapSeq(items, (x: T) => if idOf(x) == idOf(updated) then updated else x)
  }

  /** `prev.filter((item) => item.id !== id)`. */
  function DeleteById<T>(items: seq<T>, id: int, idOf: T -> int): seq<T> {
    Filter(items, (x: T) => idOf(x) != id)
  }

  /** `list[0]?.id ?? null`. */
  function FirstId<T>(items: seq<T>, idOf: T -> int): (r: Option<int>)
    ensures r.None? <==> items == []
    ensures r.Some? ==> r.value == idOf(items[0])
  {
    if items == [] then None else Some(idOf(items[0]))
  }

  /** `list.some((item) => item.id === id)`. */
  predicate ContainsId<T>(items: seq<T>, id: int, idOf: T -> int) {
    exists i :: 0 <= i < |items| && idOf(items[i]) == id
  }

  /** A selection is null or names a listed item. */
  predicate SelectionValid<T>(selected: Option<int>, items: seq<T>, idOf: T -> int) {
    selected.None? || ContainsId(items, selected.value, idOf)
  }

  /** Replacing keeps the length, the order and every id. */
  lemma ReplaceKeepsIds<T>(items: seq<T>, updated: T, idOf: T -> int)
    ensures MapSeq(ReplaceById(items, updated, idOf), idOf) == MapSeq(items, idOf)
  {
  }

  /** Replacing twice with the same record is replacing once. */
  lemma ReplaceIdempotent<T>(items: seq<T>, updated: T, idOf: T -> int)
    ensures ReplaceById(ReplaceById(items, updated, idOf), updated, idOf) == ReplaceById(items, updated, idOf)
  {
  }

  /** A record whose id is not listed changes nothing. */
  lemma ReplaceMissingIsIdentity<T>(items: seq<T>, updated: T, idOf: T -> int)
    requires !ContainsId(items, idOf(updated), idOf)
    ensures ReplaceById(items, updated, idOf) == items
  {
  }

  /**
   * Deleting removes every item with the id, keeps every other item, and
   * keeps the survivors in order; it shortens the list by exactly the number
   * of items that had the id.
   */
  lemma DeleteRemovesOnlyId<T>(items: seq<T>, id: int, idOf: T -> int)
    ensures var r := DeleteById(items, id, idOf);
      (forall i :: 0 <= i < |r| ==> idOf(r[i]) != id && r[i] in items) &&
      (forall i :: 0 <= i < |items| && idOf(items[i]) != id ==> items[i] in r) &&
      IsSubsequence(r, items) &&
      |r| + Count(items, (x: T) => idOf(x) == id) == |items|
  {
    FilterMembers(items, (x: T) => idOf(x) != id);
    FilterIsSubsequence(items, (x: T) => idOf(x) != id);
    FilterCountComplement(items, (x: T) => idOf(x) != id, (x: T) => idOf(x) == id);
  }

  /** Deleting an id that is not listed changes nothing. */
  lemma {:induction false} DeleteMissingIsIdentity<T>(items: seq<T>, id: int, idOf: T -> int)
    requires !ContainsId(items, id, idOf)
    ensures DeleteById(items, id, idOf) == items
  {
    if items != [] {
      assert idOf(items[0]) != id;
      assert !ContainsId(items[1..], id, idOf);
      DeleteMissingIsIdentity(items[1..], id, idOf);
      assert items == [items[0]] + items[1..];
    }
  }

  /** Creating a record with a fresh id and deleting it again restores the list. */
  lemma DeleteUndoesAppend<T>(items: seq<T>, created: T, idOf: T -> int)
    requires !ContainsId(items, idOf(created), idOf)
    ensures DeleteById(items + [created], idOf(created), idOf) == items
  {
    FilterAppendOne(items, created, (x: T) => idOf(x) != idOf(created));
    DeleteMissingIsIdentity(items, idOf(created), idOf);
  }

  /** Deleting twice is deleting once. */
  lemma DeleteIdempotent<T>(items: seq<T>, id: int, idOf: T -> int)
    ensures DeleteById(DeleteById(items, id, idOf), id, idOf) == DeleteById(items, id, idOf)
  {
    var r := DeleteById(items, id, idOf);
    DeleteRemovesOnlyId(items, id, idOf);
    DeleteMissingIsIdentity(r, id, idOf);
  }

  /** The selection rule after deleting `id`: a deleted selection moves to the first survivor. */
  function SelectionAfterDelete<T>(selected: Option<int>, id: int, next: seq<T>, idOf: T -> int): Option<int> {
    if selected == Some(id) then FirstId(next, idOf) else selected
  }

  /** Deleting keeps a valid selection valid. */
  lemma DeleteKeepsSelectionValid<T>(selected: Option<int>, items: seq<T>, id: int, idOf: T -> int)
    requires SelectionValid(selected, items, idOf)
    ensures var next := DeleteById(items, id, idOf);
      SelectionValid(SelectionAfterDelete(selected, id, next, idOf), next, idOf)
  {
    var next := DeleteById(items, id, idOf);
    if selected.Some? && selected.value != id {
      DeleteRemovesOnlyId(items, id, idOf);
      var i :| 0 <= i < |items| && idOf(items[i]) == selected.value;
      assert items[i] in next;
      var j :| 0 <= j < |next| && next[j] == items[i];
    } else if selected.Some? && next != [] {
      assert idOf(next[0]) == FirstId(next, idOf).value;
    }
  }

  /** The selection rule after a load: keep a truthy selection still listed, else take the first. */
  function SelectionAfterLoad<T>(selected: Option<int>, list: seq<T>, idOf: T -> int): (r: Option<int>)
    ensures SelectionValid(r, list, idOf)
    ensures IdTruthy(selected) && ContainsId(list, selected.value, idOf) ==> r == selected
    ensures !(IdTruthy(selected) && ContainsId(list, selected.value, idOf)) ==> r == FirstId(list, idOf)
  {
    if !IdTruthy(selected) || !ContainsId(list, selected.value, idOf) then
      var r := FirstId(list, idOf);
      assert r.Some? ==> idOf(list[0]) == r.value;
      r
    else selected
  }

  // ---------------------------------------------------------------------------
  // Records
  // ---------------------------------------------------------------------------

  datatype CampaignItem = CampaignItem(id: nat, name: string, description: string, worldStory: string)
  datatype SessionItem = SessionItem(id: nat, number: int, date: string, description: string, campaign: nat)
  datatype NoteItem = NoteItem(id: nat, text: string, session: nat)
  datatype CharacterItem = CharacterItem(id: nat, name: string, characterClass: int, level: int)
  datatype ClassItem = ClassItem(id: nat, name: string)

  function CampaignId(c: CampaignItem): int { c.id }
  function SessionId(s: SessionItem): int { s.id }
  function NoteId(n: NoteItem): int { n.id }
  function CharacterId(c: CharacterItem): int { c.id }

  // ---------------------------------------------------------------------------
  // Sessions sorted by number
  // ---------------------------------------------------------------------------

  predicate SortedByNumber(s: seq<SessionItem>) {
    forall i, j :: 0 <= i < j < |s| ==> s[i].number <= s[j].number
  }

  /** The sessions numbered `k`, in list order. */
  function WithNumber(s: seq<SessionItem>, k: int): seq<SessionItem> {
    Filter(s, (x: SessionItem) => x.number == k)
  }

  /** `after` keeps the relative order of sessions that share a number in `before`. */
  ghost predicate KeepsTieOrder(after: seq<SessionItem>, before: seq<SessionItem>) {
    forall k :: WithNumber(after, k) == WithNumber(before, k)
  }

  /**
   * Exchanging two neighbours with different numbers keeps every tie in
   * order, since at most one of the two is numbered `k`.
   */
  lemma SwapKeepsTieOrder(s: seq<SessionItem>, j: int)
    requires 0 < j < |s| && s[j - 1].number != s[j].number
    ensures KeepsTieOrder(s[j - 1 := s[j]][j := s[j - 1]], s)
  {
    var t := s[j - 1 := s[j]][j := s[j - 1]];
    var pre, post := s[..j - 1], s[j + 1..];
    assert s == pre + [s[j - 1]] + [s[j]] + post;
    assert t == pre + [s[j]] + [s[j - 1]] + post;
    forall k
      ensures WithNumber(t, k) == WithNumber(s, k)
    {
      var keep := (x: SessionItem) => x.number == k;
      FilterConcat(pre + [s[j - 1]] + [s[j]], post, keep);
      FilterConcat(pre + [s[j - 1]], [s[j]], keep);
      FilterConcat(pre, [s[j - 1]], keep);
      FilterConcat(pre + [s[j]] + [s[j - 1]], post, keep);
      FilterConcat(pre + [s[j]], [s[j - 1]], keep);
      FilterConcat(pre, [s[j]], keep);
    }
  }

  /**
   * `sessionList.sort((a, b) => a.number - b.number)`, in place (insertion
   * sort). The sort is stable, as `Array.prototype.sort` is: sessions that
   * share a number keep their order, so the first of the lowest-numbered
   * sessions in the reply comes first.
   */
  method SortByNumber(a: array<SessionItem>)
    modifies a
    ensures SortedByNumber(a[..])
    ensures multiset(a[..]) == multiset(old(a[..]))
    ensures KeepsTieOrder(a[..], old(a[..]))
  {
    if a.Length == 0 {
      return;
    }
    var i := 1;
    while i < a.Length
      invariant 1 <= i <= a.Length
      invariant forall p, q :: 0 <= p < q < i ==> a[p].number <= a[q].number
      invariant multiset(a[..]) == multiset(old(a[..]))
      invariant KeepsTieOrder(a[..], old(a[..]))
    {
      InsertInto(a, i);
      i := i + 1;
    }
    assert a[..] == a[..a.Length];
  }

  /** Moves `a[i]` left into the sorted prefix `a[..i]`, past strictly greater numbers only. */
  method InsertInto(a: array<SessionItem>, i: nat)
    requires i < a.Length
    requires forall p, q :: 0 <= p < q < i ==> a[p].number <= a[q].number
    modifies a
    ensures forall p, q :: 0 <= p < q <= i ==> a[p].number <= a[q].number
    ensures multiset(a[..]) == multiset(old(a[..]))
    ensures KeepsTieOrder(a[..], old(a[..]))
  {
    var j := i;
    while j > 0 && a[j - 1].number > a[j].number
      invariant 0 <= j <= i
      invariant forall p, q :: 0 <= p < q <= i && q != j ==> a[p].number <= a[q].number
      invariant multiset(a[..]) == multiset(old(a[..]))
      invariant KeepsTieOrder(a[..], old(a[..]))
    {
      SwapDown(a, j);
      j := j - 1;
    }
  }

  /** Exchanges `a[j - 1]` and `a[j]`, two sessions with different numbers. */
  method SwapDown(a: array<SessionItem>, j: nat)
    requires 0 < j < a.Length && a[j - 1].number != a[j].number
    modifies a
    ensures a[..] == old(a[..])[j - 1 := old(a[j])][j := old(a[j - 1])]
    ensures multiset(a[..]) == multiset(old(a[..]))
    ensures KeepsTieOrder(a[..], old(a[..]))
  {
    SwapKeepsTieOrder(a[..], j);
    a[j - 1], a[j] := a[j], a[j - 1];
  }

  // ---------------------------------------------------------------------------
  // Drafts and payloads
  // ---------------------------------------------------------------------------

  datatype CampaignDraft = CampaignDraft(name: string, description: string, worldStory: string)
  const EmptyCampaignDraft: CampaignDraft := CampaignDraft("", "", "")

  /** The session form; the date field is kept as entered (time zones are not modelled). */
  datatype SessionDraft = SessionDraft(number: JsNumber, date: string, description: string)
  datatype SessionPayload = SessionPayload(number: JsNumber, date: string, description: string, campaign: int)

  datatype NoteDraft = NoteDraft(text: string)
  datatype NotePayload = NotePayload(text: string, session: int)

  datatype CharacterDraft = CharacterDraft(name: string, characterClass: int, level: JsNumber)
  datatype CharacterPayload = CharacterPayload(name: string, characterClass: int, level: int)

  /**
   * The session number offered after a save: one more than the sessions now
   * listed. When the listed numbers run no higher than the count, it is a
   * number no listed session has.
   */
  function NextSessionNumber(sessions: seq<SessionItem>): (r: int)
    ensures r >= 1
    ensures (forall i :: 0 <= i < |sessions| ==> sessions[i].number <= |sessions|) ==>
      forall i :: 0 <= i < |sessions| ==> sessions[i].number < r
  {
    |sessions| + 1
  }

  /**
   * The number the page computes after a save: the count of sessions listed
   * before the save, plus one, because the handler reads the list it was
   * rendered with.
   */
  function StaleNextSessionNumber(before: seq<SessionItem>): int {
    |before| + 1
  }

  /**
   * After creating the session the form proposed, the stale number proposes
   * the created session's number again, while the next number does not.
   */
  lemma StaleNumberRepeatsCreated(before: seq<SessionItem>, created: SessionItem)
    requires created.number == |before| + 1
    requires forall i :: 0 <= i < |before| ==> before[i].number <= |before|
    ensures StaleNextSessionNumber(before) == created.number
    ensures NextSessionNumber(before + [created]) != created.number
    ensures forall s :: s in before + [created] ==> s.number < NextSessionNumber(before + [created])
  {
    var after := before + [created];
    forall i | 0 <= i < |after|
      ensures after[i].number <= |after|
    {
      if i < |before| {
        assert after[i] == before[i];
      }
    }
  }

  /** Why a submit stopped before calling the server. */
  datatype DashboardError =
    | ChooseCampaignFirst
    | ChooseSessionFirst
    | ChooseCharacterClass
    | EnterCharacterName
    | ServerError(message: string)

  /** `handleCharacterSubmit`'s checks, in order, and the payload it sends. */
  function CharacterPayloadOf(d: CharacterDraft): (r: Checked<CharacterPayload>)
    ensures d.characterClass == 0 ==> r == Refused(ChooseCharacterClass)
    ensures d.characterClass != 0 && AllWhitespace(d.name) ==> r == Refused(EnterCharacterName)
    ensures r.Ready? <==> d.characterClass != 0 && !AllWhitespace(d.name)
    ensures r.Ready? ==> r.value.name == d.name && r.value.characterClass == d.characterClass
    ensures r.Ready? ==> r.value.level >= 1 || (d.level.Num? && d.level.value < 0)
  {
    TrimEmptyIffWhitespace(d.name);
    if d.characterClass == 0 then Refused(ChooseCharacterClass)
    else if Trim(d.name) == [] then Refused(EnterCharacterName)
    else Ready(CharacterPayload(d.name, d.characterClass, NumberOrOne(d.level)))
  }

  datatype Checked<T> = Ready(value: T) | Refused(error: DashboardError)

  /** What a create or update call returned. */
  datatype Saved<T> = Saved(item: T) | SaveFailed(message: string)

  /** How a delete call ended. */
  datatype CallResult = Succeeded | Failed(message: string)

  // ---------------------------------------------------------------------------
  // The page
  // ---------------------------------------------------------------------------

  class Dashboard {
    var campaigns: seq<CampaignItem>
    var selectedCampaignId: Option<int>
    var sessions: seq<SessionItem>
    var selectedSessionId: Option<int>
    var notes: seq<NoteItem>
    var characters: seq<CharacterItem>
    var campaignDraft: CampaignDraft
    var campaignEditingId: Option<int>
    var sessionDraft: SessionDraft
    var sessionEditingId: Option<int>
    var noteDraft: NoteDraft
    var noteEditingId: Option<int>
    var characterDraft: CharacterDraft
    var characterEditingId: Option<int>
    var error: Option<DashboardError>

    /** Both selections name a listed item, or are null. */
    ghost predicate Valid()
      reads this
    {
      SelectionValid(selectedCampaignId, campaigns, CampaignId) &&
      SelectionValid(selectedSessionId, sessions, SessionId)
    }

    constructor (today: string)
      ensures Valid()
      ensures campaigns == [] && sessions == [] && notes == [] && characters == []
      ensures selectedCampaignId.None? && selectedSessionId.None?
    {
      campaigns, sessions, notes, characters := [], [], [], [];
      selectedCampaignId, selectedSessionId := None, None;
      campaignDraft := EmptyCampaignDraft;
      campaignEditingId := None;
      sessionDraft := SessionDraft(Num(1), today, "");
      sessionEditingId := None;
      noteDraft := NoteDraft("");
      noteEditingId := None;
      characterDraft := CharacterDraft("", 0, Num(1));
      characterEditingId := None;
      error := None;
    }

    /**
     * The page's first `load`: campaigns and characters arrive together
     * (`Promise.all`). Success replaces both lists and reconciles the
     * campaign selection; any failure shows its message and keeps every list
     * and the selection.
     */
    method LoadCampaigns(fetched: Fetched<(seq<CampaignItem>, seq<CharacterItem>)>)
      requires Valid()
      modifies this`campaigns, this`selectedCampaignId, this`characters, this`error
      ensures Valid()
      ensures fetched.FetchFailed? ==>
        error == Some(ServerError(fetched.message)) && campaigns == old(campaigns) &&
        characters == old(characters) && selectedCampaignId == old(selectedCampaignId)
      ensures fetched.Fetched? ==>
        campaigns == fetched.value.0 && characters == fetched.value.1 && error == old(error) &&
        selectedCampaignId == SelectionAfterLoad(old(selectedCampaignId), fetched.value.0, CampaignId)
    {
      if fetched.FetchFailed? {
        error := Some(ServerError(fetched.message));
        return;
      }
      var list := fetched.value.0;
      campaigns := list;
      characters := fetched.value.1;
      if !IdTruthy(selectedCampaignId) || !ContainsId(list, selectedCampaignId.value, CampaignId) {
        selectedCampaignId := FirstId(list, CampaignId);
      }
    }

    /**
     * The session list arrives for the selected campaign: it is sorted by
     * number in place, then the session selection is reconciled. Without a
     * selected campaign the list and the selection are cleared; a failed
     * fetch shows its message and keeps both.
     */
    method LoadSessions(fetched: Fetched<array<SessionItem>>)
      requires Valid()
      modifies this`sessions, this`selectedSessionId, this`error, if fetched.Fetched? then {fetched.value} else {}
      ensures Valid()
      ensures !IdTruthy(selectedCampaignId) ==> sessions == [] && selectedSessionId.None? && error == old(error)
      ensures IdTruthy(selectedCampaignId) && fetched.FetchFailed? ==>
        error == Some(ServerError(fetched.message)) && sessions == old(sessions) &&
        selectedSessionId == old(selectedSessionId)
      ensures IdTruthy(selectedCampaignId) && fetched.Fetched? ==>
        var list := fetched.value;
        SortedByNumber(sessions) && multiset(sessions) == multiset(old(list[..])) &&
        KeepsTieOrder(sessions, old(list[..])) && error == old(error) &&
        selectedSessionId == SelectionAfterLoad(old(selectedSessionId), sessions, SessionId)
    {
      if !IdTruthy(selectedCampaignId) {
        sessions := [];
        selectedSessionId := None;
        return;
      }
      if fetched.FetchFailed? {
        error := Some(ServerError(fetched.message));
        return;
      }
      var list := fetched.value;
      SortByNumber(list);
      sessions := list[..];
      if !IdTruthy(selectedSessionId) || !ContainsId(sessions, selectedSessionId.value, SessionId) {
        selectedSessionId := FirstId(sessions, SessionId);
      }
    }

    /**
     * The note list arrives for the selected session; without one the notes
     * are cleared, and a failed fetch shows its message and keeps them.
     */
    method LoadNotes(fetched: Fetched<seq<NoteItem>>)
      modifies this`notes, this`error
      ensures !IdTruthy(selectedSessionId) ==> notes == [] && error == old(error)
      ensures IdTruthy(selectedSessionId) && fetched.FetchFailed? ==>
        error == Some(ServerError(fetched.message)) && notes == old(notes)
      ensures IdTruthy(selectedSessionId) && fetched.Fetched? ==> notes == fetched.value && error == old(error)
    {
      if !IdTruthy(selectedSessionId) {
        notes := [];
        return;
      }
      if fetched.FetchFailed? {
        error := Some(ServerError(fetched.message));
        return;
      }
      notes := fetched.value;
    }

    /** `handleCampaignSubmit`: update the edited campaign in place, or append the created one and select it. */
    method CampaignSubmit(result: Saved<CampaignItem>)
      requires Valid()
      modifies this`campaigns, this`selectedCampaignId, this`campaignEditingId, this`campaignDraft, this`error
      ensures Valid()
      ensures result.SaveFailed? ==>
        error == Some(ServerError(result.message)) && campaigns == old(campaigns) &&
        selectedCampaignId == old(selectedCampaignId) && campaignEditingId == old(campaignEditingId) &&
        campaignDraft == old(campaignDraft)
      ensures result.Saved? ==> error.None? && campaignDraft == EmptyCampaignDraft
      ensures result.Saved? && IdTruthy(old(campaignEditingId)) ==>
        campaigns == ReplaceById(old(campaigns), result.item, CampaignId) &&
        campaignEditingId.None? && selectedCampaignId == old(selectedCampaignId)
      ensures result.Saved? && !IdTruthy(old(campaignEditingId)) ==>
        campaigns == old(campaigns) + [result.item] &&
        selectedCampaignId == Some(result.item.id as int) && campaignEditingId == old(campaignEditingId)
    {
      error := None;
      if result.SaveFailed? {
        error := Some(ServerError(result.message));
        return;
      }
      if IdTruthy(campaignEditingId) {
        ReplaceKeepsIds(campaigns, result.item, CampaignId);
        KeepsSelection(selectedCampaignId, campaigns, ReplaceById(campaigns, result.item, CampaignId), CampaignId);
        campaigns := ReplaceById(campaigns, result.item, CampaignId);
        campaignEditingId := None;
      } else {
        campaigns := campaigns + [result.item];
        selectedCampaignId := Some(result.item.id);
        assert CampaignId(campaigns[|campaigns| - 1]) == result.item.id;
      }
      campaignDraft := EmptyCampaignDraft;
    }

    /**
     * `handleCampaignDelete`: remove the campaign; if it was selected, select
     * the first remaining one and clear the sessions, their selection and
     * the notes.
     */
    method CampaignDelete(id: int, result: CallResult)
      requires Valid()
      modifies this`campaigns, this`selectedCampaignId, this`sessions, this`selectedSessionId, this`notes, this`error
      ensures Valid()
      ensures result.Failed? ==>
        error == Some(ServerError(result.message)) && campaigns == old(campaigns) &&
        selectedCampaignId == old(selectedCampaignId) && sessions == old(sessions) &&
        selectedSessionId == old(selectedSessionId) && notes == old(notes)
      ensures result.Succeeded? ==>
        error.None? &&
        campaigns == DeleteById(old(campaigns), id, CampaignId) &&
        selectedCampaignId == SelectionAfterDelete(old(selectedCampaignId), id, campaigns, CampaignId)
      ensures result.Succeeded? && old(selectedCampaignId) == Some(id) ==>
        sessions == [] && selectedSessionId.None? && notes == []
      ensures result.Succeeded? && old(selectedCampaignId) != Some(id) ==>
        sessions == old(sessions) && selectedSessionId == old(selectedSessionId) && notes == old(notes)
    {
      error := None;
      if result.Failed? {
        error := Some(ServerError(result.message));
        return;
      }
      var next := DeleteById(campaigns, id, CampaignId);
      DeleteKeepsSelectionValid(selectedCampaignId, campaigns, id, CampaignId);
      if selectedCampaignId == Some(id) {
        selectedCampaignId := FirstId(next, CampaignId);
        sessions := [];
        selectedSessionId := None;
        notes := [];
      }
      campaigns := next;
    }

    /**
     * `handleSessionSubmit`: needs a selected campaign; update in place or
     * append and select; the form resets to the next session number and the
     * current time `now`.
     */
    method SessionSubmit(now: string, result: Saved<SessionItem>) returns (sent: Option<SessionPayload>)
      requires Valid()
      modifies this`sessions, this`selectedSessionId, this`sessionEditingId, this`sessionDraft, this`error
      ensures Valid()
      ensures !IdTruthy(selectedCampaignId) ==>
        sent.None? && error == Some(ChooseCampaignFirst) && sessions == old(sessions) &&
        selectedSessionId == old(selectedSessionId) && sessionDraft == old(sessionDraft)
      ensures IdTruthy(selectedCampaignId) ==>
        sent == Some(SessionPayload(old(sessionDraft).number, old(sessionDraft).date,
                                    old(sessionDraft).description, selectedCampaignId.value))
      ensures sent.Some? && result.SaveFailed? ==>
        error == Some(ServerError(result.message)) && sessions == old(sessions) &&
        selectedSessionId == old(selectedSessionId) && sessionDraft == old(sessionDraft)
      ensures sent.Some? && result.Saved? && IdTruthy(old(sessionEditingId)) ==>
        sessions == ReplaceById(old(sessions), result.item, SessionId) &&
        sessionEditingId.None? && selectedSessionId == old(selectedSessionId)
      ensures sent.Some? && result.Saved? && !IdTruthy(old(sessionEditingId)) ==>
        sessions == old(sessions) + [result.item] && selectedSessionId == Some(result.item.id as int)
      ensures !(sent.Some? && result.Saved? && IdTruthy(old(sessionEditingId))) ==> sessionEditingId == old(sessionEditingId)
      ensures sent.Some? && result.Saved? ==>
        error.None? && sessionDraft == SessionDraft(Num(NextSessionNumber(sessions)), now, "")
    {
      error := None;
      if !IdTruthy(selectedCampaignId) {
        error := Some(ChooseCampaignFirst);
        return None;
      }
      sent := Some(SessionPayload(sessionDraft.number, sessionDraft.date, sessionDraft.description, selectedCampaignId.value));
      if result.SaveFailed? {
        error := Some(ServerError(result.message));
        return;
      }
      if IdTruthy(sessionEditingId) {
        ReplaceKeepsIds(sessions, result.item, SessionId);
        KeepsSelection(selectedSessionId, sessions, ReplaceById(sessions, result.item, SessionId), SessionId);
        sessions := ReplaceById(sessions, result.item, SessionId);
        sessionEditingId := None;
      } else {
        sessions := sessions + [result.item];
        selectedSessionId := Some(result.item.id);
        assert SessionId(sessions[|sessions| - 1]) == result.item.id;
      }
      sessionDraft := SessionDraft(Num(NextSessionNumber(sessions)), now, "");
    }

    /** `handleSessionDelete`: a deleted selection moves to the first remaining session and the notes are cleared. */
    method SessionDelete(id: int, result: CallResult)
      requires Valid()
      modifies this`sessions, this`selectedSessionId, this`notes, this`error
      ensures Valid()
      ensures result.Failed? ==>
        error == Some(ServerError(result.message)) && sessions == old(sessions) &&
        selectedSessionId == old(selectedSessionId) && notes == old(notes)
      ensures result.Succeeded? ==>
        error.None? &&
        sessions == DeleteById(old(sessions), id, SessionId) &&
        selectedSessionId == SelectionAfterDelete(old(selectedSessionId), id, sessions, SessionId)
      ensures result.Succeeded? ==> notes == (if old(selectedSessionId) == Some(id) then [] else old(notes))
    {
      error := None;
      if result.Failed? {
        error := Some(ServerError(result.message));
        return;
      }
      var next := DeleteById(sessions, id, SessionId);
      DeleteKeepsSelectionValid(selectedSessionId, sessions, id, SessionId);
      if selectedSessionId == Some(id) {
        selectedSessionId := FirstId(next, SessionId);
        notes := [];
      }
      sessions := next;
    }

    /** `handleNoteSubmit`: needs a selected session; update in place or append. */
    method NoteSubmit(result: Saved<NoteItem>) returns (sent: Option<NotePayload>)
      modifies this`notes, this`noteEditingId, this`noteDraft, this`error
      ensures !IdTruthy(selectedSessionId) ==>
        sent.None? && error == Some(ChooseSessionFirst) && notes == old(notes) && noteDraft == old(noteDraft)
      ensures IdTruthy(selectedSessionId) ==> sent == Some(NotePayload(old(noteDraft).text, selectedSessionId.value))
      ensures sent.Some? && result.SaveFailed? ==>
        error == Some(ServerError(result.message)) && notes == old(notes) && noteDraft == old(noteDraft)
      ensures sent.Some? && result.Saved? && IdTruthy(old(noteEditingId)) ==>
        notes == ReplaceById(old(notes), result.item, NoteId) && noteEditingId.None?
      ensures sent.Some? && result.Saved? && !IdTruthy(old(noteEditingId)) ==>
        notes == old(notes) + [result.item]
      ensures !(sent.Some? && result.Saved? && IdTruthy(old(noteEditingId))) ==> noteEditingId == old(noteEditingId)
      ensures sent.Some? && result.Saved? ==> error.None? && noteDraft == NoteDraft("")
    {
      error := None;
      if !IdTruthy(selectedSessionId) {
        error := Some(ChooseSessionFirst);
        return None;
      }
      sent := Some(NotePayload(noteDraft.text, selectedSessionId.value));
      if result.SaveFailed? {
        error := Some(ServerError(result.message));
        return;
      }
      if IdTruthy(noteEditingId) {
        notes := ReplaceById(notes, result.item, NoteId);
        noteEditingId := None;
      } else {
        notes := notes + [result.item];
      }
      noteDraft := NoteDraft("");
    }

    /** `handleNoteDelete`. */
    method NoteDelete(id: int, result: CallResult)
      modifies this`notes, this`error
      ensures result.Failed? ==> error == Some(ServerError(result.message)) && notes == old(notes)
      ensures result.Succeeded? ==> error.None? && notes == DeleteById(old(notes), id, NoteId)
    {
      error := None;
      if result.Failed? {
        error := Some(ServerError(result.message));
        return;
      }
      notes := DeleteById(notes, id, NoteId);
    }

    /** Once classes are known, a draft without a class gets the first one. */
    method PreselectClass(classes: seq<ClassItem>)
      modifies this`characterDraft
      ensures characterDraft.name == old(characterDraft).name && characterDraft.level == old(characterDraft).level
      ensures characterDraft.characterClass ==
        (if old(characterDraft).characterClass == 0 && classes != [] then classes[0].id else old(characterDraft).characterClass)
    {
      if characterDraft.characterClass == 0 && |classes| > 0 {
        characterDraft := characterDraft.(characterClass := classes[0].id);
      }
    }

    /**
     * `handleCharacterSubmit`: class first, then name; the level is coerced;
     * update in place or append; on success the form resets with the first
     * class preselected.
     */
    method CharacterSubmit(classes: seq<ClassItem>, result: Saved<CharacterItem>) returns (sent: Option<CharacterPayload>)
      modifies this`characters, this`characterEditingId, this`characterDraft, this`error
      ensures CharacterPayloadOf(old(characterDraft)).Refused? ==>
        sent.None? && error == Some(CharacterPayloadOf(old(characterDraft)).error) &&
        characters == old(characters) && characterDraft == old(characterDraft)
      ensures CharacterPayloadOf(old(characterDraft)).Ready? ==>
        sent == Some(CharacterPayloadOf(old(characterDraft)).value)
      ensures sent.Some? && result.SaveFailed? ==>
        error == Some(ServerError(result.message)) && characters == old(characters) &&
        characterDraft == old(characterDraft)
      ensures sent.Some? && result.Saved? && IdTruthy(old(characterEditingId)) ==>
        characters == ReplaceById(old(characters), result.item, CharacterId) && characterEditingId.None?
      ensures sent.Some? && result.Saved? && !IdTruthy(old(characterEditingId)) ==>
        characters == old(characters) + [result.item]
      ensures !(sent.Some? && result.Saved? && IdTruthy(old(characterEditingId))) ==>
        characterEditingId == old(characterEditingId)
      ensures sent.Some? && result.Saved? ==>
        error.None? &&
        characterDraft == CharacterDraft("", if classes == [] then 0 else classes[0].id, Num(1))
    {
      error := None;
      var checked := CharacterPayloadOf(characterDraft);
      if checked.Refused? {
        error := Some(checked.error);
        return None;
      }
      sent := Some(checked.value);
      if result.SaveFailed? {
        error := Some(ServerError(result.message));
        return;
      }
      if IdTruthy(characterEditingId) {
        characters := ReplaceById(characters, result.item, CharacterId);
        characterEditingId := None;
      } else {
        characters := characters + [result.item];
      }
      characterDraft := CharacterDraft("", if classes == [] then 0 else classes[0].id, Num(1));
    }

    /** `handleCharacterDelete`. */
    method CharacterDelete(id: int, result: CallResult)
      modifies this`characters, this`error
      ensures result.Failed? ==> error == Some(ServerError(result.message)) && characters == old(characters)
      ensures result.Succeeded? ==> error.None? && characters == DeleteById(old(characters), id, CharacterId)
    {
      error := None;
      if result.Failed? {
        error := Some(ServerError(result.message));
        return;
      }
      characters := DeleteById(characters, id, CharacterId);
    }
  }

  /** A list with the same ids keeps a valid selection valid. */
  lemma KeepsSelection<T>(selected: Option<int>, before: seq<T>, after: seq<T>, idOf: T -> int)
    requires MapSeq(after, idOf) == MapSeq(before, idOf)
    requires SelectionValid(selected, before, idOf)
    ensures SelectionValid(selected, after, idOf)
  {
    if selected.Some? {
      var i :| 0 <= i < |before| && idOf(before[i]) == selected.value;
      assert MapSeq(after, idOf)[i] == MapSeq(before, idOf)[i];
    }
  }
}
