/**
 * The campaign desk page: the owned / joined / archived lists, pending
 * requests grouped by campaign, the join button of a public campaign, the
 * join guards, the campaign form payload and the edit guard. Page state is a
 * `CampaignsDesk` object; the outcome of each API call is a parameter.
 */
module CampaignsPage {
  import opened Common
  import Serializers

  /** A campaign as the API lists it for the current user. */
  datatype Campaign = Campaign(
    id: nat,
    name: string,
    description: string,
    worldStory: string,
    isPublic: bool,
    maxPlayers: int,
    isArchived: bool,
    isOwner: bool,
    playersCount: Option<int>,
    myRequestStatus: Option<RequestStatus>)

  // ---------------------------------------------------------------------------
  // ownedCampaigns / joinedCampaigns / archivedCampaigns
  // ---------------------------------------------------------------------------

  predicate IsOwnedActive(c: Campaign) { c.isOwner && !c.isArchived }
  predicate IsJoinedActive(c: Campaign) { !c.isOwner && !c.isArchived }
  predicate IsArchived(c: Campaign) { c.isArchived }

  function Owned(cs: seq<Campaign>): seq<Campaign> { Filter(cs, IsOwnedActive) }
  function Joined(cs: seq<Campaign>): seq<Campaign> { Filter(cs, IsJoinedActive) }
  function Archived(cs: seq<Campaign>): seq<Campaign> { Filter(cs, IsArchived) }

  /** Every campaign satisfies exactly one of the three list predicates. */
  lemma ListPredicatesExclusive(c: Campaign)
    ensures IsOwnedActive(c) || IsJoinedActive(c) || IsArchived(c)
    ensures !(IsOwnedActive(c) && IsJoinedActive(c))
    ensures !(IsOwnedActive(c) && IsArchived(c))
    ensures !(IsJoinedActive(c) && IsArchived(c))
  {
  }

  /**
   * The three lists partition the campaigns: together they hold every
   * campaign exactly as often as the input does.
   */
  lemma ListsPartition(cs: seq<Campaign>)
    ensures multiset(Owned(cs)) + multiset(Joined(cs)) + multiset(Archived(cs)) == multiset(cs)
    ensures |Owned(cs)| + |Joined(cs)| + |Archived(cs)| == |cs|
  {
    forall c ensures (IsOwnedActive(c) || IsJoinedActive(c) || IsArchived(c)) &&
      !(IsOwnedActive(c) && IsJoinedActive(c)) && !(IsOwnedActive(c) && IsArchived(c)) && !(IsJoinedActive(c) && IsArchived(c))
    {
      ListPredicatesExclusive(c);
    }
    FilterPartition(cs, IsOwnedActive, IsJoinedActive, IsArchived);
  }

  /** Each list keeps the input order. */
  lemma ListsKeepOrder(cs: seq<Campaign>)
    ensures IsSubsequence(Owned(cs), cs) && IsSubsequence(Joined(cs), cs) && IsSubsequence(Archived(cs), cs)
  {
    FilterIsSubsequence(cs, IsOwnedActive);
    FilterIsSubsequence(cs, IsJoinedActive);
    FilterIsSubsequence(cs, IsArchived);
  }

  // ---------------------------------------------------------------------------
  // incomingByCampaign
  // ---------------------------------------------------------------------------

  /** An incoming pending request, with the id of the campaign it is for. */
  datatype IncomingRequest = IncomingRequest(id: nat, campaign: nat, userName: string, characterName: string)

  function OfCampaign(k: nat): IncomingRequest -> bool {
    (r: IncomingRequest) => r.campaign == k
  }

  /** The requests for campaign `k`, in input order. */
  function GroupOf(requests: seq<IncomingRequest>, k: nat): seq<IncomingRequest> {
    Filter(requests, OfCampaign(k))
  }

  /** `incomingByCampaign.get(k) ?? []`. */
  function PendingFor(groups: map<nat, seq<IncomingRequest>>, k: nat): seq<IncomingRequest> {
    if k in groups then groups[k] else []
  }

  predicate Distinct(keys: seq<nat>) {
    forall i, j :: 0 <= i < j < |keys| ==> keys[i] != keys[j]
  }

  /** Total size of the groups listed in `keys`. */
  function SumSizes(groups: map<nat, seq<IncomingRequest>>, keys: seq<nat>): nat {
    if keys == [] then 0
    else SumSizes(groups, keys[..|keys| - 1]) + |PendingFor(groups, keys[|keys| - 1])|
  }

  lemma {:induction false} SumSizesUpdateOther(groups: map<nat, seq<IncomingRequest>>, keys: seq<nat>, k: nat, v: seq<IncomingRequest>)
    requires k !in keys
    ensures SumSizes(groups[k := v], keys) == SumSizes(groups, keys)
  {
    if keys != [] {
      SumSizesUpdateOther(groups, keys[..|keys| - 1], k, v);
    }
  }

  lemma {:induction false} SumSizesUpdateIn(groups: map<nat, seq<IncomingRequest>>, keys: seq<nat>, k: nat, v: seq<IncomingRequest>)
    requires k in keys && Distinct(keys)
    ensures SumSizes(groups[k := v], keys) == SumSizes(groups, keys) - |PendingFor(groups, k)| + |v|
  {
    var front := keys[..|keys| - 1];
    if keys[|keys| - 1] == k {
      assert k !in front;
      SumSizesUpdateOther(groups, front, k, v);
    } else {
      assert k in front by {
        var i :| 0 <= i < |keys| && keys[i] == k;
        assert front[i] == k;
      }
      SumSizesUpdateIn(groups, front, k, v);
    }
  }

  /** Adding one request to its campaign's group keeps every group equal to its filter. */
  lemma GroupStep(groups: map<nat, seq<IncomingRequest>>, prefix: seq<IncomingRequest>, r: IncomingRequest, k: nat)
    requires PendingFor(groups, k) == GroupOf(prefix, k)
    ensures PendingFor(groups[r.campaign := PendingFor(groups, r.campaign) + [r]], k) == GroupOf(prefix + [r], k)
  {
    FilterAppendOne(prefix, r, OfCampaign(k));
    assert OfCampaign(k)(r) <==> r.campaign == k;
  }

  /** The `Map` the `forEach` has built after the requests in `s`. */
  function Grouped(s: seq<IncomingRequest>): map<nat, seq<IncomingRequest>>
    decreases |s|
  {
    if s == [] then map[]
    else
      var front, r := s[..|s| - 1], s[|s| - 1];
      Grouped(front)[r.campaign := PendingFor(Grouped(front), r.campaign) + [r]]
  }

  /** The key order of that `Map`: campaign ids by first appearance. */
  function KeyOrder(s: seq<IncomingRequest>): seq<nat>
    decreases |s|
  {
    if s == [] then []
    else
      var front, r := s[..|s| - 1], s[|s| - 1];
      if r.campaign in Grouped(front) then KeyOrder(front) else KeyOrder(front) + [r.campaign]
  }

  /** Each campaign's group holds exactly its requests, in input order. */
  lemma {:induction false} GroupedIsFilter(s: seq<IncomingRequest>, k: nat)
    ensures PendingFor(Grouped(s), k) == GroupOf(s, k)
    decreases |s|
  {
    if s != [] {
      var front, r := s[..|s| - 1], s[|s| - 1];
      GroupedIsFilter(front, k);
      GroupStep(Grouped(front), front, r, k);
      assert front + [r] == s;
    }
  }

  /** No campaign is given an empty group. */
  lemma {:induction false} GroupedNonEmpty(s: seq<IncomingRequest>)
    ensures forall k :: k in Grouped(s) ==> Grouped(s)[k] != []
    decreases |s|
  {
    if s != [] {
      GroupedNonEmpty(s[..|s| - 1]);
    }
  }

  /** The key order lists every key of the `Map` exactly once. */
  lemma {:induction false} KeyOrderListsKeys(s: seq<IncomingRequest>)
    ensures forall k :: k in Grouped(s) <==> k in KeyOrder(s)
    ensures Distinct(KeyOrder(s))
    decreases |s|
  {
    if s != [] {
      var front, r := s[..|s| - 1], s[|s| - 1];
      KeyOrderListsKeys(front);
      if r.campaign !in Grouped(front) {
        assert forall k :: k in KeyOrder(s) <==> k in KeyOrder(front) || k == r.campaign;
      }
    }
  }

  /** The group sizes add up to the number of requests. */
  lemma {:induction false} GroupSizesSum(s: seq<IncomingRequest>)
    ensures SumSizes(Grouped(s), KeyOrder(s)) == |s|
    decreases |s|
  {
    if s != [] {
      var front, r := s[..|s| - 1], s[|s| - 1];
      var groups, order := Grouped(front), KeyOrder(front);
      var list := PendingFor(groups, r.campaign) + [r];
      GroupSizesSum(front);
      KeyOrderListsKeys(front);
      if r.campaign in groups {
        SumSizesUpdateIn(groups, order, r.campaign, list);
      } else {
        SumSizesUpdateOther(groups, order, r.campaign, list);
        var longer := order + [r.campaign];
        assert longer[..|longer| - 1] == order;
      }
    }
  }

  /**
   * `incomingByCampaign`: requests grouped under their campaign id in a
   * `Map`; `order` is the map's key order (first appearance).
   */
  method GroupByCampaign(requests: seq<IncomingRequest>) returns (groups: map<nat, seq<IncomingRequest>>, order: seq<nat>)
    ensures groups == Grouped(requests) && order == KeyOrder(requests)
  {
    groups := map[];
    order := [];
    var i := 0;
    while i < |requests|
      invariant 0 <= i <= |requests|
      invariant groups == Grouped(requests[..i]) && order == KeyOrder(requests[..i])
    {
      var r := requests[i];
      assert requests[..i + 1][..i] == requests[..i];
      var list := PendingFor(groups, r.campaign) + [r];
      if r.campaign !in groups {
        order := order + [r.campaign];
      }
      groups := groups[r.campaign := list];
      i := i + 1;
    }
    assert requests[..i] == requests;
  }

  /** A campaign with no incoming request gets the empty list. */
  lemma NoGroupWithoutRequests(s: seq<IncomingRequest>, k: nat)
    requires forall i :: 0 <= i < |s| ==> s[i].campaign != k
    ensures k !in Grouped(s)
  {
    NotInFilter(s, OfCampaign(k));
    GroupedIsFilter(s, k);
    GroupedNonEmpty(s);
  }

  // ---------------------------------------------------------------------------
  // The join button of a public campaign
  // ---------------------------------------------------------------------------

  datatype JoinLabel =
    | SendRequest     // the default
    | YouAreMaster
    | RequestSent
    | AlreadyPlayer
    | NoSeats

  /** `(players_count ?? 0) >= max_players`. */
  predicate IsFull(c: Campaign) {
    (if c.playersCount.Some? then c.playersCount.value else 0) >= c.maxPlayers
  }

  /** The label, by priority: owner, pending, accepted, full, default. */
  function JoinLabelOf(c: Campaign): JoinLabel {
    if c.isOwner then YouAreMaster
    else if c.myRequestStatus == Some(Pending) then RequestSent
    else if c.myRequestStatus == Some(Accepted) then AlreadyPlayer
    else if IsFull(c) then NoSeats
    else SendRequest
  }

  /** `Boolean(isOwner || status || isFull || characters.length === 0)`. */
  predicate JoinDisabled(c: Campaign, characterCount: nat) {
    c.isOwner || c.myRequestStatus.Some? || IsFull(c) || characterCount == 0
  }

  /** The button is disabled exactly when it shows another label, the request was rejected, or there is no character. */
  lemma JoinDisabledIff(c: Campaign, characterCount: nat)
    ensures JoinDisabled(c, characterCount) <==>
      JoinLabelOf(c) != SendRequest || c.myRequestStatus == Some(Rejected) || characterCount == 0
  {
    if c.myRequestStatus.Some? {
      var s := c.myRequestStatus.value;
      assert s == Pending || s == Accepted || s == Rejected;
    }
  }

  /** An enabled button always carries the default label. */
  lemma EnabledJoinShowsDefault(c: Campaign, characterCount: nat)
    requires !JoinDisabled(c, characterCount)
    ensures JoinLabelOf(c) == SendRequest
  {
  }

  /** A rejected request is not re-sendable, yet the label stays the default one. */
  lemma RejectedKeepsDefaultLabel(c: Campaign, characterCount: nat)
    requires !c.isOwner && c.myRequestStatus == Some(Rejected) && !IsFull(c)
    ensures JoinLabelOf(c) == SendRequest
    ensures JoinDisabled(c, characterCount)
  {
  }

  /** The owner label wins over every request status and over a full campaign. */
  lemma OwnerLabelWins(c: Campaign)
    requires c.isOwner
    ensures JoinLabelOf(c) == YouAreMaster
  {
  }

  // ---------------------------------------------------------------------------
  // The campaign form
  // ---------------------------------------------------------------------------

  /** The form state; `max_players` is held as `Number(input)`. */
  datatype CampaignDraft = CampaignDraft(
    name: string,
    description: string,
    worldStory: string,
    isPublic: bool,
    maxPlayers: JsNumber,
    isArchived: bool)

  const DefaultDraft: CampaignDraft := CampaignDraft("", "", "", true, Num(4), false)

  /** The body sent to create or update a campaign. */
  datatype CampaignPayload = CampaignPayload(
    name: string,
    description: string,
    worldStory: string,
    isPublic: bool,
    maxPlayers: int,
    isArchived: bool)

  /** `{ ...draft, max_players: Number(draft.max_players) || 1 }`. */
  function SubmitPayload(d: CampaignDraft): (p: CampaignPayload)
    ensures p.name == d.name && p.description == d.description && p.worldStory == d.worldStory
    ensures p.isPublic == d.isPublic && p.isArchived == d.isArchived
    ensures p.maxPlayers != 0
    ensures NumberTruthy(d.maxPlayers) ==> p.maxPlayers == d.maxPlayers.value
    ensures !NumberTruthy(d.maxPlayers) ==> p.maxPlayers == 1
  {
    CampaignPayload(d.name, d.description, d.worldStory, d.isPublic, NumberOrOne(d.maxPlayers), d.isArchived)
  }

  /** The draft `handleEdit` loads from an owned campaign. */
  function DraftOf(c: Campaign): CampaignDraft {
    CampaignDraft(c.name, c.description, c.worldStory, c.isPublic, Num(c.maxPlayers), c.isArchived)
  }

  /** Editing a campaign and saving unchanged sends its stored fields back, unless its limit is 0. */
  lemma EditedPayloadRoundTrip(c: Campaign)
    ensures var p := SubmitPayload(DraftOf(c));
      p.name == c.name && p.description == c.description && p.worldStory == c.worldStory &&
      p.isPublic == c.isPublic && p.isArchived == c.isArchived &&
      (p.maxPlayers == c.maxPlayers <==> c.maxPlayers != 0)
  {
  }

  /**
   * The coercion only repairs NaN and zero: a negative limit is sent as is
   * and the server rejects it, while every other payload passes the
   * server's lower bound.
   */
  lemma PayloadAgainstServerBound(d: CampaignDraft)
    ensures var p := SubmitPayload(d);
      Serializers.ValidateCampaign(Some(p.maxPlayers), None).Pass? <==>
      !(d.maxPlayers.Num? && d.maxPlayers.value < 0)
  {
  }

  // ---------------------------------------------------------------------------
  // The page
  // ---------------------------------------------------------------------------

  /** A character the user may join with. */
  datatype CharacterChoice = CharacterChoice(id: nat, name: string)

  /** Why a join attempt stopped before any request was sent. */
  datatype JoinError =
    | ChooseCharacterFirst
    | EnterCampaignCode
    | ServerError(message: string)

  /** The body of `createCampaignRequest`. */
  datatype JoinPayload =
    | ByCode(code: string, character: int)
    | ByCampaign(campaign: nat, character: int)

  /** A call to the campaign endpoints. */
  datatype SaveCall = CreateCampaign(payload: CampaignPayload) | UpdateCampaign(id: int, payload: CampaignPayload)

  /** How an API call ended: resolved, or rejected with the message shown. */
  datatype CallResult = Succeeded | Failed(message: string)

  class CampaignsDesk {
    var characters: seq<CharacterChoice>
    var draft: CampaignDraft
    var editingId: Option<int>
    var joinCode: string
    var joinCharacterId: Option<int>
    var joinError: Option<JoinError>
    var error: Option<string>

    constructor (characters: seq<CharacterChoice>)
      ensures this.characters == characters
      ensures draft == DefaultDraft && editingId.None? && joinCode == ""
      ensures joinCharacterId.None? && joinError.None? && error.None?
    {
      this.characters := characters;
      draft := DefaultDraft;
      editingId := None;
      joinCode := "";
      joinCharacterId := None;
      joinError := None;
      error := None;
    }

    /** The effect choosing the first character when none is chosen. */
    method DefaultJoinCharacter()
      modifies this
      ensures !IdTruthy(old(joinCharacterId)) && |characters| > 0 ==> joinCharacterId == Some(characters[0].id as int)
      ensures IdTruthy(old(joinCharacterId)) || |characters| == 0 ==> joinCharacterId == old(joinCharacterId)
      ensures characters == old(characters) && draft == old(draft) && editingId == old(editingId)
      ensures joinCode == old(joinCode) && joinError == old(joinError) && error == old(error)
    {
      if !IdTruthy(joinCharacterId) && |characters| > 0 {
        joinCharacterId := Some(characters[0].id);
      }
    }

    /**
     * `handleJoinByCode`: a missing character is reported first, then a
     * blank code; otherwise the trimmed code is sent.
     */
    method HandleJoinByCode(result: CallResult) returns (sent: Option<JoinPayload>)
      modifies this
      ensures !IdTruthy(old(joinCharacterId)) ==> sent.None? && joinError == Some(ChooseCharacterFirst)
      ensures IdTruthy(old(joinCharacterId)) && AllWhitespace(old(joinCode)) ==>
        sent.None? && joinError == Some(EnterCampaignCode)
      ensures sent.Some? <==> IdTruthy(old(joinCharacterId)) && !AllWhitespace(old(joinCode))
      ensures sent.Some? ==> sent.value == ByCode(Trim(old(joinCode)), old(joinCharacterId).value)
      ensures sent.Some? && result.Succeeded? ==> joinCode == "" && joinError.None?
      ensures sent.Some? && result.Failed? ==> joinCode == old(joinCode) && joinError == Some(ServerError(result.message))
      ensures sent.None? ==> joinCode == old(joinCode)
      ensures characters == old(characters) && draft == old(draft) && editingId == old(editingId)
      ensures joinCharacterId == old(joinCharacterId) && error == old(error)
    {
      joinError := None;
      if !IdTruthy(joinCharacterId) {
        joinError := Some(ChooseCharacterFirst);
        return None;
      }
      TrimEmptyIffWhitespace(joinCode);
      if Trim(joinCode) == [] {
        joinError := Some(EnterCampaignCode);
        return None;
      }
      sent := Some(ByCode(Trim(joinCode), joinCharacterId.value));
      match result {
        case Succeeded => joinCode := "";
        case Failed(message) => joinError := Some(ServerError(message));
      }
    }

    /** `handleJoinPublic`: only the character is checked before the request is sent. */
    method HandleJoinPublic(campaignId: nat, result: CallResult) returns (sent: Option<JoinPayload>)
      modifies this
      ensures !IdTruthy(old(joinCharacterId)) ==> sent.None? && joinError == Some(ChooseCharacterFirst)
      ensures IdTruthy(old(joinCharacterId)) ==> sent == Some(ByCampaign(campaignId, old(joinCharacterId).value))
      ensures sent.Some? && result.Succeeded? ==> joinError.None?
      ensures sent.Some? && result.Failed? ==> joinError == Some(ServerError(result.message))
      ensures characters == old(characters) && draft == old(draft) && editingId == old(editingId)
      ensures joinCode == old(joinCode) && joinCharacterId == old(joinCharacterId) && error == old(error)
    {
      joinError := None;
      if !IdTruthy(joinCharacterId) {
        joinError := Some(ChooseCharacterFirst);
        return None;
      }
      sent := Some(ByCampaign(campaignId, joinCharacterId.value));
      if result.Failed? {
        joinError := Some(ServerError(result.message));
      }
    }

    /**
     * `handleSubmit`: update the campaign being edited (a truthy id),
     * otherwise create one; on success the form is reset.
     */
    method HandleSubmit(result: CallResult) returns (call: SaveCall)
      modifies this
      ensures IdTruthy(old(editingId)) ==> call == UpdateCampaign(old(editingId).value, SubmitPayload(old(draft)))
      ensures !IdTruthy(old(editingId)) ==> call == CreateCampaign(SubmitPayload(old(draft)))
      ensures result.Succeeded? ==> draft == DefaultDraft && editingId.None? && error.None?
      ensures result.Failed? ==> draft == old(draft) && editingId == old(editingId) && error == Some(result.message)
      ensures characters == old(characters) && joinCode == old(joinCode)
      ensures joinCharacterId == old(joinCharacterId) && joinError == old(joinError)
    {
      error := None;
      var payload := SubmitPayload(draft);
      if IdTruthy(editingId) {
        call := UpdateCampaign(editingId.value, payload);
      } else {
        call := CreateCampaign(payload);
      }
      match result {
        case Succeeded =>
          draft := DefaultDraft;
          editingId := None;
        case Failed(message) =>
          error := Some(message);
      }
    }

    /** `handleEdit`: loads an owned campaign into the form; does nothing for any other. */
    method HandleEdit(c: Campaign)
      modifies this
      ensures c.isOwner ==> editingId == Some(c.id as int) && draft == DraftOf(c)
      ensures !c.isOwner ==> editingId == old(editingId) && draft == old(draft)
      ensures characters == old(characters) && joinCode == old(joinCode) && error == old(error)
      ensures joinCharacterId == old(joinCharacterId) && joinError == old(joinError)
    {
      if !c.isOwner {
        return;
      }
      editingId := Some(c.id);
      draft := DraftOf(c);
    }

    /** The cancel button of the form. */
    method CancelEdit()
      modifies this
      ensures editingId.None? && draft == DefaultDraft
      ensures characters == old(characters) && joinCode == old(joinCode) && error == old(error)
      ensures joinCharacterId == old(joinCharacterId) && joinError == old(joinError)
    {
      editingId := None;
      draft := DefaultDraft;
    }
  }
}
