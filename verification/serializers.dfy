/**
 * The validation rules and derived fields of the account serializers: the
 * registration password check, the campaign `max_players` rules and the
 * per-viewer campaign fields, and the class-text handling of character sheets.
 * Database rows are plain records; `Class.objects.get_or_create` is a
 * name-to-id table passed in and returned.
 */
module Serializers {
  import opened Common

  // ---------------------------------------------------------------------------
  // RegisterSerializer.validate
  // ---------------------------------------------------------------------------

  datatype RegisterAttrs = RegisterAttrs(username: string, email: string, password: string, password2: string)

  /** A `ValidationError` raised with a one-key dictionary. */
  datatype FieldError = FieldError(field: string, message: string)

  datatype Validated<T> = Valid(attrs: T) | Invalid(error: FieldError)

  /** `RegisterSerializer.validate`. */
  function ValidateRegistration(attrs: RegisterAttrs): (r: Validated<RegisterAttrs>)
    ensures r.Invalid? <==> attrs.password != attrs.password2
    ensures r.Valid? ==> r.attrs == attrs
    ensures r.Invalid? ==> r.error.field == "password"
  {
    if attrs.password != attrs.password2 then
      Invalid(FieldError("password", "Password fields didn't match."))
    else
      Valid(attrs)
  }

  // ---------------------------------------------------------------------------
  // Campaign rows and the viewer
  // ---------------------------------------------------------------------------

  datatype CharacterRef = CharacterRef(id: nat, name: string, className: Option<string>, level: int)

  datatype JoinRequest = JoinRequest(
    userId: nat,
    username: string,
    character: Option<CharacterRef>,
    status: RequestStatus)

  /** A campaign row with its join requests in query order. */
  datatype CampaignRow = CampaignRow(ownerId: nat, maxPlayers: int, joinCode: string, requests: seq<JoinRequest>)

  /** `self.context["request"].user`: missing request and anonymous user are alike. */
  datatype Viewer = Anonymous | Authenticated(userId: nat)

  /** One entry of the `players` field. */
  datatype PlayerInfo = PlayerInfo(
    id: nat,
    username: string,
    characterId: Option<nat>,
    characterName: string,
    characterClassName: string,
    level: Option<int>)

  predicate IsAcceptedRequest(r: JoinRequest) { r.status == Accepted }

  predicate IsPendingRequest(r: JoinRequest) { r.status == Pending }

  // ---------------------------------------------------------------------------
  // CampaignSerializer.validate
  // ---------------------------------------------------------------------------

  datatype CampaignError =
    | BelowOnePlayer      // "at least 1 player"
    | BelowAcceptedCount  // "cannot be set below the accepted players"

  /**
   * `CampaignSerializer.validate`: `maxPlayers` is the submitted value, if any;
   * `instance` is the campaign being updated (`None` on create). Both errors
   * are keyed `max_players`.
   */
  function ValidateCampaign(maxPlayers: Option<int>, instance: Option<CampaignRow>): (r: Outcome<CampaignError>)
    ensures maxPlayers.Some? && maxPlayers.value < 1 ==> r == Fail(BelowOnePlayer)
    ensures r == Pass <==>
      (maxPlayers.None? || maxPlayers.value >= 1) &&
      (instance.None? || EffectiveMaxPlayers(maxPlayers, instance.value) >= PlayersCount(instance.value))
  {
    if maxPlayers.Some? && maxPlayers.value < 1 then Fail(BelowOnePlayer)
    else if instance.Some? && EffectiveMaxPlayers(maxPlayers, instance.value) < PlayersCount(instance.value) then
      Fail(BelowAcceptedCount)
    else Pass
  }

  /** The limit after the update: the submitted value, else the stored one. */
  function EffectiveMaxPlayers(maxPlayers: Option<int>, instance: CampaignRow): int {
    if maxPlayers.Some? then maxPlayers.value else instance.maxPlayers
  }

  /** On create the accepted-players check is skipped: only the lower bound applies. */
  lemma CreateChecksOnlyLowerBound(maxPlayers: Option<int>)
    ensures ValidateCampaign(maxPlayers, None).Pass? <==> maxPlayers.None? || maxPlayers.value >= 1
  {
  }

  /** An accepted update never leaves fewer seats than there are players. */
  lemma UpdateKeepsSeatsForPlayers(maxPlayers: Option<int>, instance: CampaignRow)
    requires ValidateCampaign(maxPlayers, Some(instance)).Pass?
    ensures EffectiveMaxPlayers(maxPlayers, instance) >= |Players(instance)|
  {
    PlayersCountIsPlayersLength(instance);
  }

  // ---------------------------------------------------------------------------
  // CampaignSerializer derived fields
  // ---------------------------------------------------------------------------

  /** `get_is_owner`. */
  predicate IsOwner(viewer: Viewer, c: CampaignRow) {
    viewer.Authenticated? && c.ownerId == viewer.userId
  }

  /** `get_join_code`: the code is visible to the authenticated owner only. */
  function JoinCode(viewer: Viewer, c: CampaignRow): (code: Option<string>)
    ensures code.Some? <==> viewer.Authenticated? && viewer.userId == c.ownerId
    ensures code.Some? ==> code.value == c.joinCode
  {
    if IsOwner(viewer, c) then Some(c.joinCode) else None
  }

  function PlayerOf(r: JoinRequest): PlayerInfo {
    PlayerInfo(
      r.userId,
      r.username,
      if r.character.Some? then Some(r.character.value.id) else None,
      if r.character.Some? then r.character.value.name else "",
      if r.character.Some? && r.character.value.className.Some? then r.character.value.className.value else "",
      if r.character.Some? then Some(r.character.value.level) else None)
  }

  /** `get_players`: the accepted requests, as player entries, in request order. */
  function Players(c: CampaignRow): seq<PlayerInfo> {
    MapSeq(Filter(c.requests, IsAcceptedRequest), PlayerOf)
  }

  /** `get_players_count`. */
  function PlayersCount(c: CampaignRow): nat {
    Count(c.requests, IsAcceptedRequest)
  }

  /** `players_count` is the length of `players`. */
  lemma PlayersCountIsPlayersLength(c: CampaignRow)
    ensures PlayersCount(c) == |Players(c)|
  {
    CountIsFilterLength(c.requests, IsAcceptedRequest);
  }

  /** A newly recorded request adds a player at the end exactly when it is accepted. */
  lemma PlayersOfAppendedRequest(c: CampaignRow, r: JoinRequest)
    ensures Players(c.(requests := c.requests + [r])) ==
      Players(c) + (if IsAcceptedRequest(r) then [PlayerOf(r)] else [])
  {
    FilterAppendOne(c.requests, r, IsAcceptedRequest);
  }

  /** `get_pending_requests_count`: only the owner sees pending requests. */
  function PendingRequestsCount(viewer: Viewer, c: CampaignRow): (n: nat)
    ensures !IsOwner(viewer, c) ==> n == 0
    ensures IsOwner(viewer, c) ==> n == |Filter(c.requests, IsPendingRequest)|
    ensures n <= |c.requests|
  {
    if !IsOwner(viewer, c) then 0
    else
      CountIsFilterLength(c.requests, IsPendingRequest);
      Count(c.requests, IsPendingRequest)
  }

  lemma {:induction false} PendingAndAcceptedDisjoint(s: seq<JoinRequest>)
    ensures Count(s, IsPendingRequest) + Count(s, IsAcceptedRequest) <= |s|
  {
    if s != [] {
      PendingAndAcceptedDisjoint(s[1..]);
    }
  }

  /** The owner's pending count and the player count never exceed the requests. */
  lemma PendingPlusPlayersBounded(viewer: Viewer, c: CampaignRow)
    ensures PendingRequestsCount(viewer, c) + PlayersCount(c) <= |c.requests|
  {
    PendingAndAcceptedDisjoint(c.requests);
  }

  /** Request `i` is the viewer's first request in `reqs`. */
  predicate IsFirstRequestOf(reqs: seq<JoinRequest>, userId: nat, i: int) {
    0 <= i < |reqs| && reqs[i].userId == userId &&
    forall j :: 0 <= j < i ==> reqs[j].userId != userId
  }

  /**
   * `get_my_request_status`: nothing for anonymous viewers and for the owner;
   * otherwise the status of the viewer's first request, if any.
   */
  method MyRequestStatus(viewer: Viewer, c: CampaignRow) returns (status: Option<RequestStatus>)
    ensures viewer.Anonymous? || viewer.userId == c.ownerId ==> status.None?
    ensures status.Some? ==>
      exists i :: IsFirstRequestOf(c.requests, viewer.userId, i) && c.requests[i].status == status.value
    ensures status.None? && viewer.Authenticated? && viewer.userId != c.ownerId ==>
      forall j :: 0 <= j < |c.requests| ==> c.requests[j].userId != viewer.userId
  {
    if viewer.Anonymous? {
      return None;
    }
    if c.ownerId == viewer.userId {
      return None;
    }
    var i := 0;
    while i < |c.requests|
      invariant 0 <= i <= |c.requests|
      invariant forall j :: 0 <= j < i ==> c.requests[j].userId != viewer.userId
    {
      if c.requests[i].userId == viewer.userId {
        assert IsFirstRequestOf(c.requests, viewer.userId, i);
        return Some(c.requests[i].status);
      }
      i := i + 1;
    }
    return None;
  }

  // ---------------------------------------------------------------------------
  // CharacterSheetSerializer: class text
  // ---------------------------------------------------------------------------

  /** The `Class` table seen through its unique `name` column; ids are handed out in order. */
  datatype ClassTable = ClassTable(ids: map<string, nat>, nextId: nat) {
    ghost predicate Valid() {
      (forall n :: n in ids ==> ids[n] < nextId) &&
      (forall a, b :: a in ids && b in ids && a != b ==> ids[a] != ids[b])
    }
  }

  /** `Class.objects.get_or_create(name=name)`. */
  function GetOrCreate(table: ClassTable, name: string): (res: (ClassTable, nat))
    requires table.Valid()
    ensures res.0.Valid()
    ensures name in res.0.ids && res.0.ids[name] == res.1
    ensures name in table.ids ==> res.0 == table
    ensures forall n :: n in table.ids ==> n in res.0.ids && res.0.ids[n] == table.ids[n]
    ensures res.0.ids.Keys == table.ids.Keys + {name}
  {
    if name in table.ids then (table, table.ids[name])
    else (ClassTable(table.ids[name := table.nextId], table.nextId + 1), table.nextId)
  }

  /** `_resolve_class`: blank text resolves to no class, other text to the class named by its stripped form. */
  function ResolveClass(table: ClassTable, value: Option<string>): (res: (ClassTable, Option<nat>))
    requires table.Valid()
    ensures res.0.Valid()
    ensures res.1.None? <==> value.None? || Trim(value.value) == []
    ensures res.1.None? ==> res.0 == table
    ensures res.1.Some? ==> Trim(value.value) in res.0.ids && res.0.ids[Trim(value.value)] == res.1.value
  {
    if value.None? || value.value == [] then (table, None)
    else
      var name := Trim(value.value);
      if name == [] then (table, None)
      else
        var created := GetOrCreate(table, name);
        (created.0, Some(created.1))
  }

  /** Blank or missing text resolves to no class and leaves the table alone. */
  lemma ResolveBlankIsNone(table: ClassTable, value: Option<string>)
    requires table.Valid()
    requires value.None? || AllWhitespace(value.value)
    ensures ResolveClass(table, value) == (table, None)
  {
    TrimEmptyIffWhitespaceFor(value);
  }

  lemma TrimEmptyIffWhitespaceFor(value: Option<string>)
    ensures value.Some? ==> (Trim(value.value) == [] <==> AllWhitespace(value.value))
  {
    if value.Some? {
      TrimEmptyIffWhitespace(value.value);
    }
  }

  /** Resolving the same name twice gives the same class and creates nothing the second time. */
  lemma ResolveClassTwice(table: ClassTable, a: string, b: string)
    requires table.Valid()
    requires Trim(a) == Trim(b)
    ensures var (t1, c1) := ResolveClass(table, Some(a));
            var (t2, c2) := ResolveClass(t1, Some(b));
            c1 == c2 && t2 == t1
  {
    TrimEmptyIffWhitespace(a);
    TrimEmptyIffWhitespace(b);
  }

  /** Classes that already exist keep their ids whatever is resolved. */
  lemma ResolveClassKeepsExisting(table: ClassTable, value: Option<string>, name: string)
    requires table.Valid() && name in table.ids
    ensures name in ResolveClass(table, value).0.ids
    ensures ResolveClass(table, value).0.ids[name] == table.ids[name]
  {
  }

  /** JavaScript/Python truthiness of optional text. */
  predicate TextTruthy(text: Option<string>) { text.Some? && text.value != [] }

  /**
   * `CharacterSheetSerializer.validate`: on create (`isCreate`) a class or a
   * non-empty class text must be given; updates always pass.
   */
  function ValidateCharacter(characterClass: Option<nat>, classText: Option<string>, isCreate: bool): (r: Outcome<FieldError>)
    ensures r.Fail? <==> isCreate && characterClass.None? && !TextTruthy(classText)
    ensures r.Fail? ==> r.error.field == "character_class_text"
  {
    if characterClass.None? && !TextTruthy(classText) && isCreate then
      Fail(FieldError("character_class_text", "Specify the character class"))
    else Pass
  }

  /** The `character_class` entry of `validated_data`: absent, `None`, or a class. */
  datatype ClassField = Absent | NullClass | ClassId(id: nat)

  function ClassFieldOf(resolved: Option<nat>): ClassField {
    if resolved.Some? then ClassId(resolved.value) else NullClass
  }

  /** The class-related part of `validated_data`, which `create`/`update` rewrite in place. */
  class CharacterPayload {
    var characterClass: ClassField
    var classText: Option<string>   // `None`: the key is absent

    constructor (characterClass: ClassField, classText: Option<string>)
      ensures this.characterClass == characterClass && this.classText == classText
    {
      this.characterClass := characterClass;
      this.classText := classText;
    }

    /**
     * `create`: the text is popped; non-empty text always replaces the class,
     * with the resolved class or with `None` when the text is blank.
     */
    method PrepareCreate(table: ClassTable) returns (table': ClassTable)
      requires table.Valid()
      modifies this
      ensures table'.Valid()
      ensures classText.None?
      ensures TextTruthy(old(classText)) ==>
        var (t, resolved) := ResolveClass(table, old(classText));
        characterClass == ClassFieldOf(resolved) && table' == t
      ensures !TextTruthy(old(classText)) ==> characterClass == old(characterClass) && table' == table
    {
      var text := classText;
      classText := None;
      table' := table;
      if text.Some? && text.value != [] {
        var (t, resolved) := ResolveClass(table, text);
        characterClass := ClassFieldOf(resolved);
        table' := t;
      }
    }

    /**
     * `update`: the text is popped; a class is written only when the text
     * resolves to one, so blank text leaves the stored class untouched.
     */
    method PrepareUpdate(table: ClassTable) returns (table': ClassTable)
      requires table.Valid()
      modifies this
      ensures table'.Valid()
      ensures classText.None?
      ensures old(classText).Some? && Trim(old(classText).value) != [] ==>
        var (t, resolved) := ResolveClass(table, old(classText));
        resolved.Some? && characterClass == ClassId(resolved.value) && table' == t
      ensures old(classText).None? || Trim(old(classText).value) == [] ==>
        characterClass == old(characterClass) && table' == table
    {
      var text := classText;
      classText := None;
      table' := table;
      if text.Some? {
        var (t, resolved) := ResolveClass(table, text);
        if resolved.Some? {
          characterClass := ClassId(resolved.value);
          table' := t;
        }
      }
    }
  }

  /** The class a row ends up with: `create` stores the entry or `NULL`; `update` keeps the row's class when the entry is absent. */
  function SavedClass(current: Option<nat>, field: ClassField): (saved: Option<nat>)
    ensures field.Absent? ==> saved == current
    ensures field.NullClass? ==> saved.None?
    ensures field.ClassId? ==> saved == Some(field.id)
  {
    match field
    case Absent => current
    case NullClass => None
    case ClassId(id) => Some(id)
  }
}
