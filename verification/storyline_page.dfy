/**
 * The storyline page of the master's desk: the campaign's storylines, each
 * with its list of outcomes loaded one storyline at a time; a form for a new
 * storyline; and, per storyline, a small outcome form whose drafts are kept
 * in a map keyed by storyline id.
 */
module StorylinePage {
  import opened Common

  datatype Storyline = Storyline(id: int, title: string, summary: string, order: int, campaign: int)

  datatype StoryOutcome =
    StoryOutcome(id: int, title: string, condition: string, description: string, order: int, storyline: int)

  /** The new-storyline form; the order input goes through `Number`, so it may be NaN. */
  datatype StorylineDraft = StorylineDraft(title: string, summary: string, order: JsNumber)

  /** The form's start: empty texts and order 1. */
  const InitialStorylineDraft := StorylineDraft("", "", Num(1))

  /** `createStoryline`'s body: the draft's fields plus the campaign. */
  datatype StorylinePayload = StorylinePayload(title: string, summary: string, order: JsNumber, campaign: int)

  datatype OutcomeDraft = OutcomeDraft(title: string, condition: string, description: string)

  const EmptyOutcomeDraft := OutcomeDraft("", "", "")

  /** `createStoryOutcome`'s body. */
  datatype OutcomePayload =
    OutcomePayload(title: string, condition: string, description: string, order: nat, storyline: int)

  /** The three inputs of an outcome form. */
  datatype OutcomeField = OutcomeTitle | OutcomeCondition | OutcomeDescription

  /** The three inputs of the new-storyline form. */
  datatype StorylineField = StorylineTitle | StorylineSummary | StorylineOrder

  datatype StorylineError = ChooseCampaignFirst | EnterOutcomeTitle | ServerError(message: string)

  /** How a create call ended. */
  datatype CallResult = Succeeded | Failed(message: string)

  type OutcomeMap = map<int, seq<StoryOutcome>>

  // ---------------------------------------------------------------------------
  // Loading
  // ---------------------------------------------------------------------------

  /**
   * The message of the first storyline whose outcome request fails, in list
   * order; `None` when every request succeeds.
   */
  function FirstFailedFetch(lines: seq<Storyline>, outcomesOf: int -> Fetched<seq<StoryOutcome>>): Option<string>
  {
    if lines == [] then None
    else
      var earlier := FirstFailedFetch(lines[..|lines| - 1], outcomesOf);
      var last := outcomesOf(lines[|lines| - 1].id);
      if earlier.Some? then earlier
      else if last.FetchFailed? then Some(last.message)
      else None
  }

  /**
   * The map the loading loop builds when every request succeeds: each
   * storyline's id to the outcomes fetched for it, later entries written last.
   */
  function OutcomeEntries(lines: seq<Storyline>, outcomesOf: int -> Fetched<seq<StoryOutcome>>): OutcomeMap
    requires FirstFailedFetch(lines, outcomesOf).None?
  {
    if lines == [] then map[]
    else
      var last := lines[|lines| - 1];
      OutcomeEntries(lines[..|lines| - 1], outcomesOf)[last.id := outcomesOf(last.id).value]
  }

  /** A failure among the first storylines stays the first failure of the whole list. */
  lemma {:induction false} FirstFailureOfPrefix(lines: seq<Storyline>, outcomesOf: int -> Fetched<seq<StoryOutcome>>, n: nat)
    requires n <= |lines|
    requires FirstFailedFetch(lines[..n], outcomesOf).Some?
    ensures FirstFailedFetch(lines, outcomesOf) == FirstFailedFetch(lines[..n], outcomesOf)
  {
    if n < |lines| {
      var shorter := lines[..|lines| - 1];
      assert shorter[..n] == lines[..n];
      FirstFailureOfPrefix(shorter, outcomesOf, n);
    } else {
      assert lines[..n] == lines;
    }
  }

  /**
   * The loaded map has exactly one entry per loaded storyline id, holding
   * the outcomes the server returned for that id.
   */
  lemma {:induction false} OutcomeEntriesAreOnePerStoryline(lines: seq<Storyline>, outcomesOf: int -> Fetched<seq<StoryOutcome>>)
    requires FirstFailedFetch(lines, outcomesOf).None?
    ensures forall id :: id in OutcomeEntries(lines, outcomesOf) <==> exists i :: 0 <= i < |lines| && lines[i].id == id
    ensures forall id :: id in OutcomeEntries(lines, outcomesOf) ==>
      outcomesOf(id).Fetched? && OutcomeEntries(lines, outcomesOf)[id] == outcomesOf(id).value
  {
    if lines != [] {
      var shorter := lines[..|lines| - 1];
      var last := lines[|lines| - 1];
      OutcomeEntriesAreOnePerStoryline(shorter, outcomesOf);
      forall id | exists i :: 0 <= i < |lines| && lines[i].id == id
        ensures id in OutcomeEntries(lines, outcomesOf)
      {
        var i :| 0 <= i < |lines| && lines[i].id == id;
        if i < |lines| - 1 {
          assert shorter[i] == lines[i];
        }
      }
      forall id | id in OutcomeEntries(lines, outcomesOf)
        ensures exists i :: 0 <= i < |lines| && lines[i].id == id
      {
        if id != last.id {
          var i :| 0 <= i < |shorter| && shorter[i].id == id;
          assert lines[i] == shorter[i];
        }
      }
    }
  }

  /** `outcomes[storylineId]?.length ? outcomes[storylineId].length + 1 : 1`. */
  function NextOutcomeOrder(outcomes: OutcomeMap, storylineId: int): nat {
    if storylineId in outcomes && |outcomes[storylineId]| != 0 then |outcomes[storylineId]| + 1 else 1
  }

  /** The outcomes a storyline has on the page: its list, or none when it has no entry. */
  function OutcomeCount(outcomes: OutcomeMap, storylineId: int): nat {
    if storylineId in outcomes then |outcomes[storylineId]| else 0
  }

  /**
   * A new outcome comes right after the storyline's current ones: its order
   * is the count plus one, so 1 for a storyline without outcomes.
   */
  lemma NextOutcomeOrderFollowsCount(outcomes: OutcomeMap, storylineId: int)
    ensures NextOutcomeOrder(outcomes, storylineId) == OutcomeCount(outcomes, storylineId) + 1
    ensures OutcomeCount(outcomes, storylineId) == 0 ==> NextOutcomeOrder(outcomes, storylineId) == 1
  {
  }

  // ---------------------------------------------------------------------------
  // Outcome drafts
  // ---------------------------------------------------------------------------

  /** A storyline's outcome draft as its inputs show it: the stored one, or empty texts. */
  function CurrentOutcomeDraft(drafts: map<int, OutcomeDraft>, storylineId: int): OutcomeDraft {
    if storylineId in drafts then drafts[storylineId] else EmptyOutcomeDraft
  }

  /** `prev[id]?.field || ""`: a missing draft reads as empty text. */
  function FieldText(drafts: map<int, OutcomeDraft>, storylineId: int, field: OutcomeField): string {
    var d := CurrentOutcomeDraft(drafts, storylineId);
    match field
    case OutcomeTitle => d.title
    case OutcomeCondition => d.condition
    case OutcomeDescription => d.description
  }

  /**
   * One outcome input changed: that storyline's draft takes the new text in
   * that field and keeps its other fields (empty when it had no draft); every
   * other storyline's draft is left as it was.
   */
  function EditedOutcomeDrafts(drafts: map<int, OutcomeDraft>, storylineId: int, field: OutcomeField, text: string)
    : (r: map<int, OutcomeDraft>)
    ensures r.Keys == drafts.Keys + {storylineId}
    ensures FieldText(r, storylineId, field) == text
    ensures forall other :: other != field ==> FieldText(r, storylineId, other) == FieldText(drafts, storylineId, other)
    ensures forall id :: id in drafts && id != storylineId ==> r[id] == drafts[id]
  {
    var title := if field == OutcomeTitle then text else FieldText(drafts, storylineId, OutcomeTitle);
    var condition := if field == OutcomeCondition then text else FieldText(drafts, storylineId, OutcomeCondition);
    var description := if field == OutcomeDescription then text else FieldText(drafts, storylineId, OutcomeDescription);
    drafts[storylineId := OutcomeDraft(title, condition, description)]
  }

  /** Typing into one storyline's outcome form does not touch what another form shows. */
  lemma EditLeavesOtherFormsAlone(drafts: map<int, OutcomeDraft>, storylineId: int, field: OutcomeField, text: string,
                                  otherId: int, otherField: OutcomeField)
    requires otherId != storylineId
    ensures FieldText(EditedOutcomeDrafts(drafts, storylineId, field, text), otherId, otherField)
         == FieldText(drafts, otherId, otherField)
  {
  }

  /**
   * The outcome form refuses a storyline without a draft or with a title that
   * is blank once trimmed.
   */
  predicate OutcomeRefused(drafts: map<int, OutcomeDraft>, storylineId: int) {
    storylineId !in drafts || Trim(drafts[storylineId].title) == []
  }

  /** Refused exactly when the title the form shows is only whitespace. */
  lemma OutcomeRefusedIffBlankTitle(drafts: map<int, OutcomeDraft>, storylineId: int)
    ensures OutcomeRefused(drafts, storylineId) <==> AllWhitespace(FieldText(drafts, storylineId, OutcomeTitle))
  {
    TrimEmptyIffWhitespace(FieldText(drafts, storylineId, OutcomeTitle));
  }

  // ---------------------------------------------------------------------------
  // The page
  // ---------------------------------------------------------------------------

  class StorylineBoard {
    /** The campaign chosen in the desk frame, null when none. */
    var campaignId: Option<int>
    var storylines: seq<Storyline>
    var outcomes: OutcomeMap
    var error: Option<StorylineError>
    var draft: StorylineDraft
    var outcomeDrafts: map<int, OutcomeDraft>

    constructor (campaign: Option<int>)
      ensures campaignId == campaign && storylines == [] && outcomes == map[] && error.None?
      ensures draft == InitialStorylineDraft && outcomeDrafts == map[]
    {
      campaignId := campaign;
      storylines := [];
      outcomes := map[];
      error := None;
      draft := InitialStorylineDraft;
      outcomeDrafts := map[];
    }

    /**
     * `load`: without a campaign both lists are emptied; otherwise the list
     * request's result replaces the storylines, then the outcomes are fetched
     * storyline by storyline; the first failure stops the loop and leaves the
     * outcome map as it was.
     */
    method Load(list: Fetched<seq<Storyline>>, outcomesOf: int -> Fetched<seq<StoryOutcome>>)
      modifies this`storylines, this`outcomes, this`error
      ensures !IdTruthy(campaignId) ==> storylines == [] && outcomes == map[] && error == old(error)
      ensures IdTruthy(campaignId) && list.FetchFailed? ==>
        storylines == old(storylines) && outcomes == old(outcomes) && error == Some(ServerError(list.message))
      ensures IdTruthy(campaignId) && list.Fetched? ==> storylines == list.value
      ensures IdTruthy(campaignId) && list.Fetched? && FirstFailedFetch(list.value, outcomesOf).None? ==>
        outcomes == OutcomeEntries(list.value, outcomesOf) && error == old(error)
      ensures IdTruthy(campaignId) && list.Fetched? && FirstFailedFetch(list.value, outcomesOf).Some? ==>
        outcomes == old(outcomes) && error == Some(ServerError(FirstFailedFetch(list.value, outcomesOf).value))
    {
      if !IdTruthy(campaignId) {
        storylines := [];
        outcomes := map[];
        return;
      }
      if list.FetchFailed? {
        error := Some(ServerError(list.message));
        return;
      }
      var lines := list.value;
      storylines := lines;
      var entries: OutcomeMap := map[];
      var i := 0;
      while i < |lines|
        invariant 0 <= i <= |lines|
        invariant FirstFailedFetch(lines[..i], outcomesOf).None?
        invariant entries == OutcomeEntries(lines[..i], outcomesOf)
      {
        var fetched := outcomesOf(lines[i].id);
        assert lines[..i + 1][..i] == lines[..i];
        if fetched.FetchFailed? {
          FirstFailureOfPrefix(lines, outcomesOf, i + 1);
          error := Some(ServerError(fetched.message));
          return;
        }
        entries := entries[lines[i].id := fetched.value];
        i := i + 1;
      }
      assert lines[..i] == lines;
      outcomes := entries;
    }

    /** Typing into the new-storyline form; the order input goes through `Number`. */
    method EditDraft(field: StorylineField, text: string)
      modifies this`draft
      ensures draft == match field
        case StorylineTitle => old(draft).(title := text)
        case StorylineSummary => old(draft).(summary := text)
        case StorylineOrder => old(draft).(order := ParseNumber(text))
    {
      match field
      case StorylineTitle => draft := draft.(title := text);
      case StorylineSummary => draft := draft.(summary := text);
      case StorylineOrder => draft := draft.(order := ParseNumber(text));
    }

    /**
     * `handleSubmit`: needs a campaign; sends the draft with the campaign;
     * on success the form resets with the order one past the number of
     * storylines the page showed when the form was sent.
     */
    method SubmitStoryline(result: CallResult) returns (sent: Option<StorylinePayload>)
      modifies this`draft, this`error
      ensures !IdTruthy(campaignId) ==> sent.None? && error == Some(ChooseCampaignFirst) && draft == old(draft)
      ensures IdTruthy(campaignId) ==>
        sent == Some(StorylinePayload(old(draft).title, old(draft).summary, old(draft).order, campaignId.value))
      ensures sent.Some? && result.Failed? ==> error == Some(ServerError(result.message)) && draft == old(draft)
      ensures sent.Some? && result.Succeeded? ==>
        error.None? && draft == StorylineDraft("", "", Num(|storylines| + 1))
    {
      if !IdTruthy(campaignId) {
        error := Some(ChooseCampaignFirst);
        return None;
      }
      error := None;
      sent := Some(StorylinePayload(draft.title, draft.summary, draft.order, campaignId.value));
      if result.Failed? {
        error := Some(ServerError(result.message));
        return;
      }
      draft := StorylineDraft("", "", Num(|storylines| + 1));
    }

    /** One outcome input of one storyline changes. */
    method EditOutcome(storylineId: int, field: OutcomeField, text: string)
      modifies this`outcomeDrafts
      ensures outcomeDrafts == EditedOutcomeDrafts(old(outcomeDrafts), storylineId, field, text)
    {
      outcomeDrafts := EditedOutcomeDrafts(outcomeDrafts, storylineId, field, text);
    }

    /**
     * `handleOutcomeSubmit`: refuses a missing draft or blank title; sends the
     * draft with the next order for that storyline; on success only that
     * storyline's draft is emptied.
     */
    method SubmitOutcome(storylineId: int, result: CallResult) returns (sent: Option<OutcomePayload>)
      modifies this`outcomeDrafts, this`error
      ensures OutcomeRefused(old(outcomeDrafts), storylineId) ==>
        sent.None? && error == Some(EnterOutcomeTitle) && outcomeDrafts == old(outcomeDrafts)
      ensures !OutcomeRefused(old(outcomeDrafts), storylineId) ==>
        var d := old(outcomeDrafts)[storylineId];
        sent == Some(OutcomePayload(d.title, d.condition, d.description, NextOutcomeOrder(outcomes, storylineId), storylineId))
      ensures sent.Some? && result.Failed? ==>
        error == Some(ServerError(result.message)) && outcomeDrafts == old(outcomeDrafts)
      ensures sent.Some? && result.Succeeded? ==>
        error.None? && outcomeDrafts == old(outcomeDrafts)[storylineId := EmptyOutcomeDraft]
    {
      if OutcomeRefused(outcomeDrafts, storylineId) {
        error := Some(EnterOutcomeTitle);
        return None;
      }
      var d := outcomeDrafts[storylineId];
      error := None;
      sent := Some(OutcomePayload(d.title, d.condition, d.description, NextOutcomeOrder(outcomes, storylineId), storylineId));
      if result.Failed? {
        error := Some(ServerError(result.message));
        return;
      }
      outcomeDrafts := outcomeDrafts[storylineId := EmptyOutcomeDraft];
    }
  }
}
