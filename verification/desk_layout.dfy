/**
 * The master's desk frame: the selected campaign lives in the `campaign`
 * query parameter; the sidebar lists the active (non-archived) campaigns;
 * the selection is kept on an active campaign whenever there is one; and
 * the navigation links carry the selection along.
 */
module DeskLayout {
  import opened Common

  datatype DeskCampaign = DeskCampaign(id: nat, name: string, isArchived: bool)

  /** `?campaign=`, the prefix of the query the links carry. */
  const CampaignQuery: string := "?campaign="

  /** The selection read from the query: null when the parameter is absent or empty, else `Number(param)`. */
  function SelectedCampaignId(param: Option<string>): (r: Option<JsNumber>)
    ensures r.None? <==> param.None? || param.value == []
    ensures r.Some? ==> r.value == ParseNumber(param.value)
  {
    if param.Some? && param.value != [] then Some(ParseNumber(param.value)) else None
  }

  /** `!selectedCampaignId` is false: a number other than zero and NaN. */
  predicate SelectionTruthy(sel: Option<JsNumber>) {
    sel.Some? && NumberTruthy(sel.value)
  }

  /** `item.id === selectedCampaignId`. */
  predicate Selects(sel: Option<JsNumber>, c: DeskCampaign) {
    sel == Some(Num(c.id))
  }

  predicate IsActive(c: DeskCampaign) { !c.isArchived }

  /** The sidebar list: the campaigns not archived. */
  function ActiveCampaigns(cs: seq<DeskCampaign>): seq<DeskCampaign> {
    Filter(cs, IsActive)
  }

  /** The active list holds exactly the non-archived campaigns, in their order. */
  lemma ActiveCampaignsAreTheUnarchived(cs: seq<DeskCampaign>)
    ensures forall c :: c in ActiveCampaigns(cs) <==> c in cs && !c.isArchived
    ensures IsSubsequence(ActiveCampaigns(cs), cs)
  {
    FilterMembers(cs, IsActive);
    FilterIsSubsequence(cs, IsActive);
  }

  /** `campaigns.find(item => item.id === selectedCampaignId) || null`: archived ones included. */
  function SelectedCampaign(cs: seq<DeskCampaign>, sel: Option<JsNumber>): (r: Option<DeskCampaign>)
    ensures r.Some? ==> r.value in cs && Selects(sel, r.value)
    ensures r.None? <==> forall c :: c in cs ==> !Selects(sel, c)
  {
    if cs == [] then None
    else if Selects(sel, cs[0]) then Some(cs[0])
    else SelectedCampaign(cs[1..], sel)
  }

  /** The found campaign is the first that matches, archived or not. */
  lemma {:induction false} SelectedCampaignIsFirstMatch(cs: seq<DeskCampaign>, sel: Option<JsNumber>, i: nat)
    requires i < |cs| && Selects(sel, cs[i])
    requires forall j :: 0 <= j < i ==> !Selects(sel, cs[j])
    ensures SelectedCampaign(cs, sel) == Some(cs[i])
  {
    if i > 0 {
      SelectedCampaignIsFirstMatch(cs[1..], sel, i - 1);
    }
  }

  /** `list.some(item => item.id === selectedCampaignId)`. */
  predicate AnySelected(cs: seq<DeskCampaign>, sel: Option<JsNumber>) {
    exists i :: 0 <= i < |cs| && Selects(sel, cs[i])
  }

  /** The query parameter written for a campaign id, `String(id)`. */
  function ParamFor(id: nat): (r: Option<string>)
    ensures SelectedCampaignId(r) == Some(Num(id))
  {
    NumberOfIntToString(id);
    Some(IntToString(id))
  }

  /** A navigation target: `to` plus `?campaign=<id>` exactly when a campaign is selected. */
  function NavTarget(to: string, sel: Option<JsNumber>): string {
    if SelectionTruthy(sel) then to + CampaignQuery + IntToString(sel.value.value) else to
  }

  /**
   * The link keeps its path, and following it reproduces the selection:
   * the text after `?campaign=` reads back as the same id.
   */
  lemma NavTargetCarriesSelection(to: string, sel: Option<JsNumber>)
    ensures var t := NavTarget(to, sel);
      |t| >= |to| && t[..|to|] == to &&
      (!SelectionTruthy(sel) ==> t == to) &&
      (SelectionTruthy(sel) ==>
        |t| > |to| + |CampaignQuery| &&
        t[|to|..|to| + |CampaignQuery|] == CampaignQuery &&
        SelectedCampaignId(Some(t[|to| + |CampaignQuery|..])) == sel)
  {
    if SelectionTruthy(sel) {
      var t := NavTarget(to, sel);
      var q := IntToString(sel.value.value);
      assert t[|to| + |CampaignQuery|..] == q;
      NumberOfIntToString(sel.value.value);
    }
  }

  /** The first non-archived campaign, `list.find(item => !item.is_archived)`. */
  function FirstActive(cs: seq<DeskCampaign>): (r: Option<DeskCampaign>)
    ensures r.Some? ==> r.value in cs && IsActive(r.value)
    ensures r.None? <==> ActiveCampaigns(cs) == []
    ensures r.Some? ==> r.value == ActiveCampaigns(cs)[0]
  {
    if cs == [] then None
    else if IsActive(cs[0]) then Some(cs[0])
    else FirstActive(cs[1..])
  }

  class Desk {
    var campaigns: seq<DeskCampaign>
    var campaignParam: Option<string>

    constructor (param: Option<string>)
      ensures campaigns == [] && campaignParam == param
    {
      campaigns := [];
      campaignParam := param;
    }

    function Selected(): Option<JsNumber>
      reads this
    {
      SelectedCampaignId(campaignParam)
    }

    /**
     * The reconciliation effect: with at least one active campaign, a
     * selection that is falsy or not active is replaced by the first active
     * campaign; with none, nothing changes.
     */
    method Reconcile()
      modifies this`campaignParam
      ensures var active := ActiveCampaigns(campaigns);
        campaignParam ==
          if active == [] then old(campaignParam)
          else if !SelectionTruthy(old(Selected())) || !AnySelected(active, old(Selected())) then ParamFor(active[0].id)
          else old(campaignParam)
      ensures ActiveCampaigns(campaigns) != [] ==> AnySelected(ActiveCampaigns(campaigns), Selected())
    {
      var active := ActiveCampaigns(campaigns);
      if |active| == 0 {
        return;
      }
      if !SelectionTruthy(Selected()) || !AnySelected(active, Selected()) {
        campaignParam := ParamFor(active[0].id);
        assert Selects(Selected(), active[0]);
      }
    }

    /**
     * `refreshCampaigns`: the list is replaced; only when nothing is
     * selected does the first non-archived campaign, if any, become the
     * selection.
     */
    method RefreshCampaigns(list: seq<DeskCampaign>)
      modifies this`campaigns, this`campaignParam
      ensures campaigns == list
      ensures SelectionTruthy(old(Selected())) ==> campaignParam == old(campaignParam)
      ensures !SelectionTruthy(old(Selected())) ==>
        campaignParam == (if FirstActive(list).Some? then ParamFor(FirstActive(list).value.id) else old(campaignParam))
      ensures !SelectionTruthy(old(Selected())) && ActiveCampaigns(list) != [] ==>
        Selects(Selected(), ActiveCampaigns(list)[0])
    {
      campaigns := list;
      if !SelectionTruthy(Selected()) {
        var next := FirstActive(list);
        if next.Some? {
          campaignParam := ParamFor(next.value.id);
        }
      }
    }

    /** Picking a campaign in the sidebar writes its id into the query. */
    method SelectCampaign(id: nat)
      modifies this`campaignParam
      ensures campaignParam == ParamFor(id)
      ensures Selected() == Some(Num(id))
    {
      campaignParam := ParamFor(id);
    }
  }
}
