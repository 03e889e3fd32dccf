/**
 * frontend/src/App.tsx: which screen is shown, the selected campaign and
 * the selected ad group, changed only through the named handlers.
 */
module AppView {
  import opened Wrappers
  import opened UiTypes

  /** `ViewType`. */
  datatype View = CampaignListView | CampaignFormView | AdGroupListView | AdGroupFormView

  /** What `<main>` renders: one screen with its props, or nothing. */
  datatype Screen =
    | CampaignListScreen
    | CampaignFormScreen
    | AdGroupListScreen(campaign: Campaign)
    | AdGroupFormScreen(campaign: Campaign, adGroup: Option<AdGroup>)
    | NoScreen

  class App {
    var view: View
    var selectedCampaign: Option<Campaign>
    var selectedAdGroup: Option<AdGroup>

    /** The first render: the campaign list, nothing selected. */
    constructor()
      ensures view == CampaignListView && selectedCampaign == None && selectedAdGroup == None
    {
      view := CampaignListView;
      selectedCampaign := None;
      selectedAdGroup := None;
    }

    /**
     * The render guards: the two ad-group screens appear only with a
     * selected campaign; with none, those views render nothing.
     */
    function Rendered(): (s: Screen)
      reads this
      ensures s == CampaignListScreen <==> view == CampaignListView
      ensures s == CampaignFormScreen <==> view == CampaignFormView
      ensures s.AdGroupListScreen? <==> view == AdGroupListView && selectedCampaign.Some?
      ensures s.AdGroupFormScreen? <==> view == AdGroupFormView && selectedCampaign.Some?
      ensures (s.AdGroupListScreen? || s.AdGroupFormScreen?) ==> s.campaign == selectedCampaign.value
      ensures s.AdGroupFormScreen? ==> s.adGroup == selectedAdGroup
      ensures s == NoScreen <==> (view == AdGroupListView || view == AdGroupFormView) && selectedCampaign.None?
    {
      match view
      case CampaignListView => CampaignListScreen
      case CampaignFormView => CampaignFormScreen
      case AdGroupListView => if selectedCampaign.Some? then AdGroupListScreen(selectedCampaign.value) else NoScreen
      case AdGroupFormView =>
        if selectedCampaign.Some? then AdGroupFormScreen(selectedCampaign.value, selectedAdGroup) else NoScreen
    }

    /** `onNewCampaign`: the inline `() => setView('campaign-form')`; the selections stay. */
    method HandleNewCampaign()
      modifies this
      ensures view == CampaignFormView && Rendered() == CampaignFormScreen
      ensures selectedCampaign == old(selectedCampaign) && selectedAdGroup == old(selectedAdGroup)
    {
      view := CampaignFormView;
    }

    /** `handleViewAdGroups(campaign)`: selects it and shows its ad groups; the selected ad group stays. */
    method HandleViewAdGroups(campaign: Campaign)
      modifies this
      ensures view == AdGroupListView && selectedCampaign == Some(campaign)
      ensures selectedAdGroup == old(selectedAdGroup)
      ensures Rendered() == AdGroupListScreen(campaign)
    {
      selectedCampaign := Some(campaign);
      view := AdGroupListView;
    }

    /** `handleNewAdGroup`: an empty form; the selected campaign stays. */
    method HandleNewAdGroup()
      modifies this
      ensures view == AdGroupFormView && selectedAdGroup == None
      ensures selectedCampaign == old(selectedCampaign)
      ensures selectedCampaign.Some? ==> Rendered() == AdGroupFormScreen(selectedCampaign.value, None)
    {
      selectedAdGroup := None;
      view := AdGroupFormView;
    }

    /** `handleEditAdGroup(adGroup)`: the form for that ad group; the selected campaign stays. */
    method HandleEditAdGroup(adGroup: AdGroup)
      modifies this
      ensures view == AdGroupFormView && selectedAdGroup == Some(adGroup)
      ensures selectedCampaign == old(selectedCampaign)
      ensures selectedCampaign.Some? ==> Rendered() == AdGroupFormScreen(selectedCampaign.value, Some(adGroup))
    {
      selectedAdGroup := Some(adGroup);
      view := AdGroupFormView;
    }

    /**
     * `handleBackToCampaigns`: clears both selections and shows the list.
     * It is the header's click handler and the campaign form's cancel and
     * success callback, so it needs nothing of the current state.
     */
    method HandleBackToCampaigns()
      modifies this
      ensures view == CampaignListView && selectedCampaign == None && selectedAdGroup == None
      ensures Rendered() == CampaignListScreen
    {
      selectedCampaign := None;
      selectedAdGroup := None;
      view := CampaignListView;
    }

    /** `handleBackToAdGroups`: clears only the selected ad group and shows the ad-group list. */
    method HandleBackToAdGroups()
      modifies this
      ensures view == AdGroupListView && selectedAdGroup == None
      ensures selectedCampaign == old(selectedCampaign)
      ensures selectedCampaign.Some? ==> Rendered() == AdGroupListScreen(selectedCampaign.value)
    {
      selectedAdGroup := None;
      view := AdGroupListView;
    }
  }
}
