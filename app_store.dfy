/** The front end's global state: the current view, the selected lead, the session and the campaigns. */
module AppStore {

  import opened Wrappers
  import opened UiTypes

  /** `ViewId`. */
  datatype ViewId = Dashboard | Leads | LeadsDetail | Analytics | Automations | Settings

  /** The store; each setter merges a fixed set of fields into the state and leaves the rest. */
  class AppState {
    var currentView: ViewId
    var selectedLead: Option<Lead>
    var user: Option<User>
    var accessToken: Option<string>
    var initializing: bool
    var campaigns: seq<Campaign>

    /** The initial state: dashboard, nothing selected, signed out, initializing, no campaigns. */
    constructor ()
      ensures currentView == Dashboard && selectedLead.None?
      ensures user.None? && accessToken.None?
      ensures initializing && campaigns == []
    {
      currentView := Dashboard;
      selectedLead := None;
      user := None;
      accessToken := None;
      initializing := true;
      campaigns := [];
    }

    /** `setView`: only the view changes; the selection is kept. */
    method SetView(view: ViewId)
      modifies this
      ensures currentView == view
      ensures selectedLead == old(selectedLead) && user == old(user) && accessToken == old(accessToken)
      ensures initializing == old(initializing) && campaigns == old(campaigns)
    {
      currentView := view;
    }

    /** `selectLead`: select (or clear) the lead and show its detail (or the list). */
    method SelectLead(lead: Option<Lead>)
      modifies this
      ensures selectedLead == lead
      ensures currentView == (if lead.Some? then LeadsDetail else Leads)
      ensures user == old(user) && accessToken == old(accessToken)
      ensures initializing == old(initializing) && campaigns == old(campaigns)
    {
      selectedLead := lead;
      currentView := if lead.Some? then LeadsDetail else Leads;
    }

    /** `setAuth`: exactly the user and the token change. */
    method SetAuth(user: Option<User>, token: Option<string>)
      modifies this
      ensures this.user == user && accessToken == token
      ensures currentView == old(currentView) && selectedLead == old(selectedLead)
      ensures initializing == old(initializing) && campaigns == old(campaigns)
    {
      this.user := user;
      accessToken := token;
    }

    /** `setCampaigns`: only the campaigns change. */
    method SetCampaigns(campaigns: seq<Campaign>)
      modifies this
      ensures this.campaigns == campaigns
      ensures currentView == old(currentView) && selectedLead == old(selectedLead)
      ensures user == old(user) && accessToken == old(accessToken) && initializing == old(initializing)
    {
      this.campaigns := campaigns;
    }

    /** `setInitializing`: only the flag changes. */
    method SetInitializing(value: bool)
      modifies this
      ensures initializing == value
      ensures currentView == old(currentView) && selectedLead == old(selectedLead)
      ensures user == old(user) && accessToken == old(accessToken) && campaigns == old(campaigns)
    {
      initializing := value;
    }
  }

  /**
   * `setView` does not look at the selection, so the detail view can be
   * shown with no lead selected: from the initial state, one call suffices.
   */
  method DetailWithoutLead() returns (s: AppState)
    ensures s.currentView == LeadsDetail && s.selectedLead.None?
  {
    s := new AppState();
    s.SetView(LeadsDetail);
  }

  /** Selecting a lead and then clearing the selection returns to the list. */
  method SelectThenClear(lead: Lead) returns (s: AppState)
    ensures s.currentView == Leads && s.selectedLead.None?
  {
    s := new AppState();
    s.SelectLead(Some(lead));
    assert s.currentView == LeadsDetail && s.selectedLead == Some(lead);
    s.SelectLead(None);
  }
}
