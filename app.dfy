/**
 * The application shell (src/App.tsx): the page selector with its navigation
 * buttons, the module selected from a training card, and the switch that shows
 * or hides the generated pitch script on the Sales Pitch Hub page.
 */
module AppShell {
  import opened Wrappers
  import PitchTemplates
  import ModuleCard

  datatype Page = HomePage | ServicesPage | AudiencePage | PitchPage

  /** The value `currentPage` holds while a page is selected: a known id, "home" for the home page only. */
  function PageId(p: Page): (id: string)
    ensures IsPageId(id)
    ensures id == "home" <==> p == HomePage
  {
    match p
    case HomePage => "home"
    case ServicesPage => "services"
    case AudiencePage => "audience"
    case PitchPage => "pitch"
  }

  predicate IsPageId(s: string) {
    s == "home" || s == "services" || s == "audience" || s == "pitch"
  }

  /** `renderCurrentPage`: each known value to its page, anything else to the home page. */
  function RenderCurrentPage(currentPage: string): (p: Page)
    ensures IsPageId(currentPage) ==> PageId(p) == currentPage
    ensures !IsPageId(currentPage) ==> p == HomePage
  {
    match currentPage
    case "home" => HomePage
    case "services" => ServicesPage
    case "audience" => AudiencePage
    case "pitch" => PitchPage
    case _ => HomePage
  }

  /** Page ids and pages correspond one to one. */
  lemma RenderPageId(p: Page)
    ensures IsPageId(PageId(p)) && RenderCurrentPage(PageId(p)) == p
  {
  }

  /** The navigation buttons, left to right: the page each selects and its caption. */
  datatype NavItem = NavItem(page: string, caption: string)

  function NavItems(): (items: seq<NavItem>)
    ensures |items| == 4
    ensures forall i :: 0 <= i < |items| ==> IsPageId(items[i].page)
    ensures forall i, j :: 0 <= i < |items| && 0 <= j < |items| && items[i].page == items[j].page ==> i == j
  {
    [NavItem("home", "Training Portal"),
     NavItem("services", "Services"),
     NavItem("audience", "Target Audience"),
     NavItem("pitch", "Sales Pitch Hub")]
  }

  /**
   * A NavButton is highlighted when its page is the current one: for a known page,
   * exactly when the current id is known and renders that same page.
   */
  function NavButtonActive(currentPage: string, page: string): (active: bool)
    ensures IsPageId(page) ==>
      (active <==> IsPageId(currentPage) && RenderCurrentPage(currentPage) == RenderCurrentPage(page))
  {
    currentPage == page
  }

  /**
   * For a known current page exactly one button is highlighted, and it is the button
   * of the page being rendered.
   */
  lemma OneActiveButton(currentPage: string, i: nat, j: nat)
    requires IsPageId(currentPage) && i < |NavItems()| && j < |NavItems()|
    requires NavButtonActive(currentPage, NavItems()[i].page)
    ensures NavButtonActive(currentPage, NavItems()[j].page) <==> i == j
    ensures NavItems()[i].page == PageId(RenderCurrentPage(currentPage))
  {
  }

  /** Every known page has its button. */
  lemma EveryPageHasButton(currentPage: string) returns (i: nat)
    requires IsPageId(currentPage)
    ensures i < |NavItems()| && NavButtonActive(currentPage, NavItems()[i].page)
  {
    i := if currentPage == "home" then 0 else if currentPage == "services" then 1
         else if currentPage == "audience" then 2 else 3;
  }

  /** The pitch button's caption follows the flag. */
  function PitchButtonCaption(showPitchScript: bool): (caption: string)
    ensures caption == "Hide Custom Pitch Script" <==> showPitchScript
    ensures caption == "Generate Custom Pitch Script" <==> !showPitchScript
  {
    if showPitchScript then "Hide Custom Pitch Script" else "Generate Custom Pitch Script"
  }

  /** The inputs the Sales Pitch Hub passes to the script viewer. */
  const HubPitchInputs := PitchTemplates.Inputs(
    "AI Digital Marketing & Branding Services", "Mid-Market Technology Company", "Technology")

  /** The script viewer is on the page, with the fixed inputs, exactly while the flag is set. */
  function PitchScriptShown(showPitchScript: bool): (r: Option<PitchTemplates.Inputs>)
    ensures r.Some? <==> showPitchScript
    ensures r.Some? ==> r.value == HubPitchInputs
  {
    if showPitchScript then Some(HubPitchInputs) else None
  }

  /** The App component's three state variables. */
  class AppState {
    var currentPage: string
    var selectedModule: Option<string>
    var showPitchScript: bool

    /** Only the navigation buttons write `currentPage`, and they write known ids. */
    ghost predicate Valid()
      reads this
    {
      IsPageId(currentPage)
    }

    constructor ()
      ensures Valid()
      ensures currentPage == "home" && selectedModule == None && !showPitchScript
    {
      currentPage, selectedModule, showPitchScript := "home", None, false;
    }

    /** A NavButton click: any page in one step, nothing else changes. */
    method Navigate(page: string)
      requires Valid() && IsPageId(page)
      modifies this
      ensures Valid()
      ensures currentPage == page
      ensures selectedModule == old(selectedModule) && showPitchScript == old(showPitchScript)
    {
      currentPage := page;
    }

    /** `handleModuleStart`: remembers the started module's title, nothing else changes. */
    method HandleModuleStart(moduleTitle: string)
      requires Valid()
      modifies this
      ensures Valid()
      ensures selectedModule == Some(moduleTitle)
      ensures currentPage == old(currentPage) && showPitchScript == old(showPitchScript)
    {
      selectedModule := Some(moduleTitle);
    }

    /** The pitch button: flips the flag, nothing else changes. */
    method TogglePitchScript()
      requires Valid()
      modifies this
      ensures Valid()
      ensures showPitchScript == !old(showPitchScript)
      ensures currentPage == old(currentPage) && selectedModule == old(selectedModule)
    {
      showPitchScript := !showPitchScript;
    }

    /** The page being shown. */
    function CurrentPage(): (p: Page)
      reads this
      requires Valid()
      ensures PageId(p) == currentPage
    {
      RenderCurrentPage(currentPage)
    }
  }

  /** Two presses of the pitch button restore the page as it was. */
  method ToggleTwice(app: AppState)
    requires app.Valid()
    modifies app
    ensures app.Valid()
    ensures app.showPitchScript == old(app.showPitchScript)
    ensures app.currentPage == old(app.currentPage) && app.selectedModule == old(app.selectedModule)
  {
    app.TogglePitchScript();
    app.TogglePitchScript();
  }

  /**
   * A module card on the Training Portal finishes its load: its `onStart` is
   * `handleModuleStart` with the card's title, which never throws, so the module is
   * selected, no error is logged and the card leaves its loading state.
   */
  method CardStartsModule(app: AppState, card: ModuleCard.TrainingModuleCard, moduleTitle: string)
    requires app.Valid() && card.Valid() && card.pendingStart
    modifies app, card
    ensures app.Valid() && card.Valid()
    ensures app.selectedModule == Some(moduleTitle)
    ensures app.currentPage == old(app.currentPage) && app.showPitchScript == old(app.showPitchScript)
    ensures !card.isLoading && card.onStartCalls == old(card.onStartCalls) + 1
    ensures card.errorsLogged == old(card.errorsLogged)
  {
    card.FinishStart(false);
    app.HandleModuleStart(moduleTitle);
  }
}
