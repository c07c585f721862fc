/**
 * The application's global state and the event handlers that tie the
 * components together: nav-button clicks, log in and log out, saving an
 * exam record, the optometrist button of the recommendation dialog, the
 * next-picture button and the start-up sequence.
 */
module MyopiaApp {
  import opened Wrappers
  import opened Navigation
  import opened RecordsLedger
  import opened DistanceGame

  class App {
    const nav: Navigator
    const ledger: Ledger
    var isLoggedIn: bool
    var currentGameImageIndex: nat

    ghost predicate Valid()
      reads this
    {
      nav.Valid() && currentGameImageIndex < |GameImageNames|
    }

    /** The state at load: logged out, first picture, the two seeded records. */
    constructor (pages: seq<PageId>, buttons: seq<PageId>, initiallyActive: seq<bool>)
      requires |initiallyActive| == |pages|
      ensures Valid()
      ensures fresh(nav) && fresh(nav.active) && fresh(nav.highlighted) && fresh(ledger)
      ensures nav.pages == pages && nav.buttons == buttons
      ensures nav.View() == NavView(initiallyActive, seq(|buttons|, _ => false), Landing, false)
      ensures !isLoggedIn && currentGameImageIndex == 0 && ledger.records == SeedRecords
    {
      nav := new Navigator(pages, buttons, initiallyActive);
      ledger := new Ledger.Seeded();
      isLoggedIn := false;
      currentGameImageIndex := 0;
    }

    /** DOMContentLoaded: render the records, then, once the splash delay has
        passed, show the landing page. */
    method Start() returns (view: Rendered, outcome: NavOutcome)
      requires Valid()
      modifies nav, nav.active, nav.highlighted, ledger
      ensures Valid()
      ensures old(ledger.records) == [] ==> ledger.records == [] && view == NoRecordsMessage
      ensures old(ledger.records) != [] ==> ledger.records == SortNewestFirst(old(ledger.records))
      ensures old(ledger.records) != [] ==> view.Cards? && |view.cards| == |ledger.records|
      ensures old(ledger.records) != [] ==> forall i :: 0 <= i < |ledger.records| ==>
        view.Cards? && view.cards[i] == Card(ledger.records[i], ProgressionAt(ledger.records, i))
      ensures var t := Navigate(nav.pages, nav.buttons, old(nav.View()), Landing);
        nav.View() == t.view && outcome == t.outcome
    {
      view := ledger.Render();
      outcome := nav.NavigateTo(Landing);
    }

    /** A click on the nav button whose data-page is `btnPage`. */
    method ClickNavButton(btnPage: PageId) returns (outcome: NavOutcome)
      requires Valid()
      modifies nav, nav.active, nav.highlighted
      ensures Valid()
      ensures var t := Navigate(nav.pages, nav.buttons, old(nav.View()), ClickTarget(btnPage, isLoggedIn));
        nav.View() == t.view && outcome == t.outcome
    {
      var pageId := btnPage;
      if StartsWith(pageId, PassportPrefix) {
        pageId := if isLoggedIn then PassportRecords else PassportLogin;
      }
      outcome := nav.NavigateTo(pageId);
    }

    /** The login button: log in, render the records, show them. */
    method Login() returns (view: Rendered, outcome: NavOutcome)
      requires Valid()
      modifies this, nav, nav.active, nav.highlighted, ledger
      ensures Valid() && isLoggedIn
      ensures currentGameImageIndex == old(currentGameImageIndex)
      ensures old(ledger.records) == [] ==> ledger.records == [] && view == NoRecordsMessage
      ensures old(ledger.records) != [] ==> ledger.records == SortNewestFirst(old(ledger.records))
      ensures old(ledger.records) != [] ==> view.Cards? && |view.cards| == |ledger.records|
      ensures old(ledger.records) != [] ==> forall i :: 0 <= i < |ledger.records| ==>
        view.Cards? && view.cards[i] == Card(ledger.records[i], ProgressionAt(ledger.records, i))
      ensures var t := Navigate(nav.pages, nav.buttons, old(nav.View()), PassportRecords);
        nav.View() == t.view && outcome == t.outcome
    {
      isLoggedIn := true;
      view := ledger.Render();
      outcome := nav.NavigateTo(PassportRecords);
    }

    /** The logout button. */
    method Logout() returns (outcome: NavOutcome)
      requires Valid()
      modifies this, nav, nav.active, nav.highlighted
      ensures Valid() && !isLoggedIn
      ensures currentGameImageIndex == old(currentGameImageIndex)
      ensures var t := Navigate(nav.pages, nav.buttons, old(nav.View()), PassportLogin);
        nav.View() == t.view && outcome == t.outcome
    {
      isLoggedIn := false;
      outcome := nav.NavigateTo(PassportLogin);
    }

    /** The save-record button: append one record built from the form (each
        sphere the parse of its field, None when it is not a number), render
        and show the records. */
    method SaveRecord(date: Date, optometrist: string, odParsed: Option<real>, osParsed: Option<real>, notes: string)
      returns (view: Rendered, outcome: NavOutcome)
      requires Valid()
      modifies nav, nav.active, nav.highlighted, ledger
      ensures Valid()
      ensures var rec := ExamRecord(date, optometrist, SphereOrZero(odParsed), SphereOrZero(osParsed), notes);
        ledger.records == SortNewestFirst(old(ledger.records) + [rec])
      ensures |ledger.records| == |old(ledger.records)| + 1
      ensures view.Cards? && |view.cards| == |ledger.records|
      ensures forall i :: 0 <= i < |ledger.records| ==>
        view.Cards? && view.cards[i] == Card(ledger.records[i], ProgressionAt(ledger.records, i))
      ensures var t := Navigate(nav.pages, nav.buttons, old(nav.View()), PassportRecords);
        nav.View() == t.view && outcome == t.outcome
    {
      var newRecord := ExamRecord(date, optometrist, SphereOrZero(odParsed), SphereOrZero(osParsed), notes);
      ledger.Add(newRecord);
      view := ledger.Render();
      assert |ledger.records| == |old(ledger.records) + [newRecord]| by {
        assert multiset(ledger.records) == multiset(old(ledger.records) + [newRecord]);
      }
      outcome := nav.NavigateTo(PassportRecords);
    }

    /** The recommendation dialog's "find an optometrist" button. */
    method FindOptometrist() returns (outcome: NavOutcome)
      requires Valid()
      modifies nav, nav.active, nav.highlighted
      ensures Valid()
      ensures var t := Navigate(nav.pages, nav.buttons, old(nav.View()), "optometrist-finder");
        nav.View() == t.view && outcome == t.outcome
    {
      outcome := nav.NavigateTo("optometrist-finder");
    }

    /** The next-image button. */
    method NextImage()
      requires Valid()
      modifies this
      ensures Valid()
      ensures currentGameImageIndex == NextImageIndex(old(currentGameImageIndex))
      ensures isLoggedIn == old(isLoggedIn)
    {
      currentGameImageIndex := NextImageIndex(currentGameImageIndex);
    }
  }
}
