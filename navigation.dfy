/**
 * The page navigator of the single-page app: which page is active, the
 * one-level "last page" memory used by the back button, the visibility of
 * the bottom navigation bar and the highlighting of its buttons.
 *
 * The page elements and the nav buttons are fixed lists taken from the
 * markup (their ids and their data-page attributes, in document order);
 * the 'active' class of each is a boolean in an array parallel to them.
 */
module Navigation {
  import opened Wrappers

  type PageId = string

  const Landing: PageId := "landing"
  const Home: PageId := "home"
  const AddRecord: PageId := "add-record"
  const PassportLogin: PageId := "passport-login"
  const PassportRecords: PageId := "passport-records"
  const CloseTool: PageId := "close-tool"
  const MyopiaSimulator: PageId := "myopia-simulator"
  const PassportPrefix: string := "passport"

  /** String.prototype.startsWith. */
  predicate StartsWith(s: string, prefix: string) {
    prefix <= s
  }

  /** Pages that light up the passport nav group. */
  predicate InPassportGroup(pageId: PageId) {
    StartsWith(pageId, PassportPrefix) || pageId == AddRecord
  }

  /** Nav buttons that belong to the passport group. */
  predicate IsPassportButton(btnPage: PageId) {
    StartsWith(btnPage, PassportPrefix)
  }

  // ---------------------------------------------------------------------
  // Highlighting of the bottom navigation (updateNav)
  // ---------------------------------------------------------------------

  /** Whether the nav button whose data-page is `btnPage` is highlighted
      while `pageId` is shown, computed as the source's per-button rule. */
  function ButtonActive(btnPage: PageId, pageId: PageId): (r: bool)
    ensures pageId == Landing ==> !r
    ensures pageId != Landing && InPassportGroup(pageId) ==>
      (r <==> IsPassportButton(btnPage) || btnPage == pageId)
    ensures pageId != Landing && !InPassportGroup(pageId) ==>
      (r <==> btnPage == pageId)
  {
    var isPassportRelated := StartsWith(pageId, PassportPrefix) || pageId == AddRecord;
    var isBtnPassport := StartsWith(btnPage, PassportPrefix);
    var isBtnActive := (isPassportRelated && isBtnPassport) || btnPage == pageId;
    var isBtnActive := if pageId == Home && btnPage == Home then true else isBtnActive;
    if pageId == Landing then false else isBtnActive
  }

  /** The highlight flags of all nav buttons after updateNav(pageId). */
  function Highlights(buttons: seq<PageId>, pageId: PageId): (h: seq<bool>)
    ensures |h| == |buttons|
  {
    seq(|buttons|, i requires 0 <= i < |buttons| => ButtonActive(buttons[i], pageId))
  }

  // ---------------------------------------------------------------------
  // Page lookup
  // ---------------------------------------------------------------------

  /** The first page carrying the 'active' class, as querySelector('.page.active') finds it. */
  function FirstActiveIndex(active: seq<bool>): (r: Option<nat>)
    ensures r.Some? ==> r.value < |active| && active[r.value]
    ensures r.Some? ==> forall j :: 0 <= j < r.value ==> !active[j]
    ensures r.None? ==> forall j :: 0 <= j < |active| ==> !active[j]
  {
    if active == [] then None
    else if active[0] then Some(0)
    else match FirstActiveIndex(active[1..])
      case None => None
      case Some(k) => Some(k + 1)
  }

  /** The id of the active page, if any page is active. */
  function CurrentPage(pages: seq<PageId>, active: seq<bool>): (r: Option<PageId>)
    requires |active| == |pages|
    ensures r.Some? ==> r.value in pages
    ensures r.Some? ==> exists k :: 0 <= k < |pages| && active[k] && pages[k] == r.value
                                 && (forall j :: 0 <= j < k ==> !active[j])
    ensures r.None? <==> forall j :: 0 <= j < |active| ==> !active[j]
  {
    match FirstActiveIndex(active)
    case None => None
    case Some(k) => Some(pages[k])
  }

  /** The first page element with the given id, as getElementById finds it. */
  function IndexOf(pages: seq<PageId>, pageId: PageId): (r: Option<nat>)
    ensures r.Some? ==> r.value < |pages| && pages[r.value] == pageId
    ensures r.Some? ==> forall j :: 0 <= j < r.value ==> pages[j] != pageId
    ensures r.None? <==> pageId !in pages
  {
    if pages == [] then None
    else if pages[0] == pageId then Some(0)
    else match IndexOf(pages[1..], pageId)
      case None => None
      case Some(k) => Some(k + 1)
  }

  /** The number of pages marked active. */
  function ActiveCount(active: seq<bool>): nat
  {
    if active == [] then 0 else (if active[0] then 1 else 0) + ActiveCount(active[1..])
  }

  /** The active flags after every page is deactivated and the page found
      for `pageId` (if any) is activated. */
  function Activated(pages: seq<PageId>, pageId: PageId): (a: seq<bool>)
    ensures |a| == |pages|
  {
    seq(|pages|, i requires 0 <= i < |pages| => IndexOf(pages, pageId) == Some(i))
  }

  // ---------------------------------------------------------------------
  // The navigation state machine (navigateTo, goBack)
  // ---------------------------------------------------------------------

  /** Everything navigateTo changes: the pages' active flags, the buttons'
      highlight flags, the remembered last page and whether the bottom nav
      is hidden. */
  datatype NavView = NavView(active: seq<bool>, highlighted: seq<bool>, lastPage: PageId, navHidden: bool)

  predicate WellFormed(pages: seq<PageId>, buttons: seq<PageId>, v: NavView) {
    |v.active| == |pages| && |v.highlighted| == |buttons|
  }

  datatype Facing = User | Environment

  /** What happens to the camera on entering a page. */
  datatype CameraEffect = StartCamera(facing: Facing) | StopCamera

  /** What happens to the outdoor tracker's refresh loop on entering a page. */
  datatype TrackerEffect = InitializeTracker | CancelRefresh

  /** The result of a navigation: the destination does not exist (the
      source then fails with a TypeError part way through), or the page is
      shown and these page-specific hooks fire. */
  datatype NavOutcome = UnknownPage | Shown(camera: CameraEffect, tracker: TrackerEffect)

  /** The lifecycle hooks keyed by destination page. */
  function PageHooks(pageId: PageId): (o: NavOutcome)
    ensures o.Shown?
    ensures o.camera.StartCamera? <==> pageId == CloseTool || pageId == MyopiaSimulator
    ensures o.camera == StartCamera(User) <==> pageId == CloseTool
    ensures o.tracker == InitializeTracker <==> pageId == PassportRecords
  {
    var camera :=
      if pageId == CloseTool then StartCamera(User)
      else if pageId == MyopiaSimulator then StartCamera(Environment)
      else StopCamera;
    var tracker := if pageId == PassportRecords then InitializeTracker else CancelRefresh;
    Shown(camera, tracker)
  }

  datatype Transition = Transition(view: NavView, outcome: NavOutcome)

  /** navigateTo(pageId) as a function of the state before the call. */
  function Navigate(pages: seq<PageId>, buttons: seq<PageId>, v: NavView, pageId: PageId): (t: Transition)
    requires WellFormed(pages, buttons, v)
    ensures WellFormed(pages, buttons, t.view)
  {
    var last := match CurrentPage(pages, v.active)
      case Some(p) => p
      case None => v.lastPage;
    var active := Activated(pages, pageId);
    if pageId !in pages then
      Transition(v.(active := active, lastPage := last), UnknownPage)
    else
      Transition(NavView(active, Highlights(buttons, pageId), last, pageId == Landing), PageHooks(pageId))
  }

  /** goBack(): navigate to the remembered page. */
  function Back(pages: seq<PageId>, buttons: seq<PageId>, v: NavView): (t: Transition)
    requires WellFormed(pages, buttons, v)
    ensures WellFormed(pages, buttons, t.view)
  {
    Navigate(pages, buttons, v, v.lastPage)
  }

  /** The destination of a click on the nav button whose data-page is `btnPage`. */
  function ClickTarget(btnPage: PageId, isLoggedIn: bool): (r: PageId)
    ensures IsPassportButton(btnPage) ==> r == (if isLoggedIn then PassportRecords else PassportLogin)
    ensures !IsPassportButton(btnPage) ==> r == btnPage
  {
    if StartsWith(btnPage, PassportPrefix) then
      (if isLoggedIn then PassportRecords else PassportLogin)
    else btnPage
  }

  // ---------------------------------------------------------------------
  // Properties
  // ---------------------------------------------------------------------

  lemma {:induction false} NoneActive(active: seq<bool>)
    requires forall j :: 0 <= j < |active| ==> !active[j]
    ensures ActiveCount(active) == 0
  {
    if active != [] {
      NoneActive(active[1..]);
    }
  }

  /** A flag sequence with exactly one true flag, at k, has exactly one
      active page and querySelector finds it at k. */
  lemma {:induction false} SingleActive(active: seq<bool>, k: nat)
    requires k < |active|
    requires forall j :: 0 <= j < |active| ==> (active[j] <==> j == k)
    ensures ActiveCount(active) == 1
    ensures FirstActiveIndex(active) == Some(k)
  {
    if k == 0 {
      NoneActive(active[1..]);
    } else {
      SingleActive(active[1..], k - 1);
    }
  }

  /** After navigateTo(p) exactly one page is active and it is p, or, when no
      page is called p, none is; lastPage is the page active before the call,
      or is kept when none was. The bottom nav is hidden exactly on landing. */
  lemma NavigateShowsOnlyTarget(pages: seq<PageId>, buttons: seq<PageId>, v: NavView, p: PageId)
    requires WellFormed(pages, buttons, v)
    ensures var t := Navigate(pages, buttons, v, p);
      && (p in pages ==> ActiveCount(t.view.active) == 1 && CurrentPage(pages, t.view.active) == Some(p))
      && (p in pages ==> t.view.navHidden == (p == Landing) && t.view.highlighted == Highlights(buttons, p))
      && (p in pages ==> t.outcome == PageHooks(p))
      && (p !in pages ==> ActiveCount(t.view.active) == 0 && t.outcome == UnknownPage)
      && (p !in pages ==> t.view.navHidden == v.navHidden && t.view.highlighted == v.highlighted)
      && t.view.lastPage == (if CurrentPage(pages, v.active).Some? then CurrentPage(pages, v.active).value else v.lastPage)
  {
    var a := Activated(pages, p);
    match IndexOf(pages, p)
    case None =>
      NoneActive(a);
    case Some(k) =>
      SingleActive(a, k);
  }

  /** goBack after navigateTo(p) returns to the page that was active before,
      and a second goBack returns to p: the memory holds one page only. */
  lemma GoBackReturns(pages: seq<PageId>, buttons: seq<PageId>, v: NavView, q: PageId, p: PageId)
    requires WellFormed(pages, buttons, v)
    requires CurrentPage(pages, v.active) == Some(q)
    requires p in pages
    ensures var w := Navigate(pages, buttons, v, p).view;
      && w.lastPage == q
      && var u := Back(pages, buttons, w).view;
      && CurrentPage(pages, u.active) == Some(q)
      && u.lastPage == p
      && CurrentPage(pages, Back(pages, buttons, u).view.active) == Some(p)
  {
    var w := Navigate(pages, buttons, v, p).view;
    NavigateShowsOnlyTarget(pages, buttons, v, p);
    var u := Back(pages, buttons, w).view;
    NavigateShowsOnlyTarget(pages, buttons, w, q);
    NavigateShowsOnlyTarget(pages, buttons, u, p);
  }

  /** On landing the bottom nav is hidden and no nav button is highlighted. */
  lemma LandingHidesNav(pages: seq<PageId>, buttons: seq<PageId>, v: NavView)
    requires WellFormed(pages, buttons, v)
    requires Landing in pages
    ensures var t := Navigate(pages, buttons, v, Landing);
      t.view.navHidden && forall i :: 0 <= i < |buttons| ==> !t.view.highlighted[i]
  {
  }

  /** A nav click reaches the records page only when logged in, and a click
      on a passport button always stays in the passport group. */
  lemma RecordsOnlyWhenLoggedIn(btnPage: PageId, isLoggedIn: bool)
    ensures ClickTarget(btnPage, isLoggedIn) == PassportRecords ==> isLoggedIn
    ensures IsPassportButton(btnPage) ==> IsPassportButton(ClickTarget(btnPage, isLoggedIn))
  {
  }

  // ---------------------------------------------------------------------
  // The navigator object
  // ---------------------------------------------------------------------

  class Navigator {
    /** Ids of the page elements, in document order. */
    const pages: seq<PageId>
    /** data-page of each bottom-nav button, in document order. */
    const buttons: seq<PageId>
    /** The 'active' class of each page element. */
    const active: array<bool>
    /** The 'active' class of each nav button. */
    const highlighted: array<bool>
    var lastPage: PageId
    var navHidden: bool

    ghost predicate Valid() {
      active.Length == |pages| && highlighted.Length == |buttons| && active != highlighted
    }

    ghost function View(): NavView
      reads this, active, highlighted
    {
      NavView(active[..], highlighted[..], lastPage, navHidden)
    }

    /** The markup's initial classes are a parameter: which pages start
        active; no button starts highlighted and the bar starts visible. */
    constructor (pages: seq<PageId>, buttons: seq<PageId>, initiallyActive: seq<bool>)
      requires |initiallyActive| == |pages|
      ensures Valid() && fresh(active) && fresh(highlighted)
      ensures this.pages == pages && this.buttons == buttons
      ensures View() == NavView(initiallyActive, seq(|buttons|, _ => false), Landing, false)
    {
      this.pages := pages;
      this.buttons := buttons;
      active := new bool[|pages|](i requires 0 <= i < |pages| => initiallyActive[i]);
      highlighted := new bool[|buttons|](_ => false);
      lastPage := Landing;
      navHidden := false;
    }

    /** navigateTo(pageId). */
    method NavigateTo(pageId: PageId) returns (outcome: NavOutcome)
      requires Valid()
      modifies this, active, highlighted
      ensures Valid()
      ensures var t := Navigate(pages, buttons, old(View()), pageId);
        View() == t.view && outcome == t.outcome
    {
      match CurrentPage(pages, active[..]) {
        case Some(p) => lastPage := p;
        case None =>
      }
      var i := 0;
      while i < active.Length
        modifies active
        invariant 0 <= i <= active.Length
        invariant forall j :: 0 <= j < i ==> !active[j]
      {
        active[i] := false;
        i := i + 1;
      }
      var target := IndexOf(pages, pageId);
      if target.None? {
        assert active[..] == Activated(pages, pageId);
        return UnknownPage;
      }
      active[target.value] := true;
      assert active[..] == Activated(pages, pageId);
      navHidden := pageId == Landing;
      UpdateNav(pageId);
      outcome := PageHooks(pageId);
    }

    /** updateNav(pageId): set every nav button's highlight. */
    method UpdateNav(pageId: PageId)
      requires Valid()
      modifies highlighted
      ensures highlighted[..] == Highlights(buttons, pageId)
    {
      var i := 0;
      while i < highlighted.Length
        invariant 0 <= i <= highlighted.Length
        invariant forall j :: 0 <= j < i ==> highlighted[j] == ButtonActive(buttons[j], pageId)
      {
        highlighted[i] := ButtonActive(buttons[i], pageId);
        i := i + 1;
      }
    }

    /** goBack(). */
    method GoBack() returns (outcome: NavOutcome)
      requires Valid()
      modifies this, active, highlighted
      ensures Valid()
      ensures var t := Back(pages, buttons, old(View()));
        View() == t.view && outcome == t.outcome
    {
      outcome := NavigateTo(lastPage);
    }
  }
}
