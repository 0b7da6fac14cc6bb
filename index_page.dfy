/**
 * The page shell: three state cells (dialog open, selected role, logged in),
 * the handlers that set them, and what the page shows in each state. Once
 * logged in, the page shows only the dashboard of the selected role, so no
 * rendered control can change the role or open the dialog again.
 */
module IndexPage {

  import opened UserRoles
  import AuthDialog

  datatype PageState = PageState(authOpen: bool, authType: Role, isLoggedIn: bool)

  const Initial := PageState(false, Donor, false)

  /** The handlers: a role button, the dialog's open-change callback, the dialog's success callback. */
  datatype Event = AuthClick(role: Role) | OpenChange(open: bool) | AuthSuccess

  /**
   * What each handler does: a click sets the role and opens the dialog, an
   * open change sets only the dialog, success logs in and closes the dialog.
   * No handler logs out, and only a click changes the role.
   */
  function Step(s: PageState, e: Event): (r: PageState)
    ensures r.isLoggedIn <==> s.isLoggedIn || e.AuthSuccess?
    ensures e.AuthClick? ==> r.authType == e.role && r.authOpen
    ensures !e.AuthClick? ==> r.authType == s.authType
    ensures e.OpenChange? ==> r.authOpen == e.open
    ensures e.AuthSuccess? ==> !r.authOpen
  {
    match e
    case AuthClick(r) => s.(authType := r, authOpen := true)
    case OpenChange(b) => s.(authOpen := b)
    case AuthSuccess => s.(isLoggedIn := true, authOpen := false)
  }

  /** What the page renders: the landing page with the dialog, or one dashboard. */
  datatype Screen = Landing(dialogOpen: bool, dialogRole: Role) | Dashboard(role: Role)

  function View(s: PageState): (v: Screen)
    ensures v.Dashboard? <==> s.isLoggedIn
    ensures v.Dashboard? ==> v.role == s.authType
    ensures v.Landing? ==> v.dialogOpen == s.authOpen && v.dialogRole == s.authType
  {
    if s.isLoggedIn then Dashboard(s.authType) else Landing(s.authOpen, s.authType)
  }

  /**
   * The roles some rendered button passes to the click handler: the hero,
   * navigation and call-to-action buttons are wired only for donor and
   * patient; the hospital callback is handed to the hero section, which
   * never calls it.
   */
  const WiredRoles: set<Role> := {Donor, Patient}

  /**
   * Whether something on the page can fire the event in state s. Role clicks
   * and open changes come from the landing page and its dialog, which are
   * rendered only while logged out. The success callback is allowed in any
   * state: it is fired by a timer that an earlier submit started, which may
   * run out after the dialog has closed.
   */
  predicate CanOccur(s: PageState, e: Event)
    ensures CanOccur(s, e) && e.AuthClick? ==> e.role != Hospital
    ensures CanOccur(s, e) && s.isLoggedIn ==> e == AuthSuccess
    ensures !s.isLoggedIn && (e == AuthClick(Donor) || e == AuthClick(Patient)) ==> CanOccur(s, e)
  {
    match e
    case AuthClick(r) => !s.isLoggedIn && r in WiredRoles
    case OpenChange(_) => !s.isLoggedIn
    case AuthSuccess => true
  }

  /** Whether every event of es can occur in the state the earlier ones lead to. */
  predicate Possible(s: PageState, es: seq<Event>)
    decreases |es|
  {
    es == [] || (CanOccur(s, es[0]) && Possible(Step(s, es[0]), es[1..]))
  }

  function Run(s: PageState, es: seq<Event>): PageState
    decreases |es|
  {
    if es == [] then s else Run(Step(s, es[0]), es[1..])
  }

  /** There is no way back to the logged-out page, and the dashboard's role never changes. */
  lemma {:induction false} LoggedInIsFinal(s: PageState, es: seq<Event>)
    requires s.isLoggedIn
    requires Possible(s, es)
    ensures Run(s, es).isLoggedIn
    ensures Run(s, es).authType == s.authType
    ensures View(Run(s, es)) == Dashboard(s.authType)
    decreases |es|
  {
    if es != [] {
      LoggedInIsFinal(Step(s, es[0]), es[1..]);
    }
  }

  /** A role other than hospital stays other than hospital along any possible run. */
  lemma {:induction false} NoHospitalFrom(s: PageState, es: seq<Event>)
    requires s.authType != Hospital
    requires Possible(s, es)
    ensures Run(s, es).authType != Hospital
    decreases |es|
  {
    if es != [] {
      NoHospitalFrom(Step(s, es[0]), es[1..]);
    }
  }

  /** From the initial page, neither the hospital dialog nor the hospital dashboard is reachable. */
  lemma HospitalUnreachable(es: seq<Event>)
    requires Possible(Initial, es)
    ensures Run(Initial, es).authType in WiredRoles
    ensures View(Run(Initial, es)) != Dashboard(Hospital)
  {
    NoHospitalFrom(Initial, es);
  }

  /**
   * The page once the outcome of a dialog submit has played out: a rejected
   * submit leaves it as it was; a scheduled success ends in the success
   * callback, which logs in with the role the dialog was opened for.
   */
  function AfterSubmit(s: PageState, o: AuthDialog.SubmitOutcome): (r: PageState)
    ensures r.isLoggedIn <==> s.isLoggedIn || o.SuccessScheduled?
    ensures r.authType == s.authType
    ensures o.SuccessScheduled? ==> View(r) == Dashboard(s.authType)
  {
    match o
    case Rejected(_) => s
    case SuccessScheduled(_) => Step(s, AuthSuccess)
  }

  /** The page's three state cells as a class. */
  class Page {
    var authOpen: bool
    var authType: Role
    var isLoggedIn: bool

    function State(): PageState
      reads this
    {
      PageState(authOpen, authType, isLoggedIn)
    }

    constructor ()
      ensures !authOpen && authType == Donor && !isLoggedIn
      ensures State() == Initial
    {
      authOpen, authType, isLoggedIn := false, Donor, false;
    }

    function Render(): (v: Screen)
      reads this
      ensures isLoggedIn ==> v == Dashboard(authType)
      ensures !isLoggedIn ==> v == Landing(authOpen, authType)
    {
      View(State())
    }

    /** Selects the role and opens the dialog. */
    method HandleAuthClick(r: Role)
      modifies this
      ensures authType == r && authOpen
      ensures isLoggedIn == old(isLoggedIn)
      ensures State() == Step(old(State()), AuthClick(r))
    {
      authType := r;
      authOpen := true;
    }

    /** The dialog's open-change callback: sets only whether the dialog is open. */
    method OnOpenChange(b: bool)
      modifies this
      ensures authOpen == b
      ensures authType == old(authType) && isLoggedIn == old(isLoggedIn)
      ensures State() == Step(old(State()), OpenChange(b))
    {
      authOpen := b;
    }

    /** The dialog's success callback: logs in and closes the dialog, keeping the role. */
    method OnSuccess()
      modifies this
      ensures isLoggedIn && !authOpen
      ensures authType == old(authType)
      ensures State() == Step(old(State()), AuthSuccess)
    {
      isLoggedIn := true;
      authOpen := false;
    }
  }
}
