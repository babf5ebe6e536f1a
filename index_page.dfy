/** The landing page: which screen is current (home, idea submission or
    dashboard), whether the sign-in dialog is open and whether the visitor has
    signed in. Leaving home for the submission form or the dashboard needs a
    signed-in visitor. */
module IndexPage {

  datatype View = Home | Submit | Dashboard

  /** The page's three state variables. */
  datatype PageState = PageState(currentView: View, isAuthOpen: bool, isAuthenticated: bool)

  /** What the page reacts to. */
  datatype Event =
    | ViewChange(target: View)  // `handleViewChange(view)`, from the navigation and hero buttons
    | AuthSuccess               // the sign-in dialog's `onSuccess`
    | AuthClose                 // the sign-in dialog's `onClose`
    | GetStarted                // the "Get Started" button
    | Back                      // `onBack` of the submission form and of the dashboard

  /** The state the page starts in: home, signed out, dialog closed. */
  const Initial := PageState(Home, false, false)

  /** The page's safety invariant: the submission form and the dashboard are
      only ever current for a signed-in visitor. */
  predicate Gated(s: PageState)
  {
    s.currentView in {Submit, Dashboard} ==> s.isAuthenticated
  }

  /** The state after one event. Every event keeps the invariant, nothing
      signs the visitor out, and only a successful sign-in signs in. */
  function Next(s: PageState, e: Event): (t: PageState)
    ensures Gated(s) ==> Gated(t)
    ensures s.isAuthenticated ==> t.isAuthenticated
    ensures t.isAuthenticated != s.isAuthenticated ==> e == AuthSuccess
  {
    match e
    case ViewChange(target) =>
      if !s.isAuthenticated && target != Home then s.(isAuthOpen := true)
      else s.(currentView := target)
    case AuthSuccess => s.(isAuthenticated := true, isAuthOpen := false)
    case AuthClose => s.(isAuthOpen := false)
    case GetStarted => s.(isAuthOpen := true)
    case Back => s.(currentView := Home)
  }

  /** The state after a sequence of events, first to last. */
  function Run(s: PageState, events: seq<Event>): PageState
    decreases |events|
  {
    if events == [] then s else Run(Next(s, events[0]), events[1..])
  }

  /** Any sequence of events keeps the invariant. */
  lemma {:induction false} RunGated(s: PageState, events: seq<Event>)
    requires Gated(s)
    ensures Gated(Run(s, events))
    decreases |events|
  {
    if events != [] {
      RunGated(Next(s, events[0]), events[1..]);
    }
  }

  /** Every state the page can reach from its start satisfies the invariant. */
  lemma ReachableGated(events: seq<Event>)
    ensures Gated(Run(Initial, events))
  {
    RunGated(Initial, events);
  }

  /** After a sequence of events the visitor is signed in exactly when they
      were before or a sign-in succeeded on the way. */
  lemma {:induction false} RunAuthenticated(s: PageState, events: seq<Event>)
    ensures Run(s, events).isAuthenticated <==> s.isAuthenticated || AuthSuccess in events
    decreases |events|
  {
    if events != [] {
      RunAuthenticated(Next(s, events[0]), events[1..]);
      assert events == [events[0]] + events[1..];
    }
  }

  /** From the start, the submission form or the dashboard can only become
      current after a successful sign-in. */
  lemma LeavingHomeNeedsSignIn(events: seq<Event>)
    requires Run(Initial, events).currentView != Home
    ensures AuthSuccess in events
  {
    ReachableGated(events);
    RunAuthenticated(Initial, events);
  }

  /** A signed-out visitor asking for the form or the dashboard stays where
      they are and gets the sign-in dialog. */
  lemma ViewChangeSignedOut(s: PageState, target: View)
    requires !s.isAuthenticated && target != Home
    ensures Next(s, ViewChange(target)) == PageState(s.currentView, true, false)
  {
  }

  /** Going home always succeeds, and a signed-in visitor reaches every view;
      the dialog and the sign-in are untouched. */
  lemma ViewChangeAllowed(s: PageState, target: View)
    requires s.isAuthenticated || target == Home
    ensures Next(s, ViewChange(target)) == PageState(target, s.isAuthOpen, s.isAuthenticated)
  {
  }

  /** A successful sign-in signs in and closes the dialog; a second one
      changes nothing more. */
  lemma AuthSuccessIdempotent(s: PageState)
    ensures Next(s, AuthSuccess) == PageState(s.currentView, false, true)
    ensures Next(Next(s, AuthSuccess), AuthSuccess) == Next(s, AuthSuccess)
  {
  }

  /** Going back returns home and changes nothing else. */
  lemma BackGoesHome(s: PageState)
    ensures Next(s, Back) == PageState(Home, s.isAuthOpen, s.isAuthenticated)
  {
  }

  /** "Get Started" only opens the dialog. */
  lemma GetStartedOpensDialog(s: PageState)
    ensures Next(s, GetStarted) == PageState(s.currentView, true, s.isAuthenticated)
  {
  }

  /** Closing the dialog only closes it. */
  lemma CloseAuthClosesDialog(s: PageState)
    ensures Next(s, AuthClose) == PageState(s.currentView, false, s.isAuthenticated)
  {
  }

  /** The `Index` component's state. Each handler changes the fields as `Next`
      says for its event. */
  class Index {
    var currentView: View
    var isAuthOpen: bool
    var isAuthenticated: bool

    function State(): PageState
      reads this
    {
      PageState(currentView, isAuthOpen, isAuthenticated)
    }

    ghost predicate Valid()
      reads this
    {
      Gated(State())
    }

    constructor ()
      ensures Valid()
      ensures State() == Initial
    {
      currentView := Home;
      isAuthOpen := false;
      isAuthenticated := false;
    }

    /** `handleViewChange(view)`. */
    method HandleViewChange(view: View)
      requires Valid()
      modifies this
      ensures Valid()
      ensures State() == Next(old(State()), ViewChange(view))
    {
      if !isAuthenticated && view != Home {
        isAuthOpen := true;
        return;
      }
      currentView := view;
    }

    /** `handleAuthSuccess`. */
    method HandleAuthSuccess()
      requires Valid()
      modifies this
      ensures Valid()
      ensures State() == Next(old(State()), AuthSuccess)
    {
      isAuthenticated := true;
      isAuthOpen := false;
    }

    /** The sign-in dialog's `onClose`. */
    method CloseAuth()
      requires Valid()
      modifies this
      ensures Valid()
      ensures State() == Next(old(State()), AuthClose)
    {
      isAuthOpen := false;
    }

    /** The "Get Started" button. */
    method GetStarted()
      requires Valid()
      modifies this
      ensures Valid()
      ensures State() == Next(old(State()), Event.GetStarted)
    {
      isAuthOpen := true;
    }

    /** `onBack` of the submission form and of the dashboard. */
    method Back()
      requires Valid()
      modifies this
      ensures Valid()
      ensures State() == Next(old(State()), Event.Back)
    {
      currentView := Home;
    }
  }
}
