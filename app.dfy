/** The application shell (src/App.js): which views a user may open, the
    view change the sidebar asks for, and the redirect of a user who ends up
    on a view they may not see. */
module App {
  import opened Seqs
  import opened Domain

  /** The views only an administrator may open. */
  const AdminOnlyViews: seq<string> := ["usuarios", "proveedores"]

  /** `checkAccess(view)` for the logged-in user, if any. */
  function CheckAccess(currentUser: Option<User>, view: string): (ok: bool)
    ensures view == "login" ==> ok
    ensures currentUser.None? ==> (ok <==> view == "login")
    ensures currentUser.Some? && currentUser.value.rol == "admin" ==> ok
    ensures currentUser.Some? && currentUser.value.rol != "admin" ==>
              (ok <==> view != "usuarios" && view != "proveedores")
  {
    if view == "login" then true
    else if currentUser.None? then view == "login"
    else if view in AdminOnlyViews && currentUser.value.rol != "admin" then false
    else true
  }

  class AppState {
    var currentUser: Option<User>
    var currentView: string

    /** The state is consistent when a logged-in user is on a view they may
        open. */
    predicate AccessOk()
      reads this
    {
      currentUser.Some? ==> CheckAccess(currentUser, currentView)
    }

    constructor ()
      ensures currentUser == None && currentView == "login"
      ensures AccessOk()
    {
      currentUser := None;
      currentView := "login";
    }

    /** `handleViewChange(view)`: the view changes exactly when it is allowed. */
    method HandleViewChange(view: string) returns (allowed: bool)
      modifies this`currentView
      ensures allowed == CheckAccess(currentUser, view)
      ensures allowed ==> currentView == view
      ensures !allowed ==> currentView == old(currentView)
      ensures old(AccessOk()) ==> AccessOk()
    {
      allowed := CheckAccess(currentUser, view);
      if allowed {
        currentView := view;
      }
    }

    /** The effect that sends a logged-in user on a denied view (other than
        'login') to the dashboard. */
    method RedirectIfDenied() returns (redirected: bool)
      modifies this`currentView
      ensures redirected <==> currentUser.Some? && old(currentView) != "login" && !CheckAccess(currentUser, old(currentView))
      ensures redirected ==> currentView == "dashboard"
      ensures !redirected ==> currentView == old(currentView)
      ensures AccessOk()
    {
      redirected := currentUser.Some? && currentView != "login" && !CheckAccess(currentUser, currentView);
      if redirected {
        currentView := "dashboard";
      }
    }
  }

  /** Every logged-in user may open the dashboard, so the redirect always
      lands on a view that is allowed. */
  lemma DashboardAlwaysAllowed(u: User)
    ensures CheckAccess(Some(u), "dashboard")
  {
  }
}
