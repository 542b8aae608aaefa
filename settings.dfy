/** The settings page: the lockout button with its confirmation dialog, the purge button,
    the view gating as the page is written, and the administrator-only gate that its
    "Access Denied" panel announces but does not enforce. */
module Settings {
  import opened Types
  import opened Session

  /** The page's own dialog flag together with the application state it drives. */
  datatype Panel = Panel(showConfirm: bool, app: AppState)

  /** The lockout button: while locked it deactivates at once; otherwise it only opens
      the confirmation dialog. */
  function LockoutClick(p: Panel): Panel
  {
    if p.app.isSystemLocked then Panel(p.showConfirm, Step(p.app, ToggleSystemLock))
    else p.(showConfirm := true)
  }

  /** The dialog's confirm button: it closes the dialog, then toggles the lock. */
  function ConfirmLockout(p: Panel): Panel
    requires p.showConfirm
  {
    Panel(false, Step(p.app, ToggleSystemLock))
  }

  /** The dialog's cancel button: it closes the dialog. */
  function CancelLockout(p: Panel): Panel
    requires p.showConfirm
  {
    p.(showConfirm := false)
  }

  /** While unlocked, a click only opens the dialog. */
  lemma ClickWhileUnlockedOpensDialog(p: Panel)
    requires !p.app.isSystemLocked
    ensures LockoutClick(p).showConfirm && LockoutClick(p).app == p.app
  {
  }

  /** While locked, a click deactivates directly and leaves the dialog as it was. */
  lemma ClickWhileLockedDeactivates(p: Panel)
    requires p.app.isSystemLocked
    ensures var q := LockoutClick(p);
      q.showConfirm == p.showConfirm && !q.app.isSystemLocked && q.app.isLockingDown == p.app.isLockingDown
  {
  }

  /** Confirming closes the dialog and, from unlocked, starts the lockdown transition. */
  lemma ConfirmStartsLockdown(p: Panel)
    requires p.showConfirm && !p.app.isSystemLocked
    ensures var q := ConfirmLockout(p);
      !q.showConfirm && q.app.isLockingDown && !q.app.isSystemLocked &&
      q.app == p.app.(isLockingDown := true, pendingLockTimers := p.app.pendingLockTimers + 1)
  {
  }

  /** Cancelling closes the dialog and changes no application state. */
  lemma CancelChangesNothing(p: Panel)
    requires p.showConfirm
    ensures !CancelLockout(p).showConfirm && CancelLockout(p).app == p.app
  {
  }

  /** From a quiet unlocked state, opening and cancelling the dialog leaves everything as it
      was, and only the confirm button starts the lockdown. */
  lemma OnlyConfirmEngages(p: Panel)
    requires !p.showConfirm && !p.app.isSystemLocked && !p.app.isLockingDown
    ensures CancelLockout(LockoutClick(p)) == p
    ensures !LockoutClick(p).app.isLockingDown
    ensures ConfirmLockout(LockoutClick(p)).app.isLockingDown
  {
  }

  // ----- View-layer gating, as the page is written -----
  // The 2FA switch is the only settings control rendered for ADMIN alone. The lockout and
  // purge buttons are rendered and enabled for every role: the "Access Denied" panel over
  // them is a positioned sibling element, which stops the pointer but not the keyboard.

  /** The 2FA switch is rendered only for the ADMIN role. */
  predicate TwoFactorControlShown(role: UserRole)
  {
    role == ADMIN
  }

  /** The purge button is disabled while a purge is running, whatever the role. */
  predicate PurgeButtonEnabled(isPurging: bool)
  {
    !isPurging
  }

  /** An activation of the purge button, with the prompt's answer. */
  function PurgeButton(s: AppState, confirmed: bool): (t: AppState)
    ensures s.isPurging ==> t == s
    ensures !s.isPurging && !confirmed ==> t == s
    ensures !s.isPurging && confirmed ==> t.isPurging && t.pendingPurgeTimers == s.pendingPurgeTimers + 1
    ensures !s.isPurging ==> t == Step(s, PurgeSessions(confirmed))
  {
    if PurgeButtonEnabled(s.isPurging) then Step(s, PurgeSessions(confirmed)) else s
  }

  /** A press of the 2FA switch as the given role. */
  function TwoFactorSwitch(role: UserRole, s: AppState): (t: AppState)
    ensures role != ADMIN ==> t == s
    ensures role == ADMIN ==> t.is2FAMandatory == !s.is2FAMandatory && t == Step(s, Toggle2FA)
  {
    if TwoFactorControlShown(role) then Step(s, Toggle2FA) else s
  }

  /** Through the settings page a non-administrator cannot change the 2FA policy. */
  lemma NonAdminCannotChange2FA(role: UserRole, s: AppState)
    requires role != ADMIN
    ensures TwoFactorSwitch(role, s) == s
  {
  }

  /** A signed-in non-administrator who reaches the lockout button by keyboard opens the
      dialog, and confirming it starts a lockdown that the timer completes. */
  lemma NonAdminKeyboardEngagesLockout(p: Panel)
    requires p.app.user.Some? && p.app.user.value.user.role != ADMIN
    requires !p.showConfirm && !p.app.isSystemLocked && !p.app.isLockingDown
    ensures LockoutClick(p).showConfirm
    ensures var q := ConfirmLockout(LockoutClick(p));
      q.app.isLockingDown && Step(q.app, LockTimerFired).isSystemLocked
  {
  }

  /** While locked, the same key press lifts the lockdown for a non-administrator. */
  lemma NonAdminKeyboardLiftsLockout(p: Panel)
    requires p.app.user.Some? && p.app.user.value.user.role != ADMIN
    requires p.app.isSystemLocked
    ensures !LockoutClick(p).app.isSystemLocked
  {
  }

  /** A non-administrator who reaches the purge button by keyboard and confirms starts the
      purge, and its timer signs the user out. */
  lemma NonAdminKeyboardPurges(s: AppState)
    requires s.user.Some? && s.user.value.user.role != ADMIN && !s.isPurging
    ensures PurgeButton(s, true).isPurging
    ensures Step(PurgeButton(s, true), PurgeTimerFired).user == None
  {
  }

  // ----- The administrator-only gate the "Access Denied" panel announces -----

  /** The override modules open to ADMIN alone. */
  predicate OverrideModulesOpen(role: UserRole)
  {
    role == ADMIN
  }

  /** The lockout button behind the administrator-only gate. */
  function GatedLockoutButton(role: UserRole, p: Panel): (q: Panel)
    ensures role != ADMIN ==> q == p
    ensures role == ADMIN ==> q == LockoutClick(p)
  {
    if OverrideModulesOpen(role) then LockoutClick(p) else p
  }

  /** The purge button behind the administrator-only gate. */
  function GatedPurgeButton(role: UserRole, s: AppState, confirmed: bool): (t: AppState)
    ensures role != ADMIN ==> t == s
    ensures role == ADMIN ==> t == PurgeButton(s, confirmed)
  {
    if OverrideModulesOpen(role) then PurgeButton(s, confirmed) else s
  }

  /** Behind the gate a non-administrator changes neither the lock, the purge state nor the
      2FA policy, whatever the order of presses. */
  lemma GatedNonAdminCannotOverride(role: UserRole, p: Panel, confirmed: bool)
    requires role != ADMIN
    ensures GatedLockoutButton(role, p) == p
    ensures GatedPurgeButton(role, p.app, confirmed) == p.app
    ensures TwoFactorSwitch(role, p.app) == p.app
  {
  }

  /** For the administrator the gate changes nothing: the gated buttons act as written. */
  lemma GatedAgreesForAdmin(p: Panel, confirmed: bool)
    ensures GatedLockoutButton(ADMIN, p) == LockoutClick(p)
    ensures GatedPurgeButton(ADMIN, p.app, confirmed) == PurgeButton(p.app, confirmed)
  {
  }

  /** From a quiet state, the administrator's path click, confirm, timer ends locked, and
      the first click alone changed nothing but the dialog. */
  lemma AdminLockoutPath(p: Panel)
    requires Invariant(p.app) && !p.showConfirm && !p.app.isSystemLocked && !p.app.isLockingDown
    ensures GatedLockoutButton(ADMIN, p) == Panel(true, p.app)
    ensures var q := ConfirmLockout(GatedLockoutButton(ADMIN, p));
      var t := Step(q.app, LockTimerFired);
      !q.showConfirm && t.isSystemLocked && !t.isLockingDown && Invariant(t)
  {
    var q := ConfirmLockout(GatedLockoutButton(ADMIN, p));
    StepPreservesInvariant(p.app, ToggleSystemLock);
    StepPreservesInvariant(q.app, LockTimerFired);
  }

  // ----- The component -----

  /** The settings page as mounted inside the main layout, holding its dialog flag and
      calling the application's handlers. */
  class SettingsPage {
    const app: App
    var showConfirm: bool

    constructor (app: App)
      ensures this.app == app && !showConfirm
    {
      this.app := app;
      showConfirm := false;
    }

    function PanelState(): Panel
      reads this, app
    {
      Panel(showConfirm, app.State())
    }

    method HandleLockoutClick()
      requires app.Valid()
      modifies this, app
      ensures app.Valid()
      ensures PanelState() == LockoutClick(old(PanelState()))
    {
      if app.isSystemLocked {
        app.HandleToggleSystemLock();
      } else {
        showConfirm := true;
      }
    }

    method HandleConfirm()
      requires app.Valid() && showConfirm
      modifies this, app
      ensures app.Valid()
      ensures PanelState() == ConfirmLockout(old(PanelState()))
    {
      showConfirm := false;
      app.HandleToggleSystemLock();
    }

    method HandleCancel()
      requires showConfirm
      modifies this
      ensures PanelState() == CancelLockout(old(PanelState()))
    {
      showConfirm := false;
    }
  }
}
