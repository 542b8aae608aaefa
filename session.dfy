/** The top-level application state: the signed-in staff record, the lockdown flags, the
    mandatory-2FA flag and the purge flag, mirrored into a key-value store that stands in
    for the browser's local storage. Timer expiries are explicit events. */
module Session {
  import opened Types

  // ----- The key-value store -----

  const UserKey := "securepay_user"
  const TwoFactorKey := "securepay_2fa_mandatory"
  const LockKey := "securepay_system_locked"

  /** The three keys the application reads and writes; it leaves every other key alone. */
  predicate AppKey(k: string)
  {
    k == UserKey || k == TwoFactorKey || k == LockKey
  }

  /** A stored value: a staff record or a boolean (the store holds values, not their text). */
  datatype StoredValue = UserValue(record: StaffRecord) | FlagValue(flag: bool)

  type Store = map<string, StoredValue>

  /** A flag as read at start-up: the stored boolean, or the default when the key is absent.
      A record under a flag key is a non-empty object and so reads as true. */
  function ReadFlag(store: Store, key: string, default: bool): (b: bool)
    ensures key !in store ==> b == default
    ensures key in store && store[key].FlagValue? ==> b == store[key].flag
  {
    if key !in store then default
    else match store[key]
      case FlagValue(f) => f
      case UserValue(_) => true
  }

  /** The staff record restored at start-up: present only when a record is stored. */
  function StoredUser(store: Store): (u: Option<StaffRecord>)
    ensures u.Some? <==> UserKey in store && store[UserKey].UserValue?
    ensures u.Some? ==> store[UserKey] == UserValue(u.value)
  {
    if UserKey in store && store[UserKey].UserValue? then Some(store[UserKey].record) else None
  }

  // ----- The state machine -----

  /** The application's state. The two counters are the lock and purge timers that have been
      started and have not fired yet. */
  datatype AppState = AppState(
    user: Option<StaffRecord>,
    isPurging: bool,
    isLockingDown: bool,
    is2FAMandatory: bool,
    isSystemLocked: bool,
    store: Store,
    pendingLockTimers: nat,
    pendingPurgeTimers: nat)

  /** The events the application reacts to. `PurgeSessions` carries the answer of the
      confirmation prompt. */
  datatype Event =
    | Login(record: StaffRecord)
    | Logout
    | Toggle2FA
    | ToggleSystemLock
    | LockTimerFired
    | PurgeSessions(confirmed: bool)
    | PurgeTimerFired

  /** The state after mounting with the given store: both flags are read with their defaults
      (2FA on, lock off), a stored record becomes the user, no transition is under way, and
      the mount-time effects write both flags back. */
  function StartUp(saved: Store): (s: AppState)
    ensures !s.isLockingDown && !s.isPurging && s.pendingLockTimers == 0 && s.pendingPurgeTimers == 0
    ensures s.store.Keys == saved.Keys + {TwoFactorKey, LockKey}
    ensures forall k :: k in saved && !AppKey(k) ==> s.store[k] == saved[k]
  {
    var twoFactor := ReadFlag(saved, TwoFactorKey, true);
    var locked := ReadFlag(saved, LockKey, false);
    AppState(StoredUser(saved), false, false, twoFactor, locked,
             saved[TwoFactorKey := FlagValue(twoFactor)][LockKey := FlagValue(locked)], 0, 0)
  }

  /** Logging out clears the user and removes the stored record. */
  function LoggedOut(s: AppState): (t: AppState)
    ensures t.user == None && StoredUser(t.store) == None
    ensures t.store.Keys == s.store.Keys - {UserKey}
    ensures forall k :: k in t.store ==> t.store[k] == s.store[k]
    ensures t.(user := s.user, store := s.store) == s
  {
    s.(user := None, store := s.store - {UserKey})
  }

  /** One event. A timer event with no such timer pending changes nothing (it cannot occur). */
  function Step(s: AppState, e: Event): (t: AppState)
    ensures forall k :: k in s.store && !AppKey(k) ==> k in t.store && t.store[k] == s.store[k]
    ensures forall k :: k in t.store && !AppKey(k) ==> k in s.store
  {
    match e
    case Login(r) =>
      s.(user := Some(r), store := s.store[UserKey := UserValue(r)])
    case Logout =>
      LoggedOut(s)
    case Toggle2FA =>
      s.(is2FAMandatory := !s.is2FAMandatory, store := s.store[TwoFactorKey := FlagValue(!s.is2FAMandatory)])
    case ToggleSystemLock =>
      if !s.isSystemLocked then
        s.(isLockingDown := true, pendingLockTimers := s.pendingLockTimers + 1)
      else
        s.(isSystemLocked := false, store := s.store[LockKey := FlagValue(false)])
    case LockTimerFired =>
      if s.pendingLockTimers == 0 then s
      else s.(isSystemLocked := true, isLockingDown := false,
              pendingLockTimers := s.pendingLockTimers - 1,
              store := s.store[LockKey := FlagValue(true)])
    case PurgeSessions(confirmed) =>
      if !confirmed then s
      else s.(isPurging := true, pendingPurgeTimers := s.pendingPurgeTimers + 1)
    case PurgeTimerFired =>
      if s.pendingPurgeTimers == 0 then s
      else LoggedOut(s.(isPurging := false, pendingPurgeTimers := s.pendingPurgeTimers - 1))
  }

  /** A sequence of events, in order. */
  function Run(s: AppState, es: seq<Event>): (t: AppState)
    ensures forall k :: k in s.store && !AppKey(k) ==> k in t.store && t.store[k] == s.store[k]
    ensures forall k :: k in t.store && !AppKey(k) ==> k in s.store
    decreases |es|
  {
    if es == [] then s else Run(Step(s, es[0]), es[1..])
  }

  /** Running two event sequences one after the other is running their concatenation. */
  lemma {:induction false} RunConcat(s: AppState, a: seq<Event>, b: seq<Event>)
    ensures Run(s, a + b) == Run(Run(s, a), b)
    decreases |a|
  {
    if a == [] {
      assert a + b == b;
    } else {
      assert (a + b)[0] == a[0] && (a + b)[1..] == a[1..] + b;
      RunConcat(Step(s, a[0]), a[1..], b);
    }
  }

  // ----- Invariants -----

  /** The store mirrors the state: the record under the user key is the user, and each flag
      key holds its flag. */
  predicate Persisted(s: AppState)
  {
    && StoredUser(s.store) == s.user
    && TwoFactorKey in s.store && s.store[TwoFactorKey] == FlagValue(s.is2FAMandatory)
    && LockKey in s.store && s.store[LockKey] == FlagValue(s.isSystemLocked)
  }

  /** The transitional states: "locking down" never coexists with "locked" and always has a
      timer to end it; "purging" likewise always has a timer to end it. */
  predicate TransitionsPending(s: AppState)
  {
    && (s.isLockingDown ==> !s.isSystemLocked && s.pendingLockTimers > 0)
    && (s.isPurging ==> s.pendingPurgeTimers > 0)
  }

  predicate Invariant(s: AppState)
  {
    Persisted(s) && TransitionsPending(s)
  }

  lemma StartUpEstablishesInvariant(saved: Store)
    ensures Invariant(StartUp(saved))
  {
    assert UserKey != TwoFactorKey && UserKey != LockKey;
  }

  lemma StepPreservesInvariant(s: AppState, e: Event)
    requires Invariant(s)
    ensures Invariant(Step(s, e))
  {
  }

  lemma {:induction false} RunPreservesInvariant(s: AppState, es: seq<Event>)
    requires Invariant(s)
    ensures Invariant(Run(s, es))
    decreases |es|
  {
    if es != [] {
      StepPreservesInvariant(s, es[0]);
      RunPreservesInvariant(Step(s, es[0]), es[1..]);
    }
  }

  /** Persistence round trip: after any run from any start-up, mounting again on the store
      restores the same user and the same two flags. */
  lemma RestartRestores(saved: Store, es: seq<Event>)
    ensures var s := Run(StartUp(saved), es);
      var t := StartUp(s.store);
      t.user == s.user && t.is2FAMandatory == s.is2FAMandatory && t.isSystemLocked == s.isSystemLocked
  {
    StartUpEstablishesInvariant(saved);
    RunPreservesInvariant(StartUp(saved), es);
  }

  /** A reload during the lockdown splash discards the pending lock timer: the lock flag was
      never written, so the console comes back unlocked and not locking down. */
  lemma ReloadDuringSplashStaysUnlocked(s: AppState)
    requires Invariant(s) && s.isLockingDown
    ensures var t := StartUp(s.store);
      !t.isSystemLocked && !t.isLockingDown && t.pendingLockTimers == 0 && t.user == s.user
  {
  }

  /** A reload during a session purge discards the purge timer: the user stays signed in and
      nothing is purging any more. */
  lemma ReloadDuringPurgeKeepsUser(s: AppState)
    requires Invariant(s) && s.isPurging
    ensures var t := StartUp(s.store);
      t.user == s.user && !t.isPurging && t.pendingPurgeTimers == 0
  {
  }

  /** With nothing stored: no user, 2FA on, lock off, nothing under way. */
  lemma StartUpDefaults()
    ensures var s := StartUp(map[]);
      s.user == None && s.is2FAMandatory && !s.isSystemLocked &&
      !s.isLockingDown && !s.isPurging &&
      s.store == map[TwoFactorKey := FlagValue(true), LockKey := FlagValue(false)]
  {
  }

  /** A stored record is restored as the user; without one there is no user. */
  lemma StartUpRestoresUser(saved: Store, r: StaffRecord)
    ensures UserKey in saved && saved[UserKey] == UserValue(r) ==> StartUp(saved).user == Some(r)
    ensures UserKey !in saved ==> StartUp(saved).user == None
  {
  }

  // ----- Session -----

  /** Login sets the user and stores the whole record (password included); nothing else changes. */
  lemma LoginStoresRecord(s: AppState, r: StaffRecord)
    ensures var t := Step(s, Login(r));
      t.user == Some(r) && StoredUser(t.store) == Some(r) && t.store[UserKey].record.password == r.password &&
      t == s.(user := Some(r), store := s.store[UserKey := UserValue(r)])
  {
  }

  /** Logout clears the user and removes exactly the user key; nothing else changes. */
  lemma LogoutClearsUser(s: AppState)
    ensures var t := Step(s, Logout);
      t.user == None && StoredUser(t.store) == None && t.store.Keys == s.store.Keys - {UserKey} &&
      t == s.(user := None, store := s.store - {UserKey})
  {
  }

  // ----- Mandatory 2FA -----

  /** Toggling 2FA negates the flag, writes it back, and changes nothing else. */
  lemma Toggle2FANegates(s: AppState)
    ensures var t := Step(s, Toggle2FA);
      t.is2FAMandatory == !s.is2FAMandatory && ReadFlag(t.store, TwoFactorKey, true) == t.is2FAMandatory &&
      t == s.(is2FAMandatory := !s.is2FAMandatory, store := s.store[TwoFactorKey := FlagValue(!s.is2FAMandatory)])
  {
  }

  /** Toggling 2FA twice gives back the state it started from. */
  lemma Toggle2FATwice(s: AppState)
    requires Persisted(s)
    ensures Step(Step(s, Toggle2FA), Toggle2FA) == s
  {
    assert Step(Step(s, Toggle2FA), Toggle2FA).store == s.store;
  }

  /** Only the 2FA toggle changes the 2FA flag. */
  lemma Only2FAToggleChanges2FA(s: AppState, e: Event)
    ensures Step(s, e).is2FAMandatory != s.is2FAMandatory ==> e == Toggle2FA
  {
  }

  // ----- Lockdown -----

  /** From unlocked, the toggle only starts the transition and its timer. */
  lemma EngageStartsTransition(s: AppState)
    requires !s.isSystemLocked
    ensures Step(s, ToggleSystemLock) == s.(isLockingDown := true, pendingLockTimers := s.pendingLockTimers + 1)
  {
  }

  /** The lock timer ends the transition in the locked state and writes the lock back. */
  lemma LockTimerLocks(s: AppState)
    requires s.pendingLockTimers > 0
    ensures var t := Step(s, LockTimerFired);
      t.isSystemLocked && !t.isLockingDown && ReadFlag(t.store, LockKey, false) &&
      t.user == s.user && t.is2FAMandatory == s.is2FAMandatory && t.isPurging == s.isPurging
  {
  }

  /** From locked, the toggle unlocks at once: no transition, no timer. */
  lemma DeactivateIsImmediate(s: AppState)
    requires s.isSystemLocked
    ensures var t := Step(s, ToggleSystemLock);
      !t.isSystemLocked && t.isLockingDown == s.isLockingDown && t.pendingLockTimers == s.pendingLockTimers &&
      ReadFlag(t.store, LockKey, true) == false
  {
  }

  /** The system becomes locked only when a pending lock timer fires. */
  lemma LockedOnlyByTimer(s: AppState, e: Event)
    requires !s.isSystemLocked && Step(s, e).isSystemLocked
    ensures e == LockTimerFired && s.pendingLockTimers > 0
  {
  }

  /** The system becomes unlocked only through the toggle. */
  lemma UnlockedOnlyByToggle(s: AppState, e: Event)
    requires s.isSystemLocked && !Step(s, e).isSystemLocked
    ensures e == ToggleSystemLock
  {
  }

  /** Normal, then locking down, then locked: the full engage sequence from a quiet state. */
  lemma EngageSequence(s: AppState)
    requires Invariant(s) && !s.isSystemLocked && !s.isLockingDown && s.pendingLockTimers == 0
    ensures Step(s, ToggleSystemLock).isLockingDown && !Step(s, ToggleSystemLock).isSystemLocked
    ensures var t := Run(s, [ToggleSystemLock, LockTimerFired]);
      t.isSystemLocked && !t.isLockingDown && t.pendingLockTimers == 0 && Invariant(t)
  {
    var s1 := Step(s, ToggleSystemLock);
    assert Run(s, [ToggleSystemLock, LockTimerFired]) == Run(s1, [LockTimerFired]);
    assert Run(s1, [LockTimerFired]) == Run(Step(s1, LockTimerFired), []);
  }

  // ----- Session purge -----

  /** An unconfirmed purge changes nothing. */
  lemma UnconfirmedPurgeIsNoop(s: AppState)
    ensures Step(s, PurgeSessions(false)) == s
  {
  }

  /** A confirmed purge only raises the purging flag and starts its timer. */
  lemma ConfirmedPurgeStarts(s: AppState)
    ensures Step(s, PurgeSessions(true)) == s.(isPurging := true, pendingPurgeTimers := s.pendingPurgeTimers + 1)
  {
  }

  /** When the purge timer fires the purging flag drops and the user is logged out. */
  lemma PurgeTimerLogsOut(s: AppState)
    requires s.pendingPurgeTimers > 0
    ensures var t := Step(s, PurgeTimerFired);
      !t.isPurging && t.user == None && StoredUser(t.store) == None && UserKey !in t.store &&
      t.isSystemLocked == s.isSystemLocked && t.is2FAMandatory == s.is2FAMandatory
  {
  }

  // ----- The view-layer guards of the main layout -----

  /** The main layout is rendered exactly when a user is signed in (otherwise the login form). */
  predicate ShowsMainLayout(s: AppState)
  {
    s.user.Some?
  }

  /** The blocking notice for non-admins: locked, not an administrator, and not in the
      transition splash. */
  predicate BlockingNoticeShown(s: AppState)
  {
    s.user.Some? && s.isSystemLocked && s.user.value.user.role != ADMIN && !s.isLockingDown
  }

  /** On a state satisfying the invariant the splash condition is redundant: every signed-in
      non-admin sees the notice exactly while the system is locked. */
  lemma BlockingNoticeWhileLocked(s: AppState)
    requires Invariant(s) && s.user.Some? && s.user.value.user.role != ADMIN
    ensures BlockingNoticeShown(s) <==> s.isSystemLocked
  {
  }

  // ----- The component -----

  /** The App component: its state hooks and its handlers. */
  class App {
    var user: Option<StaffRecord>
    var isPurging: bool
    var isLockingDown: bool
    var is2FAMandatory: bool
    var isSystemLocked: bool
    var store: Store
    var pendingLockTimers: nat
    var pendingPurgeTimers: nat

    function State(): AppState
      reads this
    {
      AppState(user, isPurging, isLockingDown, is2FAMandatory, isSystemLocked,
               store, pendingLockTimers, pendingPurgeTimers)
    }

    ghost predicate Valid()
      reads this
    {
      Invariant(State())
    }

    /** Mounting: the state initialisers read the flags, the restore effect reads the user,
        and the two persistence effects write the flags back. */
    constructor (saved: Store)
      ensures Valid()
      ensures State() == StartUp(saved)
    {
      var saved2FA := ReadFlag(saved, TwoFactorKey, true);
      var savedLock := ReadFlag(saved, LockKey, false);
      user := None;
      isPurging := false;
      isLockingDown := false;
      is2FAMandatory := saved2FA;
      isSystemLocked := savedLock;
      pendingLockTimers := 0;
      pendingPurgeTimers := 0;
      store := saved;
      if UserKey in saved && saved[UserKey].UserValue? {
        user := Some(saved[UserKey].record);
      }
      new;
      store := store[TwoFactorKey := FlagValue(is2FAMandatory)];
      store := store[LockKey := FlagValue(isSystemLocked)];
      StartUpEstablishesInvariant(saved);
    }

    method HandleLogin(r: StaffRecord)
      requires Valid()
      modifies this
      ensures Valid()
      ensures State() == Step(old(State()), Login(r))
    {
      user := Some(r);
      store := store[UserKey := UserValue(r)];
    }

    method HandleLogout()
      requires Valid()
      modifies this
      ensures Valid()
      ensures State() == Step(old(State()), Logout)
    {
      user := None;
      store := store - {UserKey};
    }

    method HandleToggle2FA()
      requires Valid()
      modifies this
      ensures Valid()
      ensures State() == Step(old(State()), Toggle2FA)
    {
      is2FAMandatory := !is2FAMandatory;
      store := store[TwoFactorKey := FlagValue(is2FAMandatory)];
    }

    /** The lock toggle, which performs no role check of its own. */
    method HandleToggleSystemLock()
      requires Valid()
      modifies this
      ensures Valid()
      ensures State() == Step(old(State()), ToggleSystemLock)
    {
      if !isSystemLocked {
        isLockingDown := true;
        pendingLockTimers := pendingLockTimers + 1;
      } else {
        isSystemLocked := false;
        store := store[LockKey := FlagValue(isSystemLocked)];
      }
    }

    /** The expiry of a lock timer started by the toggle. */
    method LockTimerFires()
      requires Valid() && pendingLockTimers > 0
      modifies this
      ensures Valid()
      ensures State() == Step(old(State()), LockTimerFired)
    {
      pendingLockTimers := pendingLockTimers - 1;
      isSystemLocked := true;
      isLockingDown := false;
      store := store[LockKey := FlagValue(isSystemLocked)];
    }

    /** The purge handler; `confirmed` is the answer to its confirmation prompt. */
    method HandlePurgeSessions(confirmed: bool)
      requires Valid()
      modifies this
      ensures Valid()
      ensures State() == Step(old(State()), PurgeSessions(confirmed))
    {
      if confirmed {
        isPurging := true;
        pendingPurgeTimers := pendingPurgeTimers + 1;
      }
    }

    /** The expiry of a purge timer: the purging flag drops, then the logout handler runs. */
    method PurgeTimerFires()
      requires Valid() && pendingPurgeTimers > 0
      modifies this
      ensures Valid()
      ensures State() == Step(old(State()), PurgeTimerFired)
    {
      pendingPurgeTimers := pendingPurgeTimers - 1;
      isPurging := false;
      HandleLogout();
    }
  }
}
