# SecurePay Sacco staff console — a Dafny model

SecurePay Sacco is a single-page staff console for a savings and credit co-operative
(SACCO). Staff sign in from a fixed directory of five identities, one per role. The
console then lets them:

- look at the member list and freeze or unfreeze individual members;
- run AI-assisted forensic scans on transactions;
- read the compliance audit log;
- as administrator, make the member 2FA policy mandatory, engage or lift a
  system-wide emergency lockout (the "killswitch"), and purge all sessions.

The signed-in record, the 2FA flag and the lock flag are kept in the browser's local
storage and are restored when the console mounts again.

The model covers the application-level state machine with its persistence, the login
form, the member list with its dashboard figures, the security feed (forensic scans and
the log filter), the settings page (the lockout dialog and its view gating), and the fixture
data the console ships with.

Modules, one per concern of the program:

| file | module | what it holds |
|---|---|---|
| `types.dfy` | `Types` | the records: staff user, member, transaction, security event, and their enumerations |
| `constants.dfy` | `Constants` | the fixtures (directory with passwords, role tables, members, transactions, audit log) and lemmas about them |
| `session.dfy` | `Session` | the key-value store, the `AppState` state machine `Step` over explicit events, its invariant, and the `App` component class |
| `login.dfy` | `Login` | credential lookup (`Authenticate`) and the `LoginPage` form class |
| `members.dfy` | `Members` | the freeze toggle, active count and frozen-asset total, displayed status, freeze-button gating, and the `MainLayout` class holding the member list |
| `forensics.dfy` | `Forensics` | the forensics permission, the scan request checks, the investigation map updates, the insight fallback, the log filter, and the `SecurityFeed` class |
| `settings.dfy` | `Settings` | the lockout button, its confirm and cancel, the view gating as written, the administrator-only gate it was meant to have, and the `SettingsPage` class |

Modelling conventions:

- **Timers.** The two timers (the 3-second lockdown splash and the 4.5-second purge
  delay) are explicit events, `LockTimerFired` and `PurgeTimerFired`. The state
  counts the timers started and not yet fired. A timer event with none pending changes
  nothing, because it cannot occur.
- **Storage.** Local storage is a `map<string, StoredValue>` whose values are a staff
  record or a boolean, not their JSON text. The text form is not modelled (see below).
- **Amounts.** Balances and transaction amounts are integers in cents. The fixtures'
  decimal dollars are written as cents, for example 125000.00 becomes 12500000.
- **State and specification.** Each component class has specification functions of
  its state. Each method's `ensures` ties the new state to a pure function of the old
  one, and the lemmas are proved about those functions.

Points of the code's behaviour that the model keeps as they are:

- **Handlers check nothing.** The application's handlers perform no role or lock
  checks of their own; only the views guard them. The handlers are:
  - the 2FA toggle;
  - the lock toggle;
  - the purge;
  - the member freeze toggle.

  The views guard them in three ways:
  - the 2FA switch and the freeze button are rendered for `ADMIN` only;
  - the freeze button is disabled while locked;
  - the purge button is disabled while purging.

  The model keeps this split. `Session.Step` and `Members.ToggledFreeze` are unguarded.
  The view gating is separate: `Settings.TwoFactorSwitch`, `Settings.PurgeButton` and
  `Members.FreezeClick`.
- **Overlays are not guards.** Several panels are drawn over controls without removing
  or disabling them:
  - the "Access Denied" panel over the override modules (App.tsx:546-554);
  - the lockdown splash (App.tsx:700-714);
  - the lockdown notice shown to non-administrators (App.tsx:716-738);
  - the purge overlay (App.tsx:840-861).

  Each is a positioned element stacked above the page. It intercepts the pointer, but
  the controls beneath stay rendered, enabled and reachable with the keyboard. The model
  therefore treats none of them as a guard. In particular, the lockout and purge
  buttons act for every role (see "## Findings").
- **Purge while purging.** A second confirmed purge is not refused by the handler. It
  starts one more timer. The disabled button is what prevents it in the UI.
- **Scans of unflagged transactions.** The scan handler accepts any transaction id in
  the list, flagged or not (`Forensics.UnflaggedTransactionScanned`). The console never
  sends such a request. Its scan buttons appear only:
  - on the flagged transactions' cards;
  - for a role allowed forensics;
  - while unlocked;
  - while that transaction's scan is not loading.

  So neither an unflagged scan nor the access-denied alert can be reached from the
  console. `Forensics.ScanButtonShown` is this guard, and
  `Forensics.ScanButtonAlwaysScans` proves that a shown button always starts a scan of
  its own card's transaction.
- **The log filter.** The operator filter is initialised to "All Users", and nothing in
  the feed ever changes it. The displayed log is therefore always the whole log.
  Filtering itself is still modelled and proved (`Forensics.FilteredLogs`).
- **Passwords are stored.** Login hands the whole directory record, password included,
  to the application. The application then stores it under the user key
  (`Session.LoginStoresRecord`).

## Model

| member | source | states |
|---|---|---|
| `Constants.TestUsers` | constants.ts:4-50 | definition with no contract of its own: the staff directory with passwords; stated by the `Constants` directory lemmas below and `Login.PersonaLoginSucceeds` |
| `Constants.RoleDescriptions` | constants.ts:52-58 | definition with no contract of its own: the role descriptions; stated by `Constants.RoleDescriptionsTotal` |
| `Constants.MockMembers` | constants.ts:60-66 | definition with no contract of its own: the member list in cents; stated by the member lemmas below and `Members.InitialDashboard` |
| `Constants.MockTransactions` | constants.ts:68-74 | definition with no contract of its own: the transaction list in cents; stated by the transaction lemmas below |
| `Constants.MockAuditLogs` | constants.ts:76-85 | definition with no contract of its own: the audit log; stated by `Constants.AuditOperatorsAreStaff` and `Forensics.FilterByOperator` |
| `Constants.RoleLabels` | constants.ts:87-93 | definition with no contract of its own: the role labels; stated by `Constants.RoleLabelsTotal` |
| `Constants.DirectoryKeysAreEmails` | constants.ts:4-50 | every directory key is the email of the identity stored under it |
| `Constants.DirectoryHasFiveDistinctIds` | constants.ts:4-50 | the directory has exactly five identities with pairwise distinct ids |
| `Constants.EachRoleHeldOnce` | constants.ts:4-50 | each of the five roles is held by exactly one directory identity |
| `Constants.RoleDescriptionsTotal` | constants.ts:52-58 | every role has a description |
| `Constants.RoleLabelsTotal` | constants.ts:87-93 | every role has a display label |
| `Constants.MemberIdsDistinct` | constants.ts:60-66 | member ids are pairwise distinct |
| `Constants.MemberBalancesNonNegative` | constants.ts:60-66 | no member balance is negative |
| `Constants.OnlyM902StartsFrozen` | constants.ts:60-66 | a fixture member starts frozen exactly when its id is M-902 |
| `Constants.TransactionIdsDistinct` | constants.ts:68-74 | transaction ids are pairwise distinct |
| `Constants.FlaggedTransactions` | constants.ts:68-74 | a transaction is flagged exactly when it is TXN-9081 or TXN-9084 |
| `Constants.TransactionCustomersAreMembers` | constants.ts:68-74 | every transaction's customer id is the id of a listed member |
| `Constants.RiskScoresInRange` | constants.ts:68-74 | every risk score lies in 0..100 |
| `Constants.AuditOperatorsAreStaff` | constants.ts:76-85 | every audit-log operator is the display name of a directory identity |
| `Session.StartUp` | App.tsx:867-894 | mounting starts no transition and no timer, adds the two flag keys to storage, and leaves every key the application does not own as stored |
| `Session.LoggedOut` | App.tsx:901-904 | logout clears the user and removes exactly the user key; every other field and stored value is kept |
| `Session.Step` | App.tsx:896-933 | no event touches a storage key other than the application's three; each event's effect is stated by the lemmas below (`Session.LoginStoresRecord` to `Session.PurgeTimerLogsOut`) |
| `Session.Run` | App.tsx:896-933 | sequences of events keep every foreign storage key untouched (their effect: `Session.RunConcat`, `Session.RunPreservesInvariant`) |
| `Session.RunConcat` | App.tsx:896-933 | running two event sequences in turn is running their concatenation |
| `Session.ReloadDuringSplashStaysUnlocked` | App.tsx:910-918 | a reload during the lockdown splash drops the pending timer, and the console comes back unlocked (the lock flag was never written) |
| `Session.ReloadDuringPurgeKeepsUser` | App.tsx:924-933 | a reload during a purge drops the purge timer, and the user stays signed in |
| `Session.ReadFlag` | App.tsx:872-881 | an absent flag reads as its default; a stored boolean reads as itself |
| `Session.StoredUser` | App.tsx:883-886 | a user is restored exactly when a staff record is stored under the user key, and it is that record |
| `Session.StartUpDefaults` | App.tsx:867-894 | with empty storage: no user, 2FA mandatory, unlocked, no transition, and both flags written back |
| `Session.StartUpRestoresUser` | App.tsx:883-886 | a stored record becomes the signed-in user; with no user key there is no user |
| `Session.StartUpEstablishesInvariant` | App.tsx:867-894 | after mounting, storage mirrors user and both flags, and no transition lacks its timer |
| `Session.StepPreservesInvariant` | App.tsx:888-933 | every handler and timer keeps storage in step with the state and keeps each transition paired with its pending timer |
| `Session.RunPreservesInvariant` | App.tsx:888-933 | the invariant holds after any sequence of events |
| `Session.RestartRestores` | App.tsx:872-894 | after any run from any mount, mounting again on the resulting storage restores the same user, 2FA flag and lock flag |
| `Session.LoginStoresRecord` | App.tsx:896-899 | login sets the user, stores the full record including its password, and changes nothing else |
| `Session.LogoutClearsUser` | App.tsx:901-904 | logout clears the user, removes exactly the user key, and changes nothing else |
| `Session.Toggle2FANegates` | App.tsx:906-908 | the 2FA toggle negates the flag, persists the new value, and changes nothing else |
| `Session.Toggle2FATwice` | App.tsx:906-908 | toggling 2FA twice restores the state it started from |
| `Session.Only2FAToggleChanges2FA` | App.tsx:906-908 | no other event changes the 2FA flag |
| `Session.EngageStartsTransition` | App.tsx:910-918 | from unlocked, the lock toggle only raises "locking down" and starts one lock timer |
| `Session.LockTimerLocks` | App.tsx:915-918 | the lock timer ends the transition, locks, persists the lock, and leaves user, 2FA and purge state alone |
| `Session.DeactivateIsImmediate` | App.tsx:919-921 | from locked, the lock toggle unlocks at once and persists it, with no transition and no timer |
| `Session.LockedOnlyByTimer` | App.tsx:910-922 | the system goes from unlocked to locked only when a pending lock timer fires |
| `Session.UnlockedOnlyByToggle` | App.tsx:910-922 | the system goes from locked to unlocked only through the lock toggle |
| `Session.EngageSequence` | App.tsx:910-922 | from a quiet state: toggle gives "locking down, not locked", then the timer gives "locked, not locking down", with the invariant kept |
| `Session.UnconfirmedPurgeIsNoop` | App.tsx:924-925 | declining the purge prompt changes nothing |
| `Session.ConfirmedPurgeStarts` | App.tsx:924-927 | a confirmed purge only raises the purging flag and starts one purge timer |
| `Session.PurgeTimerLogsOut` | App.tsx:928-931 | the purge timer drops the purging flag and logs out, leaving the lock and 2FA flags alone |
| `Session.ShowsMainLayout` | App.tsx:938-956 | definition with no contract of its own: the main layout is routed exactly when a user is signed in |
| `Session.BlockingNoticeShown` | App.tsx:717 | definition with no contract of its own: the rendering condition of the shutdown notice; stated by `Session.BlockingNoticeWhileLocked` |
| `Session.BlockingNoticeWhileLocked` | App.tsx:717 | under the invariant, a signed-in non-administrator sees the shutdown notice exactly while the system is locked |
| `Session.App.constructor` | App.tsx:867-894 | the component's state is the start-up state for the given storage |
| `Session.App.HandleLogin` | App.tsx:896-899 | the new state is the login step of the old state |
| `Session.App.HandleLogout` | App.tsx:901-904 | the new state is the logout step of the old state |
| `Session.App.HandleToggle2FA` | App.tsx:906-908 | the new state is the 2FA-toggle step of the old state |
| `Session.App.HandleToggleSystemLock` | App.tsx:910-922 | the new state is the lock-toggle step of the old state |
| `Session.App.LockTimerFires` | App.tsx:915-918 | with a lock timer pending, the new state is the lock-timer step |
| `Session.App.HandlePurgeSessions` | App.tsx:924-933 | the new state is the purge step for the prompt's answer |
| `Session.App.PurgeTimerFires` | App.tsx:928-931 | with a purge timer pending, the new state is the purge-timer step |
| `Login.Authenticate` | App.tsx:74-82 | a record is returned exactly when the email is in the directory and the password equals its stored password, and it is that record |
| `Login.PersonaLoginSucceeds` | App.tsx:74-82 | every directory identity signs in with its own email and password and yields exactly its record |
| `Login.WrongPasswordRejected` | App.tsx:74-82 | a known email with any other password is rejected |
| `Login.UnknownEmailRejected` | App.tsx:74-82 | an email outside the directory is rejected whatever the password |
| `Login.LoginPage.constructor` | App.tsx:70-72 | the form starts with empty email, password and error |
| `Login.LoginPage.SetEmail` | App.tsx:102 | typing in the email field sets only the email |
| `Login.LoginPage.SetPassword` | App.tsx:113 | typing in the password field sets only the password |
| `Login.LoginPage.SelectPersona` | App.tsx:134 | clicking a persona fills in its email and password, which then authenticate as that persona |
| `Login.LoginPage.HandleLogin` | App.tsx:74-82 | on a match the application takes the login step with the matched record; otherwise the application is unchanged and the error message is set |
| `Members.FlipIfMatch` | App.tsx:678 | definition with no contract of its own: the per-member step of the toggle's map; stated by `Members.ToggledFreeze` |
| `Members.ToggledFreeze` | App.tsx:677-679 | same length and order; each member whose id matches has its frozen flag negated; every other field and member is unchanged |
| `Members.ToggleTwiceRestores` | App.tsx:677-679 | toggling the same id twice restores the list |
| `Members.ToggleUnknownIdIsNoop` | App.tsx:677-679 | toggling an id no member has leaves the list unchanged |
| `Members.Unfrozen` | App.tsx:346 | holds exactly the members whose own flag is unfrozen (order and multiplicity: `Members.UnfrozenAppend`) |
| `Members.FrozenMembers` | App.tsx:347 | holds exactly the members whose own flag is frozen (order and multiplicity: `Members.FrozenAppend`) |
| `Members.UnfrozenAppend` | App.tsx:346 | the unfrozen filter distributes over concatenation, so it keeps the unfrozen members in list order |
| `Members.FrozenAppend` | App.tsx:347 | the frozen filter distributes over concatenation, so it keeps the frozen members in list order |
| `Members.ActiveCount` | App.tsx:346 | definition with no contract of its own: the "Active Members" figure; stated by `Members.ActivePlusFrozenIsAll`, `Members.OnlyOneFrozen` and `Members.ToggleMovesOneMember` |
| `Members.SumBalances` | App.tsx:347 | definition with no contract of its own: the reduce from 0; stated by `Members.FrozenAssetsBounded` |
| `Members.FrozenAssets` | App.tsx:347 | definition with no contract of its own: the "Frozen Assets" figure; stated by `Members.FrozenAssetsBounded`, `Members.OnlyOneFrozen` and `Members.ToggleMovesOneMember` |
| `Members.ActivePlusFrozenIsAll` | App.tsx:346-347 | the active count plus the number of frozen members is the list length |
| `Members.FrozenAssetsBounded` | App.tsx:347 | with non-negative balances, the frozen total lies between 0 and the sum of all balances |
| `Members.OnlyOneFrozen` | App.tsx:346-347 | when exactly one member is frozen, the active count is one less than the list length and the frozen total is that member's balance |
| `Members.ToggleMovesOneMember` | App.tsx:677-679 | with distinct ids, toggling one member moves exactly that member between the active count (±1) and the frozen total (∓ its balance) |
| `Members.EffectiveFrozen` | App.tsx:402 | a member is shown frozen while the system is locked, and otherwise exactly when its own flag is set |
| `Members.ActiveMembersStat` | App.tsx:346 | the "NO ACCESS" notice exactly while locked, otherwise the active count |
| `Members.FrozenAssetsStat` | App.tsx:347 | the "ALL FUNDS FROZEN" notice exactly while locked, otherwise the frozen total |
| `Members.FreezeControlShown` | App.tsx:420 | definition with no contract of its own: the freeze button is rendered for ADMIN only; stated by `Members.FreezeClick` |
| `Members.FreezeControlEnabled` | App.tsx:422 | definition with no contract of its own: the freeze button is disabled while locked; stated by `Members.FreezeClick` |
| `Members.FreezeClick` | App.tsx:420-423 | a non-administrator, or any click while locked, leaves the list unchanged; otherwise the click toggles that member |
| `Members.InitialDashboard` | constants.ts:60-66 | on the initial list the ids are distinct, M-902 is the only frozen member, four are active, and 890000 cents are frozen |
| `Members.MainLayout.constructor` | App.tsx:675 | the layout starts with the fixture member list |
| `Members.MainLayout.ToggleMemberFreeze` | App.tsx:677-679 | the new list is the toggled list for that id |
| `Forensics.IsForensicsAllowed` | App.tsx:158-160 | forensics is allowed exactly for ADMIN and SECURITY_ANALYST |
| `Forensics.FindTransaction` | App.tsx:168-169 | none exactly when no transaction has the id; otherwise the first transaction with that id |
| `Forensics.RequestScan` | App.tsx:162-174 | while locked nothing happens; a role without forensics is denied; otherwise a scan starts exactly when some listed transaction has the id, and it is for that transaction |
| `Forensics.UnflaggedTransactionScanned` | App.tsx:162-174 | a completed (unflagged) listed transaction is scanned like a flagged one |
| `Forensics.RefusedScansOnFixture` | App.tsx:162-174 | a junior clerk is denied, and an unlisted id starts nothing |
| `Forensics.ScanButtonShown` | App.tsx:209-267 | definition with no contract of its own: a scan button is rendered on flagged cards only, for a role allowed forensics, while unlocked and not while loading; stated by `Forensics.ScanButtonAlwaysScans` |
| `Forensics.ScanButtonAlwaysScans` | App.tsx:209-267 | a shown scan button on a listed transaction always starts a scan of exactly that transaction: it is never ignored, denied or unknown |
| `Forensics.MarkLoading` | App.tsx:171 | the id's entry becomes loading; every other entry is kept |
| `Forensics.MarkDone` | App.tsx:172-173 | the id's entry becomes done with the text; every other entry is kept |
| `Forensics.RescanOverwrites` | App.tsx:162-174 | a second scan of the same transaction overwrites the first result |
| `Forensics.DistinctScansIndependent` | App.tsx:162-174 | scans of two different transactions interleave freely, and each ends with its own text |
| `Forensics.SecurityInsight` | services/geminiService.ts:6-30 | the service's answer, or the fixed offline-alert text when the call fails |
| `Forensics.UserMatch` | App.tsx:178 | definition with no contract of its own: the per-entry filter test; stated by `Forensics.FilteredLogs` |
| `Forensics.FilteredLogs` | App.tsx:176-181 | holds exactly the log entries the filter matches; "All Users" keeps the whole log (order and multiplicity: `Forensics.FilterAppend` with `Forensics.FilterUniform`) |
| `Forensics.FilterAppend` | App.tsx:176-181 | filtering distributes over concatenation |
| `Forensics.FilterUniform` | App.tsx:176-181 | a list where no entry matches filters to nothing, and one where every entry matches is kept whole |
| `Forensics.FilterByOperator` | App.tsx:176-181 | filtering the audit log by "Jenny Garcia" gives exactly her two entries |
| `Forensics.SecurityFeed.constructor` | App.tsx:155-156 | the feed starts with no investigations and the "All Users" filter |
| `Forensics.SecurityFeed.RunInvestigation` | App.tsx:162-171 | the request passes the lock, role and lookup checks in order; only a started scan marks its id loading and leaves an insight request outstanding |
| `Forensics.SecurityFeed.InsightArrives` | App.tsx:172-173 | the outstanding request's id is marked done with the insight text, whatever the lock state is by then |
| `Forensics.SecurityFeed.DisplayedLogs` | App.tsx:176-181 | with the initial filter the displayed log is the whole audit log |
| `Settings.LockoutClick` | App.tsx:487-493 | definition with no contract of its own: the lockout button's handler; stated by `Settings.ClickWhileUnlockedOpensDialog` and `Settings.ClickWhileLockedDeactivates` |
| `Settings.ConfirmLockout` | App.tsx:495-498 | definition with no contract of its own: the dialog's confirm; stated by `Settings.ConfirmStartsLockdown` |
| `Settings.CancelLockout` | App.tsx:632 | definition with no contract of its own: the dialog's cancel; stated by `Settings.CancelChangesNothing` |
| `Settings.TwoFactorControlShown` | App.tsx:513 | definition with no contract of its own: the 2FA switch is rendered for ADMIN only; stated by `Settings.TwoFactorSwitch` |
| `Settings.PurgeButtonEnabled` | App.tsx:576 | definition with no contract of its own: the purge button is disabled while purging, for every role; stated by `Settings.PurgeButton` |
| `Settings.ClickWhileUnlockedOpensDialog` | App.tsx:487-493 | while unlocked the lockout button only opens the confirmation dialog |
| `Settings.ClickWhileLockedDeactivates` | App.tsx:487-493 | while locked the lockout button unlocks directly and leaves the dialog as it was |
| `Settings.ConfirmStartsLockdown` | App.tsx:495-498 | confirm closes the dialog and, from unlocked, starts the lockdown transition and its timer |
| `Settings.CancelChangesNothing` | App.tsx:632 | cancel closes the dialog and changes no application state |
| `Settings.OnlyConfirmEngages` | App.tsx:487-498 | from a quiet unlocked state, click then cancel restores everything; only click then confirm starts the lockdown |
| `Settings.PurgeButton` | App.tsx:575-577 | for any role: a press while purging changes nothing; an unconfirmed press changes nothing; a confirmed one starts the purge and one more purge timer |
| `Settings.TwoFactorSwitch` | App.tsx:513-534 | a non-administrator cannot change the 2FA flag; for ADMIN the click is the 2FA-toggle step, which negates it |
| `Settings.NonAdminCannotChange2FA` | App.tsx:513-534 | through the settings page a non-administrator cannot change the 2FA policy |
| `Settings.NonAdminKeyboardEngagesLockout` | App.tsx:545-559 | a signed-in non-administrator who presses the lockout button beneath the "Access Denied" panel opens the dialog; confirming starts a lockdown that the timer completes |
| `Settings.NonAdminKeyboardLiftsLockout` | App.tsx:545-559 | while locked, the same press lifts the lockdown for a non-administrator |
| `Settings.NonAdminKeyboardPurges` | App.tsx:545-577 | a signed-in non-administrator who presses the purge button and confirms starts the purge, and its timer signs them out |
| `Settings.OverrideModulesOpen` | App.tsx:546-554 | definition with no contract of its own: the gate the "Access Denied" panel announces, open to ADMIN alone; stated by `Settings.GatedLockoutButton` and `Settings.GatedPurgeButton` |
| `Settings.GatedLockoutButton` | App.tsx:545-559 | corrected lockout button: a non-administrator's press is a no-op; for ADMIN it is the lockout click as written |
| `Settings.GatedPurgeButton` | App.tsx:545-577 | corrected purge button: a non-administrator's press is a no-op; for ADMIN it is the purge button as written |
| `Settings.GatedNonAdminCannotOverride` | App.tsx:545-577 | behind the gate a non-administrator changes neither the lock, the purge state nor the 2FA policy |
| `Settings.GatedAgreesForAdmin` | App.tsx:545-577 | for ADMIN the gated lockout and purge buttons act exactly as written |
| `Settings.AdminLockoutPath` | App.tsx:487-498 | from a quiet state, the administrator's gated click, confirm and timer end locked with the invariant kept, and the click alone only opens the dialog |
| `Settings.SettingsPage.constructor` | App.tsx:485 | the page starts with the dialog closed |
| `Settings.SettingsPage.HandleLockoutClick` | App.tsx:487-493 | the new page and application state is the lockout click of the old one |
| `Settings.SettingsPage.HandleConfirm` | App.tsx:495-498 | the new page and application state is the confirm of the old one |
| `Settings.SettingsPage.HandleCancel` | App.tsx:632 | the new page state is the cancel of the old one |

## Findings

| source | as written | input that shows it | evidently intended | confidence | as-written member | corrected member |
|---|---|---|---|---|---|---|
| App.tsx:545-577 | the "Access Denied" panel is an absolutely positioned sibling drawn over the override modules; the lockout and purge buttons under it stay rendered, enabled and focusable for every role | signed in as the junior clerk, on the settings page: Tab to "Emergency Sacco Lockout", press Enter, then press Confirm in the dialog, which is drawn above the panel; three seconds later the system is locked | only ADMIN can engage or lift the lockout or purge the sessions, as the panel's "Requires Tier 5 Clearance" says | not executed | `Settings.NonAdminKeyboardEngagesLockout` | `Settings.GatedNonAdminCannotOverride` |

`Settings.NonAdminKeyboardLiftsLockout` and `Settings.NonAdminKeyboardPurges` show the
same path for lifting the lockout and for the purge. `Settings.GatedAgreesForAdmin`
shows that the gate leaves the administrator's behaviour unchanged, and
`Settings.AdminLockoutPath` is stated over the gated button. `Settings.SettingsPage`
models the component as written.

## Left out

- **Rendering and routing.** The markup, styles, icons, animations and tab navigation
  are not modelled. Routing is kept only as "the main layout shows exactly when a user
  is signed in" (`Session.ShowsMainLayout`).
- **Timer durations.** The 3-second and 4.5-second delays are not modelled. Only the
  order of events is. A timer may never fire: a page reload discards pending timers,
  and the model's `Session.StartUp` starts with none pending. A reload during the
  lockdown splash therefore leaves the system unlocked
  (`Session.ReloadDuringSplashStaysUnlocked`), and a reload during a purge cancels
  the logout (`Session.ReloadDuringPurgeKeepsUser`).
- **JSON text in storage.** Storage holds typed values. A value that is not valid
  JSON would throw at start-up; this failure is not modelled. A stored value that
  parses to something other than a boolean is modelled, with two rules:
  - a record under a flag key reads as true (`Session.ReadFlag`). The source keeps the
    parsed record itself as the flag's state and writes that record back under the
    flag key. The model writes the boolean `true` there instead;
  - a boolean under the user key reads as no user (`Session.StoredUser`).
- `Session.StoredUser` differs from the source for a stored boolean under the user
  key. The source parses the text and sets the user to that value. A stored `true`
  therefore routes to the main layout for a "user" with no role, and a stored `false`
  gives no user. The model reads both as no user, because its user is always a staff
  record or absent.
- **`Session.ReadFlag` for odd values.** Its contract states only the absent and
  boolean cases. Other JSON values (numbers, strings, null) are not representable in
  the model.
- **Currency formatting.** `toLocaleString` and the dollar formatting of the
  frozen-asset figure are not modelled. The model gives the figure as an integer in
  cents.
- **Browser dialogs and the console.** `window.confirm`, `alert` and the console error
  log are not modelled:
  - the purge prompt's answer is the `confirmed` argument;
  - the access-denied alert is the `AccessDenied` outcome.
- **The text-generation service.** The network call, the model name, the prompt text
  and the API key are not modelled. The call is an opaque `ServiceReply`, answered or
  failed, and the insight is computed from it.
- **Concurrency of insight requests.** Outstanding requests are a multiset of ids.
  Their completion order is the caller's choice of `InsightArrives` calls.
- **The browser's form validation** on the login fields is not modelled. The fields
  carry `required`, and the email field has `type="email"`. With an empty field, or an
  email the browser does not accept as an address, the browser blocks the submit. The
  handler then never runs and no error message appears. The model instead runs the
  directory lookup, which fails and sets the invalid-credentials error.
- `Members.MainLayout`, `Forensics.SecurityFeed`, `Settings.SettingsPage` and
  `Login.LoginPage`: each component's state lives only while it is mounted.
  - Logout, the purge timer's logout and a reload unmount the main layout.
  - The next login starts again from the fixture member list, so every freeze made in
    the session is lost.
  - The investigation record and the dialog flag likewise reset, and so do the login
    form's fields.
  - The settings page also unmounts on a tab switch.
  - The security feed unmounts on a tab switch too. Its investigation record is
    discarded, and an insight that arrives after the switch is lost.
    `Forensics.SecurityFeed.InsightArrives` records it all the same.

  The model builds each class separately and does not tie its construction to
  `Session.Step`'s logout or to `Session.StartUp`.
- **The login route's redirect** and the `Navigate` element are not modelled.
- **Components that only display their props** are not modelled: the audit-log table,
  the transaction table, the sidebar, the header badges, and `RoleLabels` /
  `RoleDescriptions` used as captions.
- **Sidebar and stat cards without logic** are not modelled: the "Asset Integrity" and
  "Sacco Node Sync" cards, and the administrator's quick-settings button while locked.
