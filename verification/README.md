# workers-auth: the device-auth protocol and its session stores, in Dafny

This project models the PIN, trusted-device and email-code login of
`workers-auth`, the session stores under it, its Postgres PIN replacement, and
two smaller parts (client-IP keys, PIN key rotation), and proves properties of
every run of the model.

**Protocol.** `Tables` holds the five tables of `migrations/0006_device_auth.sql`
and what each store statement does to them. `Routes` gives each route
(`/email/start`, `/email/verify`, `/pin`, `/pin/login`) as a program with a
program counter that stops at every statement. `Runs` interleaves any number of
requests at those boundaries: each request reads its clock once and may land
its statements at any later time, replies may be lost, statements may be rolled
back and retried once, the owner may revoke devices, the application may mint
sessions of its own, and cleanup may run. A `Trace` beside each request records
what it really did to the tables, told or not. A run is a sequence of enabled
actions; theorems about runs hold for every one of them.

**Objects.** `DeviceStore.DeviceAuthStore` and the classes of `SessionStores`
are the store objects with their tables as fields, updated in place; every
method is proved equal to the statement the theorems are about. `Handlers`
writes the four handlers out, statement after statement, against that store
object and proves that, run alone, each does what its program does and leaves the
schema's one-live-PIN constraint standing, so handlers can follow each other.

**Answers.** What each handler answers and leaves is also stated a second time,
from the stored columns alone and without the routes: `StartAnswers`,
`VerifyAnswers`, `PinAnswers` and `LoginAnswers` say exactly when each answer is
given and what every table and every session is afterwards, `StatementFacts` and
`SessionFacts` do so for the store calls that touch many rows or missing ones.
The programs are proved to give these answers when run alone, and the handlers
and store objects promise them. Over whole runs, `CodeDigits`, `PinDigits`,
`VerifySessions` and `SendLimits` say what a code and a PIN are compared with,
what a session takes, and how many requests get through each limit.

**Files.** `Basics` (counting), `PinCredential`, `Tables`, `Routes`, `Runs`;
`StatementFacts`; `Alone`, `Answers`, `StartAnswers`, `VerifyAnswers`,
`PinAnswers`, `LoginAnswers`; `CodeDigits`, `PinDigits`, `VerifySessions`,
`SendLimits`; `Budgets`, `BudgetWindows`, `AddressGuesses` (failure budgets);
`EmailCodes`, `CodeRuns`, `CodeLogins`; `LoginGuard`, `Lockout`; `Breaker`,
`BreakerRuns`, `BreakerCost`; `Provenance`; `Devices`, `DeviceRuns`,
`DeviceSessions`; `Witnesses` (concrete runs that reach two exceptions); `Isolation`,
`OwnerAccess`; `Cleanup`, `CleanupRuns`; `PgReplace`, `PgSerial`, `PgOrder`,
`PgEnds`, `PgRace`; `Sessions`, `Revocation`, `KvAgrees`, `KvRaces`;
`PinKeys`, `PinRotations`; `IpKey`, `IpStrings`, `IpSpelling`, `IpKeys`;
`DeviceStore`, `SessionFacts`, `SessionStores`, `Handlers`.

**What turned out conditional.** Where a promise does not hold on all inputs,
the exact condition is proved.

- A device past its idle expiry can come back, by exactly one kind of step: a
  touch whose request read its clock before the expiry and whose statement
  lands after it (`DeviceSessions.RevivedOnlyByStaleTouch`; a run that does it
  is `Witnesses.StaleTouchRevives`). Revocation and the absolute expiry are
  final under any clocks.
- A KV `get` reads its clock before the revocation list reads its own. A
  covered session is returned if and only if it is inside both expiries at the
  first reading, its tombstone's own deadline has passed by the second, and no
  marker covers it that was not swept (`Revocation.ReturnedExactlyWhen`): so
  only if it ended between the two. A tombstone needs no sweep for that
  (`Revocation.TombstoneLapsesBetweenReadings`), a marker does
  (`Revocation.MarkerSweptBetweenReadings`).
- The KV and D1 session stores agree on every run over sessions of given
  lifetimes if and only if two things hold (`KvAgrees.AgreeExactlyWhenFitting`):
  the touch interval plus the marker's TTL covers the first idle window, and no
  session can be due for a second touch, still alive, while KV throttles it
  (`KvAgrees.Slips`: that needs a throttle longer than the touch interval, which
  the program accepts). Sessions created in the millisecond of a
  log-out-everywhere are apart; they differ exactly then
  (`KvAgrees.SameMillisecondParts`). A touch written later than its window was
  read parts the stores exactly when the session is alive and that window is
  over, or when it ended meanwhile by its idle expiry and KV still writes
  (`KvAgrees.LateTouchParts`).
- Cleanup changes replies and no decision: the flag or count of devices
  revoked, and a code consumed after it expired, each exactly when the row is
  one cleanup took (`Cleanup.RepliesCleanupChanges`,
  `Cleanup.CountsCleanupChanges`); with readings that move forward the last
  cannot arise, which is part of what `CleanupRuns.CleanupIsInvisible` proves.
- A spent login allowance is given back by exactly three kinds of landing
  (`Lockout.LockEndsExactly`): a verified code, a new PIN, and a correct PIN
  whose attempt was reserved before the lock landed. `Lockout.LockStands` holds
  when none of the last is in flight; `Witnesses.LockClearedInFlight` is a run
  in which one is.
- Without the advisory lock, one of two PIN replacements on an account can be
  refused if and only if no device is to be revoked by both: a common device
  row makes one wait for the other (`PgRace.WithoutLockOneIsRefused`).
- Keeping a PIN's stored key until its next successful login is not enough:
  re-hashes of overlapping logins may land in the wrong order, and a newer one
  be replaced by one under the older key (`PinRotations.DowngradeKillsPin`).
  A deployment must also keep the keys of re-hashes under way; then the live
  PIN verifies throughout (`PinRotations.PinOutlivesRotations`), and that is
  exactly what a ring must do (`PinRotations.KeepsExactly`).

## Model

| member | source | states |
|---|---|---|
| `BudgetWindows.GuessesPerWindow` | src/device-auth/index.ts:884-929 | from the empty store, any interleaving, clocks, lost replies and retries, no cleanup: wrong guesses per window of a budget never exceed its maximum, each is on a slot still charged, and the row is exactly the slots taken and not given back |
| `Budgets.BudgetsHold` | src/device-auth/index.ts:884-929 | the budget invariant (row equals held slots, every window within its maximum) survives every run |
| `Budgets.BudgetLand` | src/store/pg/executor.ts:99-115 | a statement that commits, commits unheard, or is rolled back and retried once keeps row and held slots equal, so nothing a retry may repeat is charged twice or lost |
| `Budgets.RefundNeverBlocked` | src/device-auth/store.ts:295-300 | a slot a request holds is counted: the `count > 0` guard never stops a real refund |
| `Budgets.TakeSlot` | src/device-auth/store.ts:269-285 | a granted reservation keeps row and slots equal, in the current window or a new one |
| `Budgets.GiveBack` | src/device-auth/store.ts:295-300 | a refund takes back its own window's slot and never one of a newer window |
| `BudgetWindows.GuessesPerInterval` | src/device-auth/store.ts:269-285 | unless a reservation on the budgets concerned lands with a reading from before the window it finds: any interval as long as the failure window holds at most twice the address budget plus twice a device budget per device used |
| `BudgetWindows.InOrderCountsForward` | src/device-auth/store.ts:253-320 | statements landing in the order of their readings never do that, on any bucket |
| `BudgetWindows.SlotsStayTimed` | src/device-auth/store.ts:269-285 | window starts of one bucket are the same or at least a window apart, and contain the readings counted in them |
| `AddressGuesses.GuessesPerAddress` | README.md:869-905 | the same bound with N the devices of the address that are present, unrevoked and unexpired at some reading of that interval |
| `AddressGuesses.DrawsWereLive` | src/device-auth/index.ts:790-824 | whoever draws on a device's budget found that device live and registered to the very address, at a moment of the run with the request's own reading |
| `LoginAnswers.PinLoginAnswers` | src/device-auth/index.ts:1041-1111 | run alone, what `/pin/login` answers and what it leaves in every table and session, from the stored columns: IP limit, device, PIN in force, attempt, digits, user, in that order |
| `LoginAnswers.LogsInExactlyWhen` | src/device-auth/index.ts:1063-1103 | a session exactly when the digits open the PIN in force of a live presented device's account with an attempt left, and the user is still that account; `invalid_pin` exactly when they do not and attempts remain, with their number |
| `VerifyAnswers.EmailVerifyAnswers` | src/device-auth/index.ts:845-971 | the same for `/email/verify`: IP limit, breaker, budget, code, user, device |
| `VerifyAnswers.VerifiesExactlyWhen` | src/device-auth/index.ts:863-935 | verified exactly when no gate refuses, a live code is the hash of these digits under a key still held, and there is a user (and the device id it draws is free); `invalid_code` exactly when let in otherwise; what becomes of code, lockout and sessions |
| `VerifyAnswers.ChargesExactlyWhen` | src/device-auth/index.ts:884-929 | let in, a request adds one to its budget exactly for a live code compared that let no one in, and one to the breaker for every code compared, failed exactly then |
| `PinAnswers.SetPinAnswers` | src/device-auth/index.ts:973-1027 | the same for `/pin`: who may set a PIN, what the batch leaves, and that replacing a live PIN with the option on, and nothing else, signs the user out everywhere and says so |
| `StartAnswers.EmailStartAnswers` | src/device-auth/index.ts:776-840 | the same for `/email/start`, with the counter that refuses and how long it asks to wait |
| `StartAnswers.SentExactlyWhen` | src/device-auth/index.ts:780-835 | a code is sent exactly when the IP's hour, the payer's failures, cooldown and hourly cap all have room |
| `Answers.RetryWaits` | src/device-auth/index.ts:567-568 | the wait given is the least number of whole seconds, at least one, to the window's end |
| `PinDigits.PinsAreCompared` | src/device-auth/index.ts:1069-1083 | in every run: a compared PIN was set by some request for that account, and is right exactly for that request's digits, if the ring verifies what it makes; `invalid_pin` only after a wrong one |
| `PinDigits.WrongPinIsTold` | src/device-auth/index.ts:1063-1083 | whatever came before: an attempt is counted, a right PIN goes on, a wrong one is told what is left, the last one locks, and nothing is minted |
| `PinDigits.LoginsArePaid` | src/device-auth/index.ts:1063-1103 | in every run: a session of `/pin/login` exists only after a right PIN on a counted attempt, a cleared guard, the account's own user and a device found alive, and is bound to that device |
| `PinDigits.PinsHold` | src/device-auth/store.ts:469-539 | every PIN stored or read stays one some request set for that account, in every run |
| `CodeDigits.GuessesAreByDigits` | src/device-auth/index.ts:910-923 | in every run: a guess was made on a code some request drew for that address, is right exactly for that code's digits if the ring verifies what it makes, and what matched is that code |
| `CodeDigits.DigitsHold` | src/device-auth/store.ts:330-358 | every code stored or tried stays one some request drew for its address, in every run |
| `VerifySessions.VerifiedSessionsAreEarned` | src/device-auth/index.ts:925-965 | in every run: a session of `/email/verify` exists only after its code was used up, for the resolved user, whose lockout it lifted; bound to a device exactly if asked, one it extended alive or registered |
| `SendLimits.CodesPerWindow` | src/device-auth/index.ts:780-824 | any interleaving without cleanup, any clocks: per window at most `sendsPerHour` requests issue a code on an address's or device's cap, one on its cooldown, `startsPerIp` on an IP; each was counted by all three, in windows still running at its reading |
| `SendLimits.AttemptsPerIp` | src/device-auth/index.ts:1053-1066 | and at most `pinLoginsPerIp` PIN attempts are reserved from one IP per window |
| `SendLimits.CapsSurviveCleanup` | src/device-auth/store.ts:585-596 | both with cleanup running, if horizons cover every window and readings move forward |
| `SendLimits.SendsHold` | src/device-auth/store.ts:253-267 | in every such run no two requests get the same count of one window, and windows of one counter never overlap |
| `StatementFacts.AllRevoked` | src/device-auth/store.ts:436-445 | device by device: revoked now exactly if the account's, unrevoked and not the one to keep; every other row as it was; the count is theirs |
| `StatementFacts.PinReplaced` | src/device-auth/store.ts:469-522 | the batch, row by row: devices only if asked and a PIN was in force, the PIN in force revoked, the new one there, the guard cleared; refused whole on a taken id |
| `LoginGuard.PinsPerAccount` | src/device-auth/index.ts:1063-1087 | in every interleaving, PIN comparisons per account are at most maxAttempts times one plus the guard resets, and a set lock means the allowance is spent |
| `LoginGuard.GuardsHold` | src/device-auth/store.ts:541-575 | attempts counted are paid for by the guard row and the resets, in every run |
| `Lockout.LockStands` | src/device-auth/index.ts:934-935 | once the allowance is spent and no correct PIN awaits its reset, no PIN is compared and the lock stands until an email code succeeds or the PIN is replaced |
| `Lockout.LockEndsExactly` | src/device-auth/index.ts:1063-1087 | a spent allowance is given back, and then whole, by exactly these landings: a verified code, a PIN stored, a correct PIN in flight |
| `Witnesses.LockClearedInFlight` | src/device-auth/index.ts:1063-1087 | for any address and any two PINs, a run from the empty store in which a lock is set and then cleared by a correct PIN reserved before it |
| `CodeRuns.GuessesAndLogins` | src/device-auth/store.ts:330-366 | per address and attempt allowance at most codeMaxAttempts guesses are compared, and logins plus the live row never exceed the codes issued |
| `CodeRuns.ResendsShareOneAllowance` | src/device-auth/store.ts:330-358 | resends before the deadline neither move it nor refill the attempts |
| `CodeLogins.OverwrittenCodeNeverLogsIn` | src/device-auth/index.ts:921-925 | a request whose matched code is no longer the live one when its DELETE lands: in every continuation it has consumed nothing, is never past its code, and its session is never minted |
| `CodeLogins.LoginsTakeLiveCodes` | src/device-auth/index.ts:910-935 | in every run, whoever logged in by email deleted the code stored for its address, live, of the very digits it was sent |
| `CodeLogins.ConsumedExactly` | src/device-auth/store.ts:360-366 | a request has consumed a code if and only if its DELETE took effect on the live one, of its own digits |
| `CodeLogins.DeleteOutcome` | src/device-auth/index.ts:921-925 | the DELETE consumes exactly the code still stored, and the request goes on exactly for a resolved user |
| `CodeRuns.CodesHold` | src/device-auth/store.ts:330-366 | the code invariant (attempts equal guesses of the current allowance, issued cover consumed) survives every run |
| `BreakerRuns.BreakerRowIsExact` | src/device-auth/index.ts:898-908 | the breaker row is exactly the verifications charged in its window and the failed among them; every answered verification is charged exactly when it compared a code, as failed exactly when refused |
| `Breaker.NewCharge` | src/device-auth/store.ts:302-320 | one hit moves attempts and failures in the same row and window |
| `Breaker.NewHit` | src/device-auth/store.ts:253-267 | each per-IP window lets at most its limit through |
| `BreakerCost.OpeningTakesManyIps` | README.md:946-954 | no counted reading from before the window it lands in, breaker window up to an hour: an open breaker means minFailures is at most twice verifiesPerIp times the distinct IP keys |
| `BreakerCost.SharePerIp` | README.md:946-954 | one IP key fails at most twice its hourly limit inside one breaker window |
| `Provenance.ReplacementsAreEarned` | src/device-auth/index.ts:973-1010 | behind every PIN replaced there is exactly one request with a consumed email code, resolved to that account at most freshMs earlier, whose session was presented; a session drawn by PIN login never replaces one |
| `Provenance.ProvenanceHolds` | src/routes.ts:91-125 | every minted session with an email verification was earned by its own request, in every run |
| `Provenance.ProvMints` | src/device-auth/index.ts:1101-1103 | minting keeps that: a PIN login's session carries no email verification |
| `DeviceSessions.ReadableWhileDeviceLives` | src/device-auth/sessions.ts:56-75 | a device-bound session is readable exactly while its device is present, unrevoked and unexpired; the device is always the account's own, and idle expiry never passes absolute expiry |
| `DeviceSessions.DeadForGood` | src/device-auth/sessions.ts:56-75 | a device gone, revoked or past its absolute expiry never serves a session again, and neither does one past its idle expiry when clocks land in order |
| `DeviceSessions.RevivedOnlyByStaleTouch` | src/device-auth/store.ts:395-407 | an idle-expired device lives again after a step if and only if the step is a touch sent before the expiry |
| `Witnesses.StaleTouchRevives` | src/device-auth/store.ts:395-407 | for any address and PIN, a run from the empty store in which a session is dead at its device's idle expiry and, after such a touch, alive at that same moment |
| `DeviceRuns.DevicesHold` | src/device-auth/index.ts:667-689 | every device row was created by a verified request with that account, address and expiry; every session minted on a device belongs to its account |
| `DeviceRuns.RowSteps` | src/device-auth/store.ts:395-445 | no statement changes a device's owner, address, secret or absolute expiry, or un-revokes it; only a live touch moves its idle expiry |
| `Isolation.StrangersCannotTouch` | src/device-auth/index.ts:790-824 | with an address's budget spent and its slot holders settled, no interleaving of requests without a live device of it changes its code, its budget or any budget of its devices |
| `Isolation.AvoidingStatement` | src/device-auth/store.ts:269-285 | a reservation refused at the cap, and everything else an outsider sends, leaves those rows alone |
| `OwnerAccess.OwnerGetsThrough` | src/device-auth/index.ts:739-756 | however strangers interleave, the holder of a live device is never stuck and after at most nine answered statements has the code sent or the account unlocked |
| `OwnerAccess.OwnerUnlocks` | src/device-auth/index.ts:739-756 | start, verify, unlocked: from what a caller can check (device budgets with room, attempts left, the digits sent, a known user), among any strangers, at most six answers send the code and at most nine more clear the account's guard in the table |
| `OwnerAccess.OwnerIsSent` | src/device-auth/index.ts:776-840 | asking for the code on a live device: never stuck, at most six answers, and then the drawn code is the live one, with attempts left and its whole life |
| `OwnerAccess.VerifiedMeansUnlocked` | src/device-auth/index.ts:934-935 | a verification that gets to its end has, by one of its own landings, cleared the guard row of the resolved account |
| `OwnerAccess.OwnerAnswer` | src/device-auth/index.ts:882-935 | each answer takes the owner one stage nearer and leaves what later stages need |
| `CleanupRuns.CleanupIsInvisible` | src/device-auth/store.ts:585-596 | taking every sweep out of a run leaves a run with the same requests in the same places, the same sessions and the same device-bound answers, if horizons cover every window and readings move forward |
| `CleanupRuns.BudgetsSurviveCleanup` | src/device-auth/store.ts:585-596 | the bound on wrong guesses per window holds with cleanup running |
| `Cleanup.AgreeStep` | src/device-auth/store.ts:253-358 | one statement against a swept and an unswept store keeps them agreeing |
| `Cleanup.SameAnswers` | src/device-auth/store.ts:253-358 | and is answered alike in every decision |
| `Cleanup.AgreeSwept` | src/device-auth/store.ts:585-596 | a sweep with a horizon of at least every window keeps them agreeing |
| `Cleanup.TimedStep` | src/device-auth/store.ts:330-346 | a code's attempts deadline never passes its expiry, so sweeping never refills attempts early |
| `Cleanup.RepliesCleanupChanges` | src/device-auth/store.ts:425-445 | exactly when the reply of one device's revocation, or of a consumption, differs after cleanup |
| `Cleanup.CountsCleanupChanges` | src/device-auth/store.ts:436-522 | exactly when the count of all devices revoked, or the reply of a PIN replacement, differs after cleanup |
| `Tables.Frame` | src/device-auth/store.ts:253-575 | each statement writes the tables it names and no other |
| `PgOrder.PgReplacesInLockOrder` | src/store/pg/device-auth.ts:110-144 | for any number of replacements, every interleaving of their statements: committed states are D1's batches in lock order with D1's answers, one live PIN at most, no insert refused, and nothing left uncommitted when nothing can move |
| `PgOrder.HolderNeverWaits` | src/store/pg/device-auth.ts:366-396 | whoever holds the advisory lock never waits for a row |
| `PgOrder.NeverStuck` | src/store/pg/device-auth.ts:110-144 | no deadlock: while a replacement is uncommitted some statement can go ahead |
| `PgOrder.StepsAdvance` | src/store/pg/device-auth.ts:366-396 | every statement takes its transaction further and no other back |
| `PgEnds.RunsEnd` | src/store/pg/device-auth.ts:366-396 | with the lock or without, a run has at most six stages per call times the rows there are |
| `PgEnds.EveryRunCanFinish` | src/store/pg/device-auth.ts:110-144 | with the lock, every run can be continued until every replacement has committed |
| `PgRace.WithoutLockOneIsRefused` | src/store/pg/device-auth.ts:110-121 | without the lock, of two replacements on one account, with or without a live PIN, devices to revoke and a guard to clear, and any calls on other accounts, one can be refused if and only if no device is to be revoked by both |
| `PgRace.DisjointMayBeRefused` | src/store/pg/device-auth.ts:110-121 | the refused run, whatever other calls there are on any account |
| `PgRace.SharedNeverRefused` | src/store/pg/device-auth.ts:366-396 | with a device row in common, no interleaving refuses either |
| `PgSerial.PgRun` | src/store/pg/device-auth.ts:366-396 | the committed tables are the serial batches, transactions on one key exclude each other, and each is exactly part-way through its batch |
| `PgSerial.CommitIsBatch` | src/device-auth/store.ts:469-522 | a finished transaction writes and reports what D1's batch does |
| `PgSerial.BatchKeepsOneLive` | src/device-auth/store.ts:469-522 | the batch leaves exactly the new PIN live for its account and at most one for every other |
| `Revocation.ReturnedExactlyWhen` | src/store/kv.ts:191-236 | whatever KV answers and whatever was swept, exactly when a get returns a session, in terms of its two readings, the record's expiries, the tombstone's deadline and the marker's sweep |
| `Revocation.RevokedStaysRevoked` | src/store/kv.ts:191-292 | so a covered session is returned only if it ended between the two readings, never with one reading; one under a tombstone alone that saw its record exactly then; an uncovered one is answered by its expiries alone |
| `Revocation.ListRun` | src/store/revocation.ts:59-117 | in every run the list holds a tombstone until its deadline, never before its session's end, and a marker until a lifetime after it |
| `Revocation.MarkCoversExactly` | src/store/kv.ts:288-292 | logging out everywhere covers every session there is, and of later ones exactly those of its own millisecond |
| `Revocation.TombstoneLapsesBetweenReadings` | src/store/kv.ts:202-225 | a run, without any sweep, in which a revoked session is returned |
| `Revocation.MarkerSweptBetweenReadings` | src/store/revocation.ts:107-117 | a run in which a logged-out session is denied until its user's marker is swept, and then returned |
| `KvAgrees.StoresAgree` | src/store/kv.ts:151-258 | over sessions that suit the policy, in every sequential run that touches as the middleware does, whatever KV drops after its TTLs, KV and D1 answer every get alike, but KV never answers a session created in the millisecond of its user's log-out |
| `KvAgrees.AgreeExactlyWhenFitting` | src/store/kv.ts:110-138 | for any touch interval and any throttle, they agree on all runs over sessions of given lifetimes if and only if touch interval plus marker TTL covers the first idle window and no due touch of a live session is throttled |
| `KvAgrees.PartIfSlipping` | src/store/kv.ts:242-258 | the run in which D1 slides and KV is throttled, whenever a throttle longer than the interval lets a second touch fall due in time |
| `KvAgrees.ThrottledRepeats` | src/store/kv.ts:242-258 | otherwise KV throttles a due touch only in the millisecond of the last one, where it changes nothing |
| `KvAgrees.BothRun` | src/store/d1.ts:111-190 | a session live in D1 is held by KV with the same fields; one over in KV is bound to stay over |
| `KvAgrees.TouchStands` | src/middleware.ts:390-396 | a touch made when the middleware's interval has passed leaves both stores alike, slid or unchanged |
| `KvAgrees.LateTouchParts` | src/middleware.ts:390-396 | a touch whose window was read at one moment and is written at a later one: exactly when the stores still answer alike |
| `KvAgrees.SameMillisecondParts` | src/store/kv.ts:288-292 | a session just created is answered alike if and only if its user did not log out everywhere in that millisecond |
| `KvRaces.NoTouchResurrects` | src/store/kv.ts:151-271 | on a KV that serialises operations, without any list, a deleted record is never stored again and every get begun after that answers nothing, wherever touches land |
| `KvRaces.GoneForGood` | src/store/kv.ts:242-271 | and in every longer run |
| `KvRaces.StoreRun` | src/store/kv.ts:151-271 | only a create writes a record key, once per id |
| `PinKeys.BuildKeyRing` | src/device-auth/keys.ts:95-104 | the ring has the current secret's keys, every predecessor's id, and under each id the first secret that has it |
| `PinKeys.RingFinds` | src/device-auth/keys.ts:95-104 | with distinct key ids a ring finds exactly the secrets it was built from |
| `PinKeys.VerifyExactly` | src/device-auth/credentials.ts:229-258 | a PIN verifies exactly when it is the enrolled one and its key is held; a re-hash is due exactly when key or cost changed, and keeps the PIN |
| `PinKeys.LastPinVerifies` | src/device-auth/credentials.ts:229-258 | after any rotations, PIN changes and logins with re-hashes landing at any time, the live PIN is the one set last and verifies exactly that while its key is held |
| `PinRotations.PinOutlivesRotations` | README.md:1018-1028 | if every deployment keeps the keys of PINs in force and of re-hashes under way, the live PIN verifies for exactly the digits set last, in every history |
| `PinRotations.KeysStayHeld` | src/device-auth/store.ts:524-539 | deployments apart, nothing that lands or is stored loses its key |
| `PinRotations.KeepsExactly` | src/device-auth/credentials.ts:229-258 | a ring keeps those keys if and only if every PIN in force, and every re-hash once landed, verifies its own digits under it |
| `PinRotations.BuiltRingKeeps` | src/device-auth/keys.ts:95-104 | a built ring keeps those keys if and only if it lists the secret of every PIN in force and every re-hash under way, where key ids tell them apart |
| `PinRotations.ListedExactlyWhenHeld` | src/device-auth/keys.ts:95-104 | a built ring keeps a material's key if and only if its secret is listed |
| `PinRotations.DroppedFlightKills` | src/device-auth/store.ts:524-539 | a re-hash landing under a key the ring has dropped leaves a PIN no digits open |
| `PinRotations.DowngradeKillsPin` | src/device-auth/store.ts:524-539 | for any two secrets, costs and digits, a history in which the old secret is dropped after a successful login re-hashed under the new one, and the right PIN then stops verifying |
| `PinKeys.LateRehashLost` | src/device-auth/store.ts:524-539 | a re-hash landing after a PIN change writes nothing |
| `IpSpelling.ExpandsExactlySpellings` | src/device-auth/ip.ts:25-43 | a text is read as eight hextets if and only if it is a legal spelling of them (section 2.2 of RFC 4291) |
| `IpKeys.SameKeySameNetwork` | src/device-auth/ip.ts:45-62 | two non-mapped addresses, in any spellings, share a key exactly when their first 64 bits agree |
| `IpKeys.MappedHasIpv4Key` | src/device-auth/ip.ts:45-62 | an IPv4-mapped address has the key of exactly its IPv4 address |
| `IpKeys.NetworkKeysApart` | src/device-auth/ip.ts:45-62 | no IPv4 address, mapped or not, shares a key with an IPv6 network |
| `IpKeys.CleanedAlike` | src/device-auth/ip.ts:45-49 | case, white space around, brackets and a zone make no difference, alone or together |
| `IpSpelling.FormBack` | src/device-auth/ip.ts:34-40 | reading a legal spelling's text gives its groups back |
| `DeviceStore.DeviceAuthStore.HitRateLimit` | src/device-auth/store.ts:253-267 | the count of the current window, restarted once it lapsed |
| `DeviceStore.DeviceAuthStore.ReserveRateLimit` | src/device-auth/store.ts:269-285 | a slot while there is room, else nothing changed |
| `DeviceStore.DeviceAuthStore.ReadRateLimit` | src/device-auth/store.ts:287-293 | the live count, or none |
| `DeviceStore.DeviceAuthStore.RefundRateLimit` | src/device-auth/store.ts:295-300 | one less in the same window only |
| `DeviceStore.DeviceAuthStore.HitCircuitBreaker` | src/device-auth/store.ts:302-320 | attempts and failures of one window |
| `DeviceStore.DeviceAuthStore.ReadCircuitBreaker` | src/device-auth/store.ts:322-328 | the live pair, or none |
| `DeviceStore.DeviceAuthStore.PutEmailCode` | src/device-auth/store.ts:330-346 | a resend keeps attempts and deadline until the deadline |
| `DeviceStore.DeviceAuthStore.ReserveEmailCodeAttempt` | src/device-auth/store.ts:348-358 | an attempt on a live code with attempts left |
| `DeviceStore.DeviceAuthStore.ConsumeEmailCode` | src/device-auth/store.ts:360-366 | deletes the row of that very code, once |
| `DeviceStore.DeviceAuthStore.CreateDevice` | src/device-auth/store.ts:368-388 | inserts, or throws on a taken id |
| `DeviceStore.DeviceAuthStore.FindDevice` | src/device-auth/store.ts:390-393 | the row, dead or alive |
| `DeviceStore.DeviceAuthStore.TouchDevice` | src/device-auth/store.ts:395-407 | extends a live device within its absolute expiry |
| `DeviceStore.DeviceAuthStore.RevokeDevice` | src/device-auth/store.ts:425-434 | revokes the account's own unrevoked device |
| `DeviceStore.DeviceAuthStore.RevokeAllDevices` | src/device-auth/store.ts:436-445 | exactly the account's unrevoked devices but the one to keep are revoked, every other row stays, and how many |
| `DeviceStore.DeviceAuthStore.GetActivePin` | src/device-auth/store.ts:447-467 | the newest live PIN is the only one |
| `DeviceStore.DeviceAuthStore.ReplaceCredential` | src/device-auth/store.ts:469-522 | one batch, row by row: devices but the one to keep, and only while a PIN is replaced; old PIN, new PIN, guard |
| `DeviceStore.DeviceAuthStore.MarkCredentialUsed` | src/device-auth/store.ts:524-539 | only on a live credential, with its re-hash if any; every other row stays |
| `DeviceStore.DeviceAuthStore.ReserveLoginAttempt` | src/device-auth/store.ts:541-554 | an attempt below the maximum and unlocked, else nothing |
| `DeviceStore.DeviceAuthStore.LockAccount` | src/device-auth/store.ts:556-564 | locks at the maximum, keeping an earlier lock |
| `DeviceStore.DeviceAuthStore.ResetLoginGuard` | src/device-auth/store.ts:566-575 | clears, and answers what was there |
| `DeviceStore.DeviceAuthStore.Cleanup` | src/device-auth/store.ts:585-596 | which rows of each table stay: windows inside the horizon, unexpired codes, live devices, unrevoked credentials, every guard; each removed row is counted once |
| `SessionStores.RevocationList.Asks` | src/store/revocation.ts:59-71 | a live tombstone, or a marker past the creation |
| `SessionStores.RevocationList.Revoke` | src/store/revocation.ts:73-75 | the later of two expiries stays |
| `SessionStores.RevocationList.RevokeMany` | src/store/revocation.ts:77-82 | every tombstone there was or is asked for stands until the latest of those moments |
| `SessionStores.RevocationList.RevokeUser` | src/store/revocation.ts:84-94 | the later of two markers stays |
| `SessionStores.RevocationList.Cleanup` | src/store/revocation.ts:107-117 | exactly which entries stay: tombstones until their expiry, markers a lifetime longer |
| `SessionStores.D1SessionStore.Create` | src/store/d1.ts:111-158 | refuses non-positive TTLs; idle expiry within the absolute one |
| `SessionStores.D1SessionStore.Get` | src/store/d1.ts:160-177 | nothing for a row the attached list denies, else the live session; an expired row goes |
| `SessionStores.D1SessionStore.Touch` | src/store/d1.ts:179-194 | slides a live session within its absolute expiry, and touches no other row |
| `SessionStores.RevokedRowNeverReturns` | src/store/d1.ts:179-225 | a session revoked in D1, by itself or with its user, is found by no later reading, whatever touches, gets and sweeps come in between |
| `SessionStores.D1SessionStore.Revoke` | src/store/d1.ts:196-207 | a tombstone in the attached list, if any, until the row's end; no reading finds the session, and every other is answered as before |
| `SessionStores.D1SessionStore.RevokeAllForUser` | src/store/d1.ts:220-225 | a marker in the attached list, if any; no reading finds a session of the user, and those of others are answered as before |
| `SessionStores.D1SessionStore.Cleanup` | src/store/d1.ts:234-240 | exactly the rows inside both expiries stay; each removed row is counted once |
| `SessionStores.KvSessionStore.Create` | src/store/kv.ts:151-189 | one record put, no marker, refused TTLs refused |
| `SessionStores.KvSessionStore.Get` | src/store/kv.ts:191-236 | clamps at read, derives the first window, asks the list last |
| `SessionStores.KvSessionStore.Touch` | src/store/kv.ts:242-258 | a blind, throttled marker write, kept for the least whole seconds that cover the window, at least sixty |
| `SessionStores.KvSessionStore.Revoke` | src/store/kv.ts:260-271 | tombstone until the record's end, or for the fallback time if there is none; then both keys go, and nothing else |
| `SessionStores.KvSessionStore.RevokeAllForUser` | src/store/kv.ts:288-292 | one marker for the user |
| `SessionStores.DeviceBoundSessionStore.Get` | src/device-auth/sessions.ts:56-75 | over D1 or KV: a session exactly if it is bound to no device or to a live one of its own user, else nothing and the session revoked in the inner store |
| `SessionStores.RefusedStaysRefused` | src/device-auth/sessions.ts:66-75 | a session refused for its device is answered by neither store again, on KV not even from a stale record until its end |
| `SessionStores.VisitRows` | src/middleware.ts:390-396 | get, then touch once the interval has passed, on D1 |
| `SessionStores.VisitKv` | src/middleware.ts:390-396 | the same on KV |
| `Handlers.DeviceAuth.EmailStart` | src/device-auth/index.ts:776-840 | run alone, the handler answers and leaves the tables as its program does, and exactly as `StartAnswers.StartAnswered` says |
| `Handlers.DeviceAuth.EmailVerify` | src/device-auth/index.ts:845-971 | the same with `VerifyAnswers.VerifyAnswered`, the sessions it mints and the throw of a taken device id |
| `Handlers.DeviceAuth.SetPin` | src/device-auth/index.ts:973-1027 | the same with `PinAnswers.SetPinAnswered` and the sessions it ends |
| `Handlers.DeviceAuth.PinLogin` | src/device-auth/index.ts:1041-1111 | the same with `LoginAnswers.LoginAnswered` |
| `Handlers.DeviceAuth.ReadDevice` | src/device-auth/index.ts:627-636 | the presented device if it is real, unrevoked and unexpired |

## Left out

- Hono routing, headers, cookies, CSRF, bot check, body parsing, weak-PIN and format checks: a request refused before its first statement never enters a run; events and `sendCode` are not modelled.
- SHA-256, HMAC, HKDF, PBKDF2 and random ids: hashes are free constructors (equal only for equal inputs), ids are drawn fresh; the code, salt and ids a request draws are part of its input.
- Client IPs enter `Runs` already turned into their keys; `IpKey` models the key itself, on ASCII text.
- One key ring, cost and configuration per run in `Runs`; rotation is modelled in `PinKeys`. Durations are whole milliseconds.
- `resolveUser` answers one value per request; device labels and user claims ride along unread and are dropped.
- In cookie mode, the previous session revoked when a new one is minted: `Runs` lets any session ever minted be live or not, whenever it is read.
- `/pin/status`, `/devices`, `/devices/:deviceId/revoke`, `/devices/revoke-all`, `/device/forget` and `/logout`: the revocations among them are the owner's steps in a run; the rest only read or clear a cookie.
- `listDevices` and `readLoginGuard`: reads that decide nothing in the four routes.
- `BudgetWindows.GuessesPerWindow`, `BreakerRuns.BreakerRowIsExact`, `CodeRuns.GuessesAndLogins` and `SendLimits.CodesPerWindow` are stated for runs without cleanup; `CleanupRuns.CleanupIsInvisible` carries what requests do over to runs with it.
- `BudgetWindows.GuessesPerInterval`, `AddressGuesses.GuessesPerAddress` and `BreakerCost.OpeningTakesManyIps` assume that no statement counted on the buckets concerned lands with a reading from before the window it finds there: such a one is counted in a window that does not contain its reading.
- `OwnerAccess.OwnerUnlocks` takes as given that the per-IP limits and the circuit breaker let the owner by and that the device is live when it is looked up, and that the owner's statements are answered.
- `PgRace.WithoutLockOneIsRefused` is about two replacements on one account; with a third on it, whether one can be refused also depends on what the earlier ones revoke.
- `Witnesses` are for configurations without a circuit breaker, with two PIN attempts for the lock.
- `PgReplace` models replacements only; other store calls on Postgres are single conditional statements, taken as atomic. How Postgres implements row locks is not modelled.
- `KvAgrees` compares the KV store with a D1 store that has no revocation list attached.
- `SessionStores.DeviceBoundSessionStore`: the inner stores are the D1 and the KV one; `src/store/pg/session.ts` is not among them.
- `SessionStores.KvSessionStore`: the touch guard is one map, where the program has one per isolate; with more of them fewer touches are throttled.
- Deferred cleanup of expired sessions (`executionCtx.waitUntil`) is done at once.
- `src/providers/neon.ts`, magic links, API keys, `src/store/pg/session.ts`, `isWeakPin`, `estimateEntropyBits`, the browser client and the test helpers.
