# IP roller: a Dafny model

The bot rents public addresses from cloud providers, keeps the one that fits a mask and gives
the others back, because a rented address is billed until it is released. This project models
the parts of it where that can go wrong, and proves what they guarantee:

- **The rolling loop** (`Roll`, `RollMeaning`). `Roll.Engine.Roll` is the program's loop over
  objects (counter, log, provider). It is proved equal to a function `Run` on values, and
  `RollMeaning` says what a run means: which exit it takes, on exactly which streams of provider
  answers, how long it can wait, what it leaves at the provider and in the log.
- **Many runs at once** (`Fleet`, `FleetCap`, `FleetBilling`, `FleetLedger`, `FleetSolo`). A step
  relation in which every critical section and every provider or storage call is one step, any
  run may move next, midnight may pass anywhere, and the process may stop and start again at any
  moment. The bot starts on whatever its database and the providers hold, and the invariants are
  kept from there on. `FleetSolo` connects the two models: a whole run that nothing interrupts
  does, step by step, what the sequential loop does.
- **The daily counter** (`DailyCount`, `DailyFaults`, `Storage`): a write-through cache that refines a
  plain map from (account, day) to a count, and what the cap is worth when reads fail.
- **The mask language** (`Mask`, `CidrRules`, with `Decimal` and `Text` for the library calls):
  parser, printer and matchers, and CIDR prefixes as octet patterns.
- **The /roll dialog** (`Dialog`, `DialogSafety`, `DialogBudget`, `DialogLaunch`, `DialogAttach`,
  `DialogWitness`, `DialogTour`, `Handlers`). A state machine in which every section of a handler that holds the
  lock of the dialogs, and every call of a provider or of the storage, is one event, so handlers
  overlap in any way and runs end at any moment. `Handlers` has the handlers as methods over the
  dialog store and the states it hands out: each section is proved to be its event, and a handler
  that nothing interrupts to be its sections one after the other.
- **Both together** (`Whole`): the runs and the dialogs over one pool table, with restarts.
- **Accounts** (`Keys`, `Registry`, `Seed`): keys over the whole history of the accounts table,
  validation against construction of adapters, seeding, and agreement of the live registry with
  the enabled rows.
- **Messages** (`Escape`, `Guides`): escaping, its one-pass inverse, and the credential guides.

Where the models meet: a run of `Fleet` starts only with a mask that parses and a budget of at
least one, which is what `DialogBudget.WizardRunsAreSound` proves of the runs the wizard starts;
the caps of an account are fixed, which is `Seed.CapsOfKeyStable`; and in `Whole` a run works for a
ticket of the dialogs, with that ticket's account and mask. Everything from outside (clock readings, storage failures, provider answers, random jitters, cancelled sleeps, the keys
the registry shows at a moment) is an input, and the theorems are for all of its values.

## Where the code is not what one would expect

- The README of the bot says the daily cap is respected. It is, exactly when the runs of an
  account never overlap; with k runs at once a day can end at cap + k - 1, from every count the
  day may have had before (`FleetCap.CapRespectedExactly`, `CapBoundReached`).
- A restart loses the addresses that runs have in hand: they are billed for good and no
  pool row ever names them (`FleetBilling.LostForGood`). Nothing is lost exactly when no run has
  one in hand at a restart (`LostExactly`).
- `backoff` compares the number of the attempt, not the number of failures, with its limit: after
  five misses the first error ends the run (`RollMeaning.FirstErrorEnds`; the exact condition is
  in `AllocateFailedExactly`). For the same reason its ten-second ceiling never applies.
- The roll log says `released` before the release is tried, and a failed release leaves the mark
  (`RollMeaning.LogCanBeWrong`). A mark agrees with the provider exactly when the address matched
  or its release worked (`LogMarksExactly`).
- `acceptBudget` looks the account and its limit up in one section and sets the number in another. If
  a run of the chat fails in between, the dialog is at the confirmation with no account
  (`DialogWitness.ConfirmWithoutAccount`); if it catches an address for an account with a lower
  limit, the wizard launches a run with a budget that the roller cuts (`CutBudgetReachable`). The
  confirmation is sound throughout exactly if every number, when it is set, fits the account the
  chat has by then (`DialogBudget.ConfirmExactly`), as it does if that account was not changed
  (`KeptAccountsConfirm`).
- The guard of the launch button and the change of step are two sections, so two taps on one
  confirmation can start two runs (`DialogWitness.DoubleLaunchReachable`). A tap takes a confirmation
  again exactly when it passes while the tap that took it is half done (`DialogLaunch.AgainExactly`),
  and taps that do not overlap start at most one run each (`OneLaunchPerConfirm`).
- `cbProvider` keeps the old result fields, so an old account button after a result makes the
  dialog attach one account's resource through another account
  (`DialogWitness.MismatchReachable`); the exact condition is in `DialogAttach.DialogAttachCoherent`,
  and for the calls of a whole history in `EveryAttachIsCoherent`.
- A budget button from an old keyboard reaches the confirmation with no mask
  (`DialogWitness.ConfirmWithoutMask`). No mask and no account are the only reasons for which the
  launch button can be refused at that step (`DialogSafety.DialogSafe`).
- A failed read of the daily counter is cached as zero, so even one run at a time can pass the cap, by
  once the cap for every failed load (`DailyFaults.CapWithFailedLoads`, `FailedLoadsReached`).
- `Reload` lists the rows and installs the result in two sections. When account commands overlap, the
  last to install decides, and the registry agrees with the table exactly if the live rows have not
  changed since it listed them (`Registry.StaleExactly`).
- Seeding twice differs from seeding once when every insertion of the first failed
  (`Seed.SeedIdempotent`).

## Model

| member | source | states |
|---|---|---|
| RollMeaning.CaughtExactly | internal/engine/roller.go:80-128 | a run returns address ip after n attempts if and only if n is within the clamped budget, every earlier attempt was under the cap, not cancelled, and either a miss or a forgiven error, and attempt n is allowed, waited for and granted ip, which the mask accepts |
| RollMeaning.CapExactly | internal/engine/roller.go:86-89 | a run ends on the daily cap exactly when some attempt it comes to finds what was stored for that day plus what the run itself used of it at the cap, also across midnight |
| RollMeaning.WaitExactly | internal/engine/roller.go:90-92 | a run ends on the rate limiter exactly when some permitted attempt it comes to is cancelled while waiting |
| RollMeaning.AllocateFailedExactly | internal/provider/provider.go:87-91 | a run ends with provider error e exactly when an attempt it comes to is refused with e and e is no answer of the provider, or has a status that is neither 429 nor 500 or above, or the attempt is number six or later, or its backoff is cancelled |
| RollMeaning.ServerErrorGoesOn | internal/engine/roller.go:94-99 | an attempt among the first five that is refused with 429 or any status from 500, its backoff completed, is followed by the next attempt, or by the end of the budget |
| RollMeaning.FirstErrorEnds | internal/engine/roller.go:97-100 | five misses and then a first error, "too many requests", end a run with that error and without any backoff |
| RollMeaning.BudgetExactly | internal/engine/roller.go:127 | the budget is exhausted exactly when every attempt within it is a miss or a forgiven error under the cap |
| RollMeaning.StopsSomewhere | internal/engine/roller.go:86-127 | the exits cover all runs: a run survives its budget or ends at an attempt it comes to, with the exit of that attempt |
| RollMeaning.StopsThere | internal/engine/roller.go:86-127 | a run that comes to an attempt it does not survive ends there, with the exit of that attempt |
| RollMeaning.OnceMeaning | internal/engine/roller.go:87-125 | one attempt, seen against the stored table and the stream of answers only, goes on exactly when it is survived, and keeps the counter equal to the start plus the granted addresses of each day |
| RollMeaning.WaitingBound | internal/engine/roller.go:86-147 | for every stream and every budget B a run backs off at most five times, at distinct attempts among the first five, and sleeps at most 13,895 + 599 B milliseconds |
| RollMeaning.SleepExactly | internal/engine/roller.go:124-146 | with no sleep cut short a run sleeps exactly, for every error it forgives at attempt i, 200 milliseconds doubled i times and the jitter, and for every miss 200 milliseconds and the jitter |
| RollMeaning.CutSleep | internal/engine/roller.go:150-159 | a sleep that is cancelled takes until it is cancelled |
| RollMeaning.ClampExactly | internal/engine/roller.go:80-83 | the budget of a run is what was asked for, or the account's limit if it has one and that is lower |
| RollMeaning.TotalBackoff | internal/engine/roller.go:140-144 | five backoffs with the largest jitter take 13,895 milliseconds together |
| RollMeaning.CeilingNeverApplies | internal/engine/roller.go:137-143 | at every attempt that backs off the wait is below the ten-second ceiling |
| RollMeaning.RunSettles | internal/engine/roller.go:94-125 | with fresh resource ids, a run leaves live exactly what was live before, the caught address and the addresses whose release failed; every other granted address was released once, in order, after whatever was released before the run, and the caught one was not |
| RollMeaning.RunLogs | internal/engine/roller.go:104-113 | a run appends one log row per granted address, in order, marked by whether the mask accepts it |
| RollMeaning.LogMarksExactly | internal/engine/roller.go:108-122 | for every logged attempt of every run, the row's released mark agrees at the end of the run with what is live at the provider exactly if the address matched or its release worked |
| RollMeaning.LogCanBeWrong | internal/engine/roller.go:108-122 | one miss whose release fails leaves a row marked released and a live address |
| Roll.Engine.Roll | internal/engine/roller.go:72-128 | the loop over counter, log and provider ends in the state and with the result of the specification run, from attempt one and with the budget clamped by the account's limit |
| Roll.Engine.TryOnce | internal/engine/roller.go:87-101 | one attempt of the loop is one step of the specification: stop with a result or go on, with counter, log, live resources, releases and time slept as specified |
| Roll.Engine.Settle | internal/engine/roller.go:102-125 | a granted address is counted, matched and logged, and released, then slept on, exactly when it does not match |
| Roll.Engine.Backoff | internal/engine/roller.go:132-147 | goes on exactly for a retryable error at one of the first five attempts whose wait is not cancelled; waits the doubled base plus the jitter; which errors these are, in statuses, is RollMeaning.AllocateFailedExactly and RollMeaning.ServerErrorGoesOn |
| Roll.Engine.Limiter | internal/engine/roller.go:50-62 | one limiter per account, whose rate is that of its first use; a rate that is not positive means five per second |
| Roll.Engine.Sleep | internal/engine/roller.go:150-159 | reports whether the sleep was completed and accounts for the time slept |
| FleetCap.CapUnderConcurrency | internal/engine/roller.go:86-102 | from every start and in every reachable state of any number of runs, across midnights and restarts, today's count plus the runs let through and not yet counted is at most cap - 1 + k, where at most k runs of the account are active at once; with k = 1 the count never passes the cap |
| FleetCap.CapBoundReached | internal/engine/limiter.go:57-77 | for every cap, every k and every count below the cap there is a history in which that day's count ends at cap - 1 + k |
| FleetCap.CapRespectedExactly | internal/engine/limiter.go:57-66 | the cap is respected in every history if and only if it is at the start and runs of the account never overlap |
| FleetCap.Serial | internal/engine/roller.go:86-117 | runs one after another bring a day's count from any value to any other up to the cap |
| FleetCap.StepCap | internal/engine/roller.go:86-102 | every step of any run, and midnight, keeps the cap invariant |
| FleetBilling.BillingConservation | internal/engine/roller.go:94-122 | from every state that obeys the law, and in every state reachable from it, the live resources are the disjoint union of those in the hands of one run, those lost in the hands of one at a restart, those whose release failed, those with exactly one pool row, and those that matched but could not be saved; no resource was released twice, and of the live ones exactly those whose release failed were tried |
| FleetBilling.StepConserves | internal/bot/handlers.go:807-828 | every step of every run, midnight and a restart keep the conservation law |
| FleetBilling.LostExactly | internal/bot/handlers.go:637-650 | a history loses no address if and only if no run has an address in hand at any of its restarts |
| FleetBilling.LostForGood | internal/bot/handlers.go:774-776 | an address lost at a restart stays live, is never released and never gets a pool row |
| FleetBilling.KeptForGood | internal/engine/roller.go:115-122 | a kept address stays kept and live whatever happens later, and no release of it was ever tried |
| FleetBilling.QuietBill | internal/engine/roller.go:115-122 | when nothing runs, the provider bills for the kept addresses, the failed releases and the lost addresses only |
| FleetBilling.PoolJustified | internal/bot/handlers.go:785-825 | if it holds of the rows the bot starts with, then in every reachable state the address of each pool row is accepted by the mask written in the row, which parses, and its account, resource id and address are those of one grant |
| FleetLedger.CounterAndLogAgree | internal/engine/roller.go:94-113 | from every start and at every point, what an account's counters gained over all days is the log rows it gained plus the runs between counting and logging, and its new successful allocations less the runs between allocating and counting; runs that a restart stopped there included |
| FleetLedger.LedgerInvariant | internal/storage/sqlite.go:136-160 | counters less log rows less the runs between them is one number in all states reachable from a start, and so is grants less counters less the runs between them |
| FleetLedger.StepBalances | internal/storage/sqlite.go:136-160 | every step keeps both numbers, midnight and restart included |
| FleetSolo.RunAlone | internal/engine/roller.go:86-127 | a whole run that nothing interrupts, from any attempt and over any number of days, leaves counter, log, live resources and release calls as the sequential run does; it ends, and has its pool row exactly when the sequential run returns an address, with that address |
| FleetSolo.LaunchAlone | internal/bot/handlers.go:807-825 | a run that is launched and then not interrupted does the sequential run of its account, that account's cap, the mask and the budget it was given, and its pool row, if any, has that mask and no machine |
| FleetSolo.AttemptAlone | internal/engine/roller.go:87-125 | the same of one attempt and the loop body: the run goes on, ends, or keeps its address just when the loop body says so |
| Fleet.CountStep | internal/bot/handlers.go:637-650 | a step moves one run and no other; a launch adds one; a restart drops all |
| DailyCount.WriteThrough | internal/engine/limiter.go:34-98 | over every history of calls, day changes in either direction and restarts without storage failures, the table holds for every account and day the initial count plus the recorded rolls of that pair, and every cached value is the stored one |
| DailyCount.AnswersAreExact | internal/engine/limiter.go:57-98 | every answer along such a history is the one a plain map from (account, day) to count gives: below the cap or not, the count, or what the cap leaves and never below zero |
| DailyCount.CacheMinusStore | internal/engine/limiter.go:68-77 | when only writes can fail, a cached count exceeds the stored one by exactly the failed writes of the account since the cache was last emptied |
| DailyFaults.CapWithFailedLoads | internal/engine/limiter.go:42-77 | with one attempt at a time, across days and restarts, the count of a day stays within the cap, or what it was before, plus the cap for every failed load of that day |
| DailyFaults.FailedLoadsReached | internal/engine/limiter.go:48-54 | for every cap and every number of failed loads there is a history that reaches this bound |
| DailyCount.ApplyAgrees | internal/engine/limiter.go:42-77 | one call keeps cache and table equal and adds one to the pair it counts and nothing to any other |
| DailyCount.DailyCounter.Inc | internal/engine/limiter.go:68-77 | the new cache and table of a recorded roll, with either storage call failing or not |
| DailyCount.DailyCounter.Allow | internal/engine/limiter.go:57-66 | a cap that is not positive always allows and touches nothing; otherwise the answer is count below cap, and the count is cached |
| DailyCount.DailyCounter.Get | internal/engine/limiter.go:42-55 | the count of today, from the cache or else from the table, cached from then on; a failed read counts as zero |
| DailyCount.DailyCounter.EnsureToday | internal/engine/limiter.go:33-40 | another day empties the cache and leaves the table |
| DailyCount.DailyCounter.Used | internal/engine/limiter.go:79-84 | today's count |
| DailyCount.DailyCounter.Remaining | internal/engine/limiter.go:86-98 | -1 without a cap, otherwise cap less count and never below zero |
| Storage.SQLite.IncDaily | internal/storage/sqlite.go:154-160 | the row of the pair grows by one, starting from one when there is none; a failure changes nothing |
| Storage.SQLite.DailyCount | internal/storage/sqlite.go:143-152 | the stored count, zero when there is no row |
| Storage.SQLite.LogRoll | internal/storage/sqlite.go:136-141 | one row is appended, or nothing on failure |
| Storage.SQLite.AddPoolIP | internal/storage/sqlite.go:80-89 | the row is stored under a new id, which is returned |
| Storage.SQLite.GetPoolIPByIP | internal/storage/sqlite.go:112-123 | finds a row of the address exactly when there is one |
| Storage.SQLite.MarkAttached | internal/storage/sqlite.go:125-129 | only the machine of that row changes; a missing row is no error |
| Storage.SQLite.UpsertAccount | internal/storage/sqlite.go:223-239 | an existing (type, label) keeps its id, a new one gets an id never used before; ids and pairs stay unique |
| Storage.SQLite.SetAccountEnabled | internal/storage/sqlite.go:241-250 | only the switch of that row changes; a missing id is an error and changes nothing |
| Storage.SQLite.DeleteAccount | internal/storage/sqlite.go:252-261 | only that row goes and its id is not given out again; a missing id is an error |
| Storage.SQLite.ListEnabledAccounts | internal/storage/sqlite.go:188-212 | every enabled row, each once, and no other |
| Mask.ParsePrint | internal/engine/mask.go:58-84 | parsing inverts a canonical printer on every well-formed pattern, whatever blank text is around it |
| Mask.PrintIsNormalForm | internal/engine/mask.go:58-84 | an accepted octet pattern can be printed and read again without change |
| Mask.AcceptedIsWellFormed | internal/engine/mask.go:71-83 | each octet of an accepted pattern is a wildcard or has ordered bounds from 0 to 255 |
| Mask.OctetMeaning | internal/engine/mask.go:105-122 | an accepted octet is a wildcard only for the three wildcard texts, and otherwise its bounds are the very numbers written, so the uint8 casts lose nothing |
| Mask.RulesExactly | internal/engine/mask.go:75-83 | the parts are accepted exactly when each one is, and otherwise the error is that of the first bad one |
| Mask.DottedMatchesItself | internal/engine/mask.go:28-43 | the dotted decimal form of an IPv4 address is a mask that accepts that address and no other |
| Mask.ParseMask | internal/engine/mask.go:58-84 | the parser's loop computes the specified matcher or error; what that is, text by text, is CidrExactly and PatternExactly |
| Mask.CidrExactly | internal/engine/mask.go:64-69 | text with a slash is an error exactly if it cannot be read as a prefix, and otherwise matches exactly the addresses of the prefix's family, without a zone, that agree with it in the leading bits its length says |
| Mask.PatternExactly | internal/engine/mask.go:60-83 | other text is accepted exactly if it has three dots and four octets between them, and then matches the plain IPv4 addresses each of whose bytes is under the octet of its place; otherwise it is empty, has not three dots, or the error is that of the first bad octet |
| Mask.RangeExactly | internal/engine/mask.go:109-116 | a range is two numbers around the first dash, both from 0 to 255 and in order, and an error otherwise |
| Mask.NumberExactly | internal/engine/mask.go:117-121 | any other octet that is no wildcard is one number from 0 to 255, and an error otherwise |
| CidrRules.CidrTextIsPattern | internal/engine/mask.go:64-69 | text that is read as an IPv4 prefix matches what the octet pattern of that prefix matches |
| Mask.ParseMasks | internal/engine/mask.go:86-103 | accepted exactly when the list is not empty and each mask is; then an address matches exactly when one mask accepts it; otherwise the error is that of the first bad mask |
| Mask.MatchOctets | internal/engine/mask.go:28-43 | accepts exactly the plain IPv4 addresses each of whose bytes is under its rule |
| Mask.Match | internal/engine/mask.go:13-56 | a prefix by its leading bits, a pattern by its octets, a list by any of its members |
| CidrRules.CidrIsOctetPattern | internal/engine/mask.go:15-43 | for every network, with host bits set or not, every length from 0 to 32 and every address, membership by leading bits is what the octet matcher says of the derived rules |
| CidrRules.CidrAsText | internal/engine/mask.go:58-84 | every IPv4 prefix can be rewritten as an octet pattern that parses and matches the same addresses |
| CidrRules.BitsAreRules | internal/engine/mask.go:15-43 | the same for a network of any number of bytes |
| Decimal.AtoiItoa | internal/registry/registry.go:151-160 | for every 64-bit integer, reading what was printed gives it back |
| Decimal.AtoiDigit | internal/engine/mask.go:110-117 | a digit reads as itself, and one more digit is ten times the number and that digit, up to the 64-bit limit |
| Decimal.AtoiSign | internal/bot/handlers.go:739 | a plus changes nothing and a minus negates |
| Decimal.AtoiRejects | internal/registry/seed.go:69-75 | nothing but an optional sign and digits is read |
| Decimal.ItoaInjective | internal/provider/provider.go:62-69 | different numbers print differently |
| Text.SplitJoin | internal/engine/mask.go:71 | splitting at a separator undoes joining when no part holds it |
| Text.JoinSplit | internal/engine/mask.go:71 | joining undoes splitting, no part holds the separator, and there is one part more than there are separators |
| Text.CutExactly | internal/engine/mask.go:109 | the text before and after the first separator, exactly if there is one |
| Text.TrimSpaceSplits | internal/bot/handlers.go:687 | trimming takes off blank text at both ends, and all of it |
| Text.TrimSpacePad | internal/engine/mask.go:60 | trimming removes exactly the blank text around a core |
| DialogSafety.DialogSafe | internal/bot/handlers.go:603-650 | after every sequence of events, handlers overlapping, a mask that is set parses, an account that is set is a key, and at the confirmation the launch button works exactly when both are set |
| DialogBudget.ConfirmExactly | internal/bot/handlers.go:723-754 | throughout a history a dialog at the confirmation has an account key and a budget from 1 to the account's limit if and only if every number, at the moment it is set, fits the account the chat then has: there is one, and its limit is not below the number |
| DialogBudget.KeptAccountsConfirm | internal/bot/handlers.go:724-752 | it is so in every history in which no account of the chat changes between the reading and the setting of a number |
| DialogBudget.StepConfirm | internal/bot/handlers.go:603-839 | a step from a sound chat leaves it sound exactly if it is not the setting of a number that does not fit |
| DialogBudget.WizardRunsAreSound | internal/bot/handlers.go:785-790 | every run the wizard started has a mask that parses, an account key and a budget of at least 1, and the roller's clamp leaves the budget alone if the numbers set in its chat fitted |
| DialogLaunch.LaunchesExactly | internal/bot/handlers.go:637-650 | after every sequence of events, the runs a chat started and its half-done taps are together the confirmations taken and the taps on confirmations already taken, and no more confirmations are taken than were reached |
| DialogLaunch.AgainExactly | internal/bot/handlers.go:641-647 | in every reachable state, a tap takes a confirmation that was taken if and only if it passes the guard while the very tap that took it has not started its run |
| DialogLaunch.OneLaunchPerConfirm | internal/bot/handlers.go:637-650 | in every chat whose taps of the launch button do not overlap, the runs started never outnumber the confirmations reached, whatever is cancelled, restarted or finished in between |
| DialogWitness.DoubleLaunchReachable | internal/bot/handlers.go:641-649 | two overlapping taps on one confirmation start two runs |
| DialogAttach.DialogAttachCoherent | internal/bot/handlers.go:756-770 | the dialog's attach carries resource, address and row of the last catch given to the chat, whose row still holds that catch; its account is that of the catch exactly when no other account was picked since |
| DialogAttach.EveryAttachIsCoherent | internal/bot/handlers.go:841-863 | over every history of a bot, every attach call made for a pool row, from the command or from any dialog, carried that row's resource and address; every call went through the account that holds the resource exactly unless it came from a dialog in which another account was picked after the result; no row is marked with a machine without a call for that row and machine that worked |
| DialogAttach.EveryWorkingCallMarks | internal/bot/handlers.go:852-860 | over every history, an attach call that worked and has a row has its mark due, or the mark was tried, and if it could be written the row then bore the machine of the call |
| DialogAttach.MarkWrites | internal/bot/handlers.go:856-860 | a mark that is due and can be written writes the machine of its call into the row of that call, and nothing else; either way it is no longer due |
| DialogTour.FromRollToLaunch | internal/bot/handlers.go:603-753 | whatever a chat was at, a user who types a mask that parses and a number n gets a run of the account picked, with that mask and n rolls or as many as the account allows; no other chat changes |
| DialogTour.FromCatchToAttached | internal/bot/handlers.go:756-862 | when a run has caught an address and the user names a machine, there is one more call, which attaches that address to that machine through the run's account, one more pool row with account, resource, address, mask and machine, and the dialog is over |
| DialogTour.TextAtMask | internal/bot/handlers.go:694-721 | at the mask step a text that parses is stored, trimmed, and the number is next; another leaves the chat as it was |
| DialogTour.TextAtBudget | internal/bot/handlers.go:696-753 | at the number step a live account and a number that is understood lead to the confirmation with it, an account that is gone ends the dialog, another text leaves the chat as it was |
| DialogTour.TextAtVm | internal/bot/handlers.go:698-770 | at the machine step a text is the machine: one call for the result shown, its row marked if the call worked and the row can be written, and the dialog ends; without a result nothing is called |
| DialogTour.TextElsewhere | internal/bot/handlers.go:700-702 | at the other steps a text changes nothing |
| DialogTour.Unheard | internal/bot/handlers.go:683-691 | an empty text or an unknown command changes nothing |
| DialogTour.BudgetRead | internal/bot/handlers.go:733-748 | "max" asks for the account's limit, or 25 without one; a positive number for itself and at most the limit; nothing else is understood |
| DialogTour.Buttons | internal/bot/handlers.go:252-678 | /roll begins anew, a pick keeps all but account and step, the attach button all but the step, and a cancelled chat is as if never used |
| DialogTour.OtherChatsStay | internal/bot/fsm.go:53-71 | no event changes another chat than its own |
| DialogAttach.StepCallsSound | internal/bot/handlers.go:756-863 | every event keeps this, a catch saved under a new row included |
| DialogWitness.MismatchReachable | internal/bot/handlers.go:613-617 | for every two accounts: a run of the wizard, then an old account button, then an attach, and the call names one account and the resource of the other |
| DialogWitness.ConfirmWithoutMask | internal/bot/handlers.go:723-754 | for every account, an old budget button reaches the confirmation with no mask, where the launch button is refused |
| DialogWitness.LaunchReachable | internal/bot/handlers.go:603-650 | for every account, whatever its limit, and every mask that parses, the wizard does reach a launch with them |
| DialogWitness.ConfirmWithoutAccount | internal/bot/handlers.go:808-810 | for every account, a run that fails while a number is under way leaves the chat at the confirmation with no account |
| DialogWitness.CutBudgetReachable | internal/bot/handlers.go:829-835 | for every two accounts of which the first has the lower limit, a run of the first that catches an address while a number for the second is under way makes the wizard launch a run of the first with a budget above its limit |
| DialogSafety.StepOk | internal/bot/handlers.go:603-863 | every section of every handler, and every end of a run, keeps the invariant of every chat, of all that is under way and of the pool |
| Whole.AttachesAreRented | internal/bot/handlers.go:774-863 | over every history of runs, dialogs, commands and restarts together, every attach call ever made is for an address that some run kept, that is still rented and whose release was never tried, and went through the account that rents it exactly unless another account was picked after the result |
| Whole.StepHolds | internal/bot/handlers.go:637-863 | every step of either side, or of both, keeps what ties them: one pool table, runs that work for tickets of their own account and mask, and catches that were kept |
| Handlers.FSM.Get | internal/bot/fsm.go:41-51 | hands out the state of a chat itself, created idle if there is none; no other chat changes |
| Handlers.FSM.Update | internal/bot/fsm.go:53-64 | the change is made in place to the chat's state, created idle if there is none; no two chats share a state and no other chat changes |
| Handlers.FSM.Clear | internal/bot/fsm.go:66-71 | the chat's state is forgotten, not changed; no other chat changes |
| Handlers.Handler.SendRollStart | internal/bot/handlers.go:236-253 | a new wizard replaces the dialog, if the registry shows an account |
| Handlers.Handler.CbProvider | internal/bot/handlers.go:603-621 | picking a live account moves to the mask step and keeps every other field |
| Handlers.Handler.AcceptMask | internal/bot/handlers.go:707-721 | only a mask that parses is stored, and moves to the budget step |
| Handlers.Handler.AskBudget | internal/bot/handlers.go:724-748 | the first section: tells whether the account of the dialog is gone, and otherwise reads the number for it, clamped to its limit |
| Handlers.Handler.ConfirmBudget | internal/bot/handlers.go:749-752 | the second section: the number is set and the confirmation reached, whatever the dialog has come to |
| Handlers.Handler.AcceptBudget | internal/bot/handlers.go:723-754 | without interruption: an account that is gone clears the dialog, a bad number changes nothing, a good one is clamped and moves to the confirmation |
| Handlers.Handler.CbRunGuard | internal/bot/handlers.go:641-646 | a tap passes exactly when the four guards hold, with the dialog's account, mask and budget |
| Handlers.Handler.CbRunStart | internal/bot/handlers.go:647-649 | a tap that passed starts its run and moves the dialog on, whatever it has come to |
| Handlers.Handler.CbRun | internal/bot/handlers.go:637-650 | a tap that nothing interrupts is the two one after the other |
| Handlers.Handler.CbCancel | internal/bot/handlers.go:652-658 | the dialog is forgotten; started runs go on |
| Handlers.Handler.CbKeepInPool | internal/bot/handlers.go:660-667 | the dialog is forgotten; the pool does not change |
| Handlers.Handler.CbAttach | internal/bot/handlers.go:669-678 | moves to the machine step from any step, keeping the result fields |
| Handlers.Handler.OnText | internal/bot/handlers.go:682-703 | without interruption: a text goes to the step the dialog is at; an empty one or a command changes nothing |
| Handlers.Handler.AcceptAttachVM | internal/bot/handlers.go:756-770 | without interruption: without a result nothing is called; with one, its fields are attached and the dialog is forgotten |
| Handlers.Handler.DoAttach | internal/bot/handlers.go:841-863 | the provider is called exactly for a live account; the row gets the machine exactly after a call that worked, if there is such a row and it can be written, and otherwise the pool is as it was |
| Handlers.Handler.MarkRow | internal/bot/handlers.go:856-860 | the mark of one call that waits for it is written, or fails |
| Handlers.Handler.CmdAttach | internal/bot/handlers.go:309-323 | an address without a row changes nothing; otherwise a row of that address is attached: the call carries that row's account, resource and address and the machine named, and after a call that worked the row bears the machine, if it can be written |
| Handlers.Handler.RunRoll | internal/bot/handlers.go:774-839 | the engine's counter, log and provider end as the specification run on the chat's account, mask and budget says; if that run caught an address, the catch is saved and then shown, and in every other case, an account that is gone and a mask that does not parse included, the run ends as failed |
| Handlers.EndedLeaves | internal/bot/handlers.go:808-835 | a caught run whose row can be saved leaves one more pool row, with its account, resource, address and mask and no machine, and its result with that row in the dialog, or with none if it cannot be saved; every other run leaves the pool as it was and no dialog |
| Handlers.Handler.SaveCatch | internal/bot/handlers.go:820-828 | a catch is saved under the run's account and mask, or not; no dialog changes |
| Handlers.Handler.ShowCatch | internal/bot/handlers.go:829-835 | the catch replaces account and result of the chat and keeps its mask and budget |
| Keys.KeyInjective | internal/provider/provider.go:62-69 | equal keys have equal type and id |
| Keys.KeysNeverAliased | internal/storage/sqlite.go:223-261 | over every history of the accounts table, rows with equal keys at any two moments have the same id, type and label |
| Keys.IdStable | internal/storage/sqlite.go:40-48 | once handed out, an id keeps naming its (type, label) or is gone |
| Keys.DeletedForGood | internal/storage/sqlite.go:252-261 | a deleted id never comes back |
| Registry.ValidateCreds | internal/registry/seed.go:55-77 | accepts exactly the credentials with every required field, no unknown field and a readable region; otherwise names a true fault, and the first missing field before any other |
| Registry.ValidatedBuilds | internal/registry/registry.go:109-189 | for every type, credentials that pass validation build an adapter, whatever the configuration block |
| Registry.ValidExactly | internal/registry/seed.go:19-77 | credentials are valid exactly if every field their type must have is there and not empty, there is no field that it neither must nor may have, and a gcore region is a number |
| Registry.Registry.Collect | internal/registry/registry.go:57-74 | the enabled rows whose adapter builds, each under its own key, listed once and in sorted order |
| Registry.Registry.Install | internal/registry/registry.go:76-78 | the set collected replaces the one in place |
| Registry.Registry.Reload | internal/registry/registry.go:55-81 | without interruption: afterwards the registry holds exactly the enabled rows whose adapter builds; a failed query changes nothing |
| Registry.StaleExactly | internal/registry/registry.go:57-78 | a set collected from one table agrees with another, such as the table when it is installed, if and only if the two have the same live rows as far as an account shows them |
| Registry.Registry.Get | internal/registry/registry.go:83-89 | after a reload a key finds an account exactly if it is the key of an enabled row whose adapter builds, and then the account of that row |
| Registry.Registry.Accounts | internal/registry/registry.go:91-100 | the accounts in the order of the sorted keys |
| Registry.SortSorts | internal/registry/registry.go:74 | the display order is sorted |
| Registry.LeqMeaning | internal/registry/registry.go:74 | the order of keys is that of the first character in which they differ, and a beginning comes first |
| Registry.SortKeepsKeys | internal/registry/registry.go:74 | sorting neither loses, adds nor repeats a key |
| Registry.AccountsOfBlocks | internal/config/config.go:95-118 | after a reload the account of a row bears its type and label; limit per run, daily cap, cost and strategy are those of the configuration block of its type, the rate is the block's if positive and otherwise five; without a block there are no limits and the rate is five; the adapter is built from the row's credentials and that block |
| Registry.CapsOf | internal/config/config.go:107-118 | an account is never without a positive rate |
| Seed.SeedKeepsMeaning | internal/registry/seed.go:83-131 | for every type and every block that passes validation, the adapter built from the seeded credentials is the one the block describes, including the trip of region_id through text |
| Seed.SeedFromConfig | internal/registry/seed.go:138-174 | a table with rows is left alone; an empty one gets one valid row for every enabled block that passes validation and whose insertion works, and no other |
| Seed.SeedIdempotent | internal/registry/seed.go:138-174 | whatever insertions fail, seeding twice is seeding once exactly if the table had rows, or the first run could seed something, or the second could not |
| Seed.SeedAgain | internal/registry/seed.go:142-148 | a seeding changes nothing exactly if the table has rows or nothing can be seeded |
| Seed.SeedsAreValid | internal/registry/seed.go:155-162 | every seeded row passes validation |
| Seed.SeededRows | internal/registry/seed.go:150-162 | every seeded row is an enabled account called default, of a type whose block is enabled, with that block's credentials, none of them empty |
| Seed.SeededTypes | internal/registry/seed.go:150-162 | every type whose block is enabled and valid, and whose insertion works, gets a row |
| Seed.RegistryIsEnabledRows | internal/registry/registry.go:55-81 | when every row was validated a reload skips nothing: the registry's keys and those of its order are exactly the keys of the enabled rows |
| Seed.CapsOfKeyStable | internal/registry/registry.go:63-72 | while the configuration stays, the caps filed under a key are the same at every two moments |
| Seed.Admin.AddAccount | internal/bot/handlers.go:395-407 | a row enters only with a known type and valid credentials; every row stays valid, and a reload that works brings the registry in agreement with the table, whatever it showed before |
| Seed.Admin.EnableAccount | internal/bot/handlers.go:424-457 | the switch of an existing row, an error for a missing one; after a change a reload that works restores agreement |
| Seed.Admin.DeleteAccount | internal/bot/handlers.go:417-457 | deletion of an existing row, an error for a missing one; after a change a reload that works restores agreement |
| Seed.Admin.ToggleAccount | internal/bot/handlers.go:567-591 | the button inverts the switch of the row it finds, and reloads also when that could not be saved, which restores agreement if it works |
| Escape.StripUndoesEscape | internal/bot/guides.go:138-154 | stripping gives back every text from its escape |
| Escape.StripShowsPlainText | internal/bot/guides.go:146-154 | for every document of supported tags and escaped texts, stripping its rendering leaves exactly the raw text |
| Escape.EscIsCharMap | internal/bot/guides.go:138-144 | the three replacement passes, in their order, are one map over characters |
| Escape.StripPatterns | internal/bot/guides.go:148-152 | no pattern of the one-pass replacer is a prefix of another, so the order of its arguments is irrelevant |
| Escape.ReplaceAt | internal/bot/guides.go:148-153 | where a pattern starts, it is the one replaced, whatever follows |
| Escape.EscapeInjective | internal/bot/guides.go:138-144 | texts with the same escape are equal |
| Escape.EscapedIsSafe | internal/bot/guides.go:138-144 | escaped text has no angle bracket, and no ampersand but those of the three entities |
| Escape.TagsByName | internal/bot/guides.go:148-152 | each of the seven tags is stripped |
| Escape.EntitiesByName | internal/bot/guides.go:148-152 | each of the three entities becomes its character |
| Guides.GuideHTML | internal/bot/guides.go:85-115 | the guide written piece by piece is the rendering of the guide as a document, so the plain-text fallback shows exactly its text |
| Guides.SplitNames | internal/bot/guides.go:92-99 | the required and the optional field names, each in the order of the fields |
| Guides.NamesExactly | internal/bot/guides.go:92-99 | a name is among the required ones exactly if a required field bears it, and likewise for the others |
| Guides.GuideShows | internal/bot/guides.go:101-113 | the plain text of a guide is the title, the steps, the required names, the optional ones if there are any, and the example, in this order |
| Guides.StepShown | internal/bot/guides.go:104-106 | step i bears the number i, counted from one |
| Guides.TitleShown | internal/bot/guides.go:102-103 | the title is bold and an expandable quote follows |
| Guides.RequiredShown | internal/bot/guides.go:107-108 | the quote ends and the required names are bold |
| Guides.ExampleShown | internal/bot/guides.go:112-113 | the example is set as code |
| Guides.WriteSteps | internal/bot/guides.go:104-106 | appends one numbered, escaped line per step |

## Left out

- Telegram calls, message texts, keyboards, edit throttling, the forum notifier and the access middleware: they change none of the modelled state.
- The provider adapters and their HTTP calls: a provider answers an allocation with a resource or an error and a release with success or failure. Resource ids are fresh per account; that is an assumption of the billing theorems.
- Text of addresses: addresses are values, so `netip.ParsePrefix` is a parameter of the parser, the trip of a kept address through its text is not modelled, and `doAttach` has no branch for a stored address that does not parse.
- SQL text and JSON encoding of credentials; `ORDER BY` clauses, as the next two lines say.
- Storage.SQLite.GetPoolIPByIP: does not say which of several rows of an address is found, the latest by creation time, because rows have no creation time here; the theorems hold whichever it is.
- Storage.SQLite.ListEnabledAccounts: does not model the order by type and label, which the sorting of the keys undoes.
- `rate.Limiter` inside, timers and contexts: waiting and sleeping either complete or are cancelled, as the environment says.
- Go's strings are bytes and the model's are characters; on valid UTF-8 the operations used here agree. Integers are unbounded except where text is read as a 64-bit `int`.
- One clock reading per critical section: `Inc` reads the clock twice, and a midnight between the two readings is not modelled.
- Roll.Engine.Roll: does not model the progress callback and the log messages, which change nothing that the loop reads.
- FleetCap.CapUnderConcurrency: assumes a clock that does not go back, working storage, and caps that a restart does not change; failed writes are covered by DailyCount.CacheMinusStore and failed reads, for one attempt at a time, by DailyFaults.CapWithFailedLoads. It bounds the runs active at once, of which there may be any number over time.
- FleetLedger.CounterAndLogAgree: assumes that counter and log can be written; with failed log writes the log falls short by those rows.
- A provider call is one step, so a process that stops while its request is under way is not modelled as a resource that no run has seen.
- Handlers.Handler.CbRunGuard: reads the fields of the state it was handed at one moment, while the source reads them one by one outside the lock; a change of the same chat between two of these reads is not modelled.
- Handlers.Handler.AcceptAttachVM: reads the fields of the state it was handed at one moment, for the same reason.
- Handlers.Handler.DoAttach: has no branch for a stored address whose text does not parse, since addresses are values.
- Seed.Admin.AddAccount: and the other account commands are without interruption; of commands that overlap, Registry.StaleExactly says what the registry shows.
- Handlers.Handler.CmdAttach: does not model the split of the command into words, and takes the address as a value.
- Guides: the texts of the seven guides, and `generalAddHelpHTML`, which writes fixed text and field names only.
- `parseIDList`, loading of the configuration, the access lists, masking of secrets, display names, and the tables of users and forum topics: they would add easy members only. `RemovePoolIP` has no caller.
