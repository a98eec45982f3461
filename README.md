# WeThrift core in Dafny

WeThrift is a Nigerian thrift-and-savings platform reached over USSD and over HTTP. This
project models its core in Dafny and proves properties of it. The core covers:

- the USSD dialog engine, which drives login and nine menus over a per-session store;
- the service layer that keeps its tables:
  - escrow transactions;
  - commission rates and members' running commission totals;
  - loans and repayments;
  - groups and memberships;
  - savings products and contributions;
  - complaints;
  - user profiles, with roles and two-factor settings;
  - notifications;
- the three HTTP routes `api/ussd`, `api/groups` and `api/auth/register`, each a request
  schema plus a status-code mapping.

Each table is a `class` whose fields are `map`s (or a `seq` where order matters) and whose
methods guard and then update a row in place, as the services do. The methods are proved
against specification functions (`Apply`, `Disburse`, `BalanceUpdate`, `Processed`,
`TurnStore`, ...), and lemmas prove what those functions promise.

The rest of the system enters as parameters:

- the database's failures (`Faults`, `lookupFails`, `None` results);
- identifiers and timestamps (`id`, `at`);
- outside lookups, such as the user found by a phone number or a user's groups (`Lookups`,
  and function parameters);
- the number formatter used in USSD messages (`format`);
- the library's e-mail check (`isEmail`).

Money is a `real`, so there is no floating-point rounding.

The USSD engine is modelled twice, because the code as written does not behave as it reads.
`getSession` returns the stored row under its column names (`menu_level`, `is_authenticated`,
`user_id`, `session_id`), while the handler reads the camel-case fields. So on every stored
session the handler sees no menu level and no login: it falls to the main menu and answers the
welcome menu. The write-back is then filtered by an undefined session id and changes no real
session. Only a session the turn itself creates carries the camel-case fields.

- `Ussd.TurnAsWritten` is that behaviour, and `Ussd.WelcomeAlwaysAsWritten` proves every turn
  is answered by the welcome menu or the apology (see "## Findings").
- `Ussd.Turn`, and `Ussd.UssdEngine` which is proved against it, read the row under the field
  names, as the handlers evidently intend. The lemmas about the dialog are stated on this
  reading. Two facts about it are proved rather than assumed:
  - `nextMenu` is sent to the gateway but never written back. `menuLevel` changes only when a
    login succeeds, so a session the engine creates stays at the welcome menu forever
    (`Ussd.WelcomeForever`, `Ussd.MenuLevelOnlyBecomesMain`).
  - Once a PIN is stored after a failed login, every later turn at the login menu answers
    "Invalid input" (`Ussd.LockedOutAfterFailedLogin`).

Modules: `Wrappers` (Option, Result), `Tally` (the `filter(...).length` counts), `Text` (white space, trimming, the phone and PIN
patterns, UTF-16 length, number printing), `Schema` (JSON bodies, the schema primitives the
routes use, replies), `Commissions`, `Escrow`, `Loans`, `Savings`, `Groups`, `Complaints`,
`Notifications`, `Auth`, `Ussd`, `UssdRoute`, `GroupsRoute`, `RegisterRoute`.

## Model

| member | source | states |
|---|---|---|
| Text.TrimStart | WeThrift/src/services/ussd.ts:61 | the result is a suffix of the input with only white space removed in front and no white space left at its head |
| Text.Trim | WeThrift/src/services/ussd.ts:61 | the result is a slice s[a..b] of the input, everything before a and from b on is white space, and the slice neither starts nor ends with white space |
| Text.PrefixOfSuffix | WeThrift/src/services/ussd.ts:61 | the text left by trimming both ends is a slice of the input followed only by white space |
| Text.TrimKeepsUnpadded | WeThrift/src/services/ussd.ts:61 | a string that neither starts nor ends with white space is its own trim |
| Text.RemoveSpaces | WeThrift/src/services/ussd.ts:747 | `replace(/\s+/g, '')` leaves no white space, never lengthens the input, drops a single white-space character and keeps any other |
| Text.RemoveSpacesConcat | WeThrift/src/services/ussd.ts:747 | removal works on each part of a split string, so every non-space character is kept, in order |
| Text.RemoveSpacesKeepsSpaceFree | WeThrift/src/services/ussd.ts:747 | removing white space from a string without any changes nothing |
| Text.PhoneShape | WeThrift/src/services/ussd.ts:746 | a number the Nigerian pattern accepts has 10, 11, 13 or 14 characters and ends in a ten-character mobile core |
| Text.PhoneDigits | WeThrift/src/services/ussd.ts:746 | a number the pattern accepts is all digits after its first character, which is a digit or '+' |
| Text.Utf16Length | WeThrift/src/app/api/groups/route.ts:7-8 | the length `min(n)` checks lies between the character count and twice it |
| Text.NatToString | WeThrift/src/services/ussd.ts:431 | the printed `index + 1` is a non-empty digit string, one character long exactly for numbers below 10 |
| Schema.Property | WeThrift/src/app/api/ussd/route.ts:5-9 | a property is present exactly when its key is in the body, with the body's value |
| Schema.StringAt | WeThrift/src/app/api/auth/register/route.ts:5-17 | `z.string()` keeps a string value without issues and rejects anything else with one type issue at the field's path |
| Schema.OptionalStringAt | WeThrift/src/app/api/auth/register/route.ts:17 | `.optional()`: a missing value is accepted as absent; a present value must be a string |
| Schema.Defaulted | WeThrift/src/app/api/auth/register/route.ts:16 | `.default(d)` supplies a value when none is given and keeps a given one |
| Schema.MinLength | WeThrift/src/app/api/auth/register/route.ts:7-15 | `min(n)` keeps the value and adds exactly one issue with the route's message iff a string value is shorter than n |
| Schema.Matching | WeThrift/src/app/api/auth/register/route.ts:11-12 | `regex(...)` keeps the value and adds exactly one issue with the route's message iff a string value fails the pattern |
| Schema.NumberAt | WeThrift/src/app/api/groups/route.ts:10 | `z.number()` keeps a number value and rejects anything else with one type issue |
| Schema.AtLeast | WeThrift/src/app/api/groups/route.ts:10 | `min(lo)` adds one issue iff a number value is below lo |
| Schema.AtMost | WeThrift/src/app/api/groups/route.ts:10 | `max(hi)` adds one issue iff a number value is above hi |
| Schema.EnumAt | WeThrift/src/app/api/groups/route.ts:9 | `z.enum` accepts exactly the listed strings and otherwise reports one issue at the field's path |
| Schema.BooleanAt | WeThrift/src/app/api/groups/route.ts:11-15 | `z.boolean()` keeps a boolean value and rejects anything else with one type issue |
| Schema.MustBeTrue | WeThrift/src/app/api/auth/register/route.ts:18 | the terms refine adds its one issue exactly when the value is `false` |
| Schema.Invalid | WeThrift/src/app/api/groups/route.ts:99-104 | a schema failure is a 400 reply carrying the issues |
| Schema.Internal | WeThrift/src/app/api/groups/route.ts:106-110 | any other failure is a 500 reply without details |
| Commissions.ActiveRatesFor | WeThrift/src/services/commissions.ts:32-55 | the rate query keeps exactly the active rates of the service type that are general or belong to the given group (any group when none is given); a one-row table is kept iff its row is listed |
| Commissions.ActiveRatesForConcat | WeThrift/src/services/commissions.ts:32-55 | the query of a split table is the queries of its parts in order, so the listed rows keep their table order |
| Commissions.ListedAround | WeThrift/src/services/commissions.ts:32-55 | a listed table row sits in the query's result after exactly the listed rows before it |
| Commissions.TableGroupRateWins | WeThrift/src/services/commissions.ts:32-147 | against the table itself: the first listed row that matches the caller's group and tier is charged, and the result carries the group |
| Commissions.TableGeneralFallback | WeThrift/src/services/commissions.ts:32-147 | against the table itself: with no listed group match, the first listed general row in tier is charged |
| Commissions.FirstGroupMatch | WeThrift/src/services/commissions.ts:126-130 | the first `find` returns the first in-tier rate of the caller's group, or none iff no rate matches |
| Commissions.FirstGeneralMatch | WeThrift/src/services/commissions.ts:131-134 | the second `find` returns the first in-tier general rate, or none iff no rate matches |
| Commissions.CalculateCommission | WeThrift/src/services/commissions.ts:109-154 | a result has amount × rate / 100 as its commission and echoes the service type, amount and user |
| Commissions.CommissionExistsIff | WeThrift/src/services/commissions.ts:119-138 | a commission is computed iff some listed rate is in tier and is the group's own or general |
| Commissions.GroupSpecificWins | WeThrift/src/services/commissions.ts:126-147 | the first matching group rate is charged, even when general rates also match, and the result carries its group |
| Commissions.GeneralFallback | WeThrift/src/services/commissions.ts:131-147 | with no matching group rate, the first matching general rate is charged and the caller's group is reported |
| Commissions.ChargedRateIsListed | WeThrift/src/services/commissions.ts:109-154 | every rate charged is an active listed rate of that service whose tier contains the amount |
| Commissions.TablesDistinct | WeThrift/src/services/commissions.ts:160-161 | contributions, loans and escrow transactions write their commission to three different tables |
| Commissions.Credited | WeThrift/src/services/commissions.ts:303-320 | crediting adds the amount to the user's running total (a missing total counting as 0) and leaves other rows alone |
| Commissions.CreditAddsAmount | WeThrift/src/services/commissions.ts:303-320 | crediting a user with one row raises the sum of all totals by exactly the amount |
| Commissions.CreditNoneChanges | WeThrift/src/services/commissions.ts:311 | crediting a user without a row changes nothing |
| Commissions.RateTable.CreateCommissionRate | WeThrift/src/services/commissions.ts:7-30 | a new rate is stored active with its creator, and a taken id is refused without change |
| Commissions.RateTable.DeleteCommissionRate | WeThrift/src/services/commissions.ts:94-106 | deletion only deactivates the rate with that id |
| Commissions.Deactivated | WeThrift/src/services/commissions.ts:96-99 | the soft delete keeps every row and switches off exactly the named one |
| Commissions.DeletedRateNeverListed | WeThrift/src/services/commissions.ts:94-106 | a deleted rate is never returned by the rate query again |
| Commissions.RateTable.SetDefaultCommissionRates | WeThrift/src/services/commissions.ts:350-378 | as written: no rate is deactivated (the `eq.null` filter matches no row); the new rates are put in front, active and created by "system", iff their ids are fresh, and otherwise the table is unchanged |
| Commissions.GeneralDeactivated | WeThrift/src/services/commissions.ts:354-358 | the intended deactivation: exactly the general rates are switched off, every other row kept |
| Commissions.IntendedDefaults | WeThrift/src/services/commissions.ts:354-366 | the intended table: the new defaults in front, then every old row under its own id |
| Commissions.NewRates | WeThrift/src/services/commissions.ts:360-366 | one active row per default, in order |
| Commissions.DefaultsReplaceGeneralRates | WeThrift/src/services/commissions.ts:354-366 | after the intended reset, every active general rate is one of the new defaults |
| Commissions.DefaultsKeepGroupRates | WeThrift/src/services/commissions.ts:354-366 | the intended reset keeps every group-specific rate as it was |
| Commissions.GeneralRatesSurviveDefaults | WeThrift/src/services/commissions.ts:350-378 | as written, the rates offered after the reset are the new ones followed by every rate offered before it |
| Commissions.OldDefaultKeptAsWritten | WeThrift/src/services/commissions.ts:355-358 | an old active general rate whose id is not reused stays active and general as written, and is absent from the intended table |
| Commissions.MemberLedger.UpdateUserCommissionEarned | WeThrift/src/services/commissions.ts:303-320 | the user's running total grows by the amount when their row is found, and nothing changes otherwise |
| Commissions.MemberLedger.ApplyCommission | WeThrift/src/services/commissions.ts:157-184 | the commission is written to the table of the transaction type, and the member is credited only when the user id is non-empty |
| Escrow.NewTransaction | WeThrift/src/services/escrow.ts:9-20 | a new transaction is pending, with the caller as buyer and the draft's terms |
| Escrow.ApplyFollowsEdge | WeThrift/src/services/escrow.ts:120-363 | each successful operation follows an edge pending→funded→released, pending/funded→disputed or cancelled, and reaches the status it names |
| Escrow.ApplyGuards | WeThrift/src/services/escrow.ts:120-363 | funding succeeds iff pending, release iff funded, dispute and cancel iff pending or funded |
| Escrow.TerminalStatesAreFinal | WeThrift/src/services/escrow.ts:120-363 | released, disputed and cancelled transactions refuse all four operations |
| Escrow.ApplyKeepsTerms | WeThrift/src/services/escrow.ts:120-363 | no operation changes the parties, amount, group, reference or commission |
| Escrow.RecordedInvariant | WeThrift/src/services/escrow.ts:9-259 | funded and released rows carry a payment reference, released ones a release time and disputed ones a reason; new rows satisfy this and every operation keeps it |
| Escrow.RunIsBounded | WeThrift/src/services/escrow.ts:120-363 | any sequence of operations succeeds at most twice on one transaction and keeps the recorded fields |
| Escrow.ValidateEscrowTransaction | WeThrift/src/services/escrow.ts:461-497 | the result is valid exactly when it carries no error |
| Escrow.ValidIffAcceptable | WeThrift/src/services/escrow.ts:461-497 | validation passes iff buyer differs from seller, the amount is positive, two active users and two group members are found |
| Escrow.FirstFailureReported | WeThrift/src/services/escrow.ts:464-484 | the message of the first failing check, in the source's order, is the one returned |
| Tally.CountWhere | WeThrift/src/services/escrow.ts:413-417 | a `filter(p).length` count of the statistics queries (escrow, loans, complaints) never exceeds the number of rows |
| Escrow.GetEscrowStats | WeThrift/src/services/escrow.ts:410-418 | the total is the number of rows |
| Escrow.StatusCountsPartition | WeThrift/src/services/escrow.ts:410-418 | the five status counts add up to the total |
| Escrow.EscrowTable.CreateEscrowTransaction | WeThrift/src/services/escrow.ts:9-44 | the new pending row is stored under its id, and a taken id is refused without change |
| Escrow.EscrowTable.Update | WeThrift/src/services/escrow.ts:120-363 | a missing id is "Transaction not found"; otherwise the status guard decides, and only a success writes the row |
| Escrow.EscrowTable.FundEscrowTransaction | WeThrift/src/services/escrow.ts:120-175 | funding is guarded as above; when a rate applies, the commission on the amount is written to the row and the buyer is credited |
| Escrow.EscrowTable.ReleaseEscrowFunds | WeThrift/src/services/escrow.ts:178-231 | release is the guarded operation and changes only that row |
| Escrow.EscrowTable.DisputeEscrowTransaction | WeThrift/src/services/escrow.ts:233-309 | dispute is the guarded operation, storing the reason |
| Escrow.EscrowTable.CancelEscrowTransaction | WeThrift/src/services/escrow.ts:311-363 | cancel is the guarded operation |
| Loans.NewLoan | WeThrift/src/services/loans.ts:9-21 | a new application is pending, with nothing disbursed and the whole amount outstanding |
| Loans.NewRepayment | WeThrift/src/services/loans.ts:249-260 | a new repayment is pending and unpaid |
| Loans.Disburse | WeThrift/src/services/loans.ts:198-217 | disbursement succeeds iff the loan is approved, and sets the disbursed status, amount and time |
| Loans.NewBalance | WeThrift/src/services/loans.ts:359-362 | the new balance is never negative, is zero iff the repayment covers the balance, and never exceeds the old one |
| Loans.BalanceUpdate | WeThrift/src/services/loans.ts:359-367 | the loan is completed iff its balance is 0 and active otherwise, with a completion time iff completed |
| Loans.RepaymentUpdate | WeThrift/src/services/loans.ts:279-288 | the status is set, and `paid_at` is written only on completion |
| Loans.BalanceAfterRepayments | WeThrift/src/services/loans.ts:350-375 | applying repayments one by one gives the balance of their sum at once |
| Loans.SumNonNegative | WeThrift/src/services/loans.ts:350-375 | non-negative repayments sum to a non-negative amount |
| Loans.GetLoanStats | WeThrift/src/services/loans.ts:430-440 | the total is the number of rows |
| Loans.StatusCountsCover | WeThrift/src/services/loans.ts:430-440 | the reported status counts, plus rejected and disbursed loans, add up to the total |
| Loans.OutstandingNonNegative | WeThrift/src/services/loans.ts:430-440 | with non-negative balances, null counting as 0, the outstanding total is non-negative |
| Loans.LoanBook.CreateLoanApplication | WeThrift/src/services/loans.ts:9-39 | the new application is stored under its id, and a taken id is refused without change |
| Loans.LoanBook.ApproveLoan | WeThrift/src/services/loans.ts:112-124 | approval sets the status, approver and time whatever the prior status |
| Loans.LoanBook.RejectLoan | WeThrift/src/services/loans.ts:152-161 | rejection sets the status whatever the prior status |
| Loans.LoanBook.DisburseLoan | WeThrift/src/services/loans.ts:190-231 | a missing loan is "Loan not found", a non-approved one changes nothing, and a disbursement writes the commission and credits the borrower when a rate applies |
| Loans.LoanBook.MakeLoanRepayment | WeThrift/src/services/loans.ts:249-260 | the pending repayment is stored under its id |
| Loans.LoanBook.UpdateLoanBalance | WeThrift/src/services/loans.ts:350-375 | an existing loan takes the balance update; a missing one is left alone |
| Loans.LoanBook.UpdateRepaymentStatus | WeThrift/src/services/loans.ts:277-300 | the repayment takes the status, and only a completion reduces its loan's balance by the principal |
| Savings.NewProduct | WeThrift/src/services/savings.ts:12-18 | a new product starts at 0 and active, with its creator |
| Savings.NewContribution | WeThrift/src/services/savings.ts:111-117 | a new contribution is pending, unpaid and without commission |
| Savings.StatusUpdate | WeThrift/src/services/savings.ts:151-158 | `paid_at` is written only when the new status is completed |
| Savings.CompletedTotalAppend | WeThrift/src/services/savings.ts:272 | the completed total of two lists is the sum of their totals |
| Savings.UnfinishedContributionsIgnored | WeThrift/src/services/savings.ts:266-272 | a contribution that is not completed does not change the total |
| Savings.CompletedTotalNonNegative | WeThrift/src/services/savings.ts:272 | non-negative amounts give a non-negative total |
| Savings.CalculateSavingsProgress | WeThrift/src/services/savings.ts:254-290 | an unknown product gives all zeros; otherwise current = completed total, remaining = target − current, completed iff current ≥ target |
| Savings.PercentageBounds | WeThrift/src/services/savings.ts:273-280 | for a positive target the percentage lies in [0, 100] and is 100 exactly when the product is completed |
| Savings.RatioAgainstOne | WeThrift/src/services/savings.ts:273 | for a positive target the ratio reaches 1 exactly when the total reaches the target |
| Savings.GetSavingsStats | WeThrift/src/services/savings.ts:385-405 | the counts and sums default to 0 when a query returns no data |
| Savings.CompletionRateCases | WeThrift/src/services/savings.ts:404 | the rate is 0 whenever the total target is not positive, and otherwise reaches 100 exactly when contributions cover the target |
| Savings.SavingsBook.GroupSavingsProducts | WeThrift/src/services/savings.ts:54-68 | a group's listing holds exactly its active products |
| Savings.SavingsBook.CreateSavingsProduct | WeThrift/src/services/savings.ts:8-31 | the new product is stored under its id |
| Savings.SavingsBook.DeleteSavingsProduct | WeThrift/src/services/savings.ts:91-103 | deletion only deactivates, and the product drops out of every group listing |
| Savings.SavingsBook.MakeContribution | WeThrift/src/services/savings.ts:106-146 | the pending row is stored and returned; its commission is then overwritten when a rate applies |
| Savings.SavingsBook.UpdateSavingsProductAmount | WeThrift/src/services/savings.ts:336-356 | the product's amount grows by the given amount, and a missing product is left alone |
| Savings.SavingsBook.UpdateContributionStatus | WeThrift/src/services/savings.ts:149-178 | the contribution takes the status update; completing adds its amount to the product's current amount and stamps `updated_at`, whatever the previous status, so completing twice adds twice; other statuses leave products alone |
| Groups.NewGroup | WeThrift/src/services/groups.ts:13-21 | a new group has one member and is active, with the creator as admin |
| Groups.ActiveCount | WeThrift/src/services/groups.ts:288-292 | the count of active memberships never exceeds the number of rows |
| Groups.RemovedRows | WeThrift/src/services/groups.ts:155-159 | removal keeps every row and marks that user's membership of that group removed |
| Groups.WithoutGroup | WeThrift/src/services/groups.ts:107-111 | deletion keeps exactly the memberships of other groups |
| Groups.RemovalCounts | WeThrift/src/services/groups.ts:153-164 | removing a member leaves other groups' counts unchanged and never raises this group's count |
| Groups.RemovedUserInactive | WeThrift/src/services/groups.ts:155-159 | after removal, the user's memberships of the group are all removed |
| Groups.DeletionCounts | WeThrift/src/services/groups.ts:105-117 | deleting a group leaves it no active members and leaves others' counts unchanged |
| Groups.UserGroupsOf | WeThrift/src/services/groups.ts:65-77 | a user's groups are exactly the existing groups of their active memberships |
| Groups.GroupDirectory.UpdateMemberCount | WeThrift/src/services/groups.ts:286-302 | the group's `current_members` becomes the number of its active memberships |
| Groups.GroupDirectory.AddMember | WeThrift/src/services/groups.ts:127-144 | an active membership is appended and only that group's count is recomputed, so consistency is restored |
| Groups.GroupDirectory.RemoveMember | WeThrift/src/services/groups.ts:153-164 | a soft delete followed by a recount, keeping every count consistent |
| Groups.GroupDirectory.CreateGroup | WeThrift/src/services/groups.ts:7-32 | the group is stored and its creator added as an active admin, keeping counts consistent; a taken id changes nothing |
| Groups.GroupDirectory.DeleteGroup | WeThrift/src/services/groups.ts:105-117 | memberships go first, then the group row |
| Groups.GroupDirectory.JoinGroupByInviteCode | WeThrift/src/services/groups.ts:210-230 | a code matching no active group or several fails as invalid. When it matches exactly one, the join succeeds exactly when that group has room and fails with "Group is full" otherwise. On success the user joins as an active member, and only the joined group's count changes, to its recount |
| Complaints.NewComplaint | WeThrift/src/services/complaints.ts:12-18 | a new complaint is open, by the caller, with priority medium unless one is given |
| Complaints.Patched | WeThrift/src/services/complaints.ts:143-146 | supplied fields replace stored ones and others are kept |
| Complaints.WithComment | WeThrift/src/services/complaints.ts:284-296 | a comment keeps the old description as a prefix and appends "\n\nComment by <user>: <comment>" |
| Complaints.CommentsAccumulate | WeThrift/src/services/complaints.ts:274-305 | successive comments append their texts in order after the original description |
| Complaints.UpdateNotice | WeThrift/src/services/complaints.ts:396-419 | the notice goes to the complainant, titled "Complaint Update", with type success iff the status is resolved |
| Complaints.NotifiedStatusesHavePhrases | WeThrift/src/services/complaints.ts:396-424 | each status `updateComplaint` notifies about has its own phrase, never the fallback |
| Complaints.PhrasesDistinguishStatuses | WeThrift/src/services/complaints.ts:405-410 | different notified statuses get different phrases |
| Complaints.Distinct | WeThrift/src/services/complaints.ts:388 | `new Set` keeps each value once and exactly the values present |
| Complaints.DistinctOfDistinct | WeThrift/src/services/complaints.ts:388 | a list without duplicates is unchanged by the dedupe |
| Complaints.Present | WeThrift/src/services/complaints.ts:382-385 | the non-null categories are exactly those present |
| Complaints.GetComplaintCategories | WeThrift/src/services/complaints.ts:379-393 | categories are the distinct non-null category values |
| Complaints.GetComplaintStats | WeThrift/src/services/complaints.ts:333-344 | the total is the number of rows |
| Complaints.StatusCountsPartition | WeThrift/src/services/complaints.ts:334-338 | the four status counts add up to the total |
| Complaints.OtherCountsBounded | WeThrift/src/services/complaints.ts:339-343 | the priority counts and the type counts each stay within the total |
| Complaints.ComplaintDesk.CreateComplaint | WeThrift/src/services/complaints.ts:8-35 | the new open complaint is stored under its id |
| Complaints.ComplaintDesk.UpdateComplaint | WeThrift/src/services/complaints.ts:139-162 | the patch is applied, and a notice is produced iff a status other than open is supplied |
| Complaints.ComplaintDesk.AssignComplaint | WeThrift/src/services/complaints.ts:165-194 | sets in progress and the assignee, without looking at the previous status |
| Complaints.ComplaintDesk.ResolveComplaint | WeThrift/src/services/complaints.ts:196-234 | sets resolved, the resolution and the resolution time |
| Complaints.ComplaintDesk.CloseComplaint | WeThrift/src/services/complaints.ts:236-272 | sets closed |
| Complaints.ComplaintDesk.AddComplaintComment | WeThrift/src/services/complaints.ts:274-305 | a missing complaint is an error; otherwise the comment is appended to the description |
| Complaints.ComplaintDesk.EscalateComplaint | WeThrift/src/services/complaints.ts:454-479 | sets urgent and in progress, and appends an "ESCALATED: <reason>" comment by the escalator |
| Notifications.Stored | WeThrift/src/services/notifications.ts:18-27 | each request is stored pending, with metadata defaulting to the empty object |
| Notifications.Processed | WeThrift/src/services/notifications.ts:172-299 | an unknown channel changes nothing; email and SMS fail without an address; otherwise in-app is delivered and others sent, with a send time |
| Notifications.DeliveryOutcome | WeThrift/src/services/notifications.ts:172-299 | the final status of a fresh notification for each channel, both directions |
| Notifications.MaintenanceRequests | WeThrift/src/services/notifications.ts:436-443 | one in-app warning per active user, in order |
| Notifications.MaintenanceDelivered | WeThrift/src/services/notifications.ts:436-445 | each maintenance notice is delivered with the fixed title, the scheduled time and its metadata |
| Notifications.MarkedRead | WeThrift/src/services/notifications.ts:121-130 | only the user's delivered rows take the read mark |
| Notifications.MarkAllIdempotent | WeThrift/src/services/notifications.ts:121-130 | marking all read twice is marking once |
| Notifications.Page | WeThrift/src/services/notifications.ts:85-92 | a page holds rows offset..offset+limit−1, and none past the end |
| Notifications.PagesConcatenate | WeThrift/src/services/notifications.ts:91-92 | two consecutive pages together are one page of the combined size |
| Notifications.NewestFirst | WeThrift/src/services/notifications.ts:89-91 | exactly the user's notifications are listed, and nobody else's |
| Notifications.NewestFirstSingle | WeThrift/src/services/notifications.ts:89-91 | one inserted row is listed exactly when it is the user's |
| Notifications.NewestFirstStep | WeThrift/src/services/notifications.ts:89-91 | the listing starts with the last inserted row when it is the user's, followed by the listing of the earlier rows |
| Notifications.NewestFirstConcat | WeThrift/src/services/notifications.ts:91 | the listing of rows inserted as `a` then `b` is the listing of `b` followed by that of `a` (descending `created_at`) |
| Notifications.ListedSomewhere | WeThrift/src/services/notifications.ts:89-91 | each of the user's rows has a position in the listing |
| Notifications.ListedAround | WeThrift/src/services/notifications.ts:91 | a row of the user is listed after every later row and before every earlier one |
| Notifications.NewerListedEarlier | WeThrift/src/services/notifications.ts:91 | of two rows of the user, the later-inserted one is listed at a smaller position |
| Notifications.NewestOnTop | WeThrift/src/services/notifications.ts:85-92 | after a row is inserted, the first non-empty page of its user's notifications starts with it |
| Notifications.DistinctAppend | WeThrift/src/services/notifications.ts:55-56 | adding a fresh id keeps the ids distinct |
| Notifications.NotificationCenter.ProcessNotification | WeThrift/src/services/notifications.ts:172-198 | the stored row takes its processed status |
| Notifications.NotificationCenter.SendNotification | WeThrift/src/services/notifications.ts:7-43 | a fresh id stores the row and processes it; a taken one fails without change |
| Notifications.NotificationCenter.Insert | WeThrift/src/services/notifications.ts:29-31 | a row is stored under its unused id and appended to the order, keeping every id listed once |
| Notifications.InsertKeepsConsistent | WeThrift/src/services/notifications.ts:29-31 | inserting under a fresh id keeps the order and the rows in step |
| Notifications.NotificationCenter.InsertPending | WeThrift/src/services/notifications.ts:55-68 | all rows are inserted pending, in order, before any is processed |
| Notifications.NotificationCenter.ProcessPending | WeThrift/src/services/notifications.ts:72-75 | every inserted row ends processed, the order is unchanged, and rows outside the batch are kept |
| Notifications.ProcessStep | WeThrift/src/services/notifications.ts:72-75 | processing one row of a batch with distinct ids touches no other row of it |
| Notifications.InsertStep | WeThrift/src/services/notifications.ts:65-67 | storing one row of a batch with distinct ids leaves the later rows unstored and earlier rows kept |
| Notifications.NotificationCenter.SendBulkNotifications | WeThrift/src/services/notifications.ts:46-82 | with fresh distinct ids, every row is stored and processed in list order; otherwise nothing changes |
| Notifications.NotificationCenter.UserNotifications | WeThrift/src/services/notifications.ts:85-99 | a page holds at most `limit` (default 50) of the user's own notifications |
| Notifications.NotificationCenter.MarkNotificationAsRead | WeThrift/src/services/notifications.ts:102-118 | the row becomes delivered with metadata replaced by the read mark |
| Notifications.NotificationCenter.MarkAllNotificationsAsRead | WeThrift/src/services/notifications.ts:121-137 | every row takes the mark-all-read update |
| Notifications.NotificationCenter.SendSystemMaintenanceNotification | WeThrift/src/services/notifications.ts:424-449 | no active users succeeds with no change; otherwise the maintenance notices go out as a bulk send |
| Auth.NewProfile | WeThrift/src/lib/auth.ts:97-123 | a new profile has role user, is active and unverified, with KYC pending |
| Auth.RolesNest | WeThrift/src/lib/auth.ts:250-258 | each role holds the permissions of the role below, and super_admin holds all |
| Auth.RoleSets | WeThrift/src/lib/auth.ts:250-253 | the exact permission set of user, group_admin and admin |
| Auth.UnknownRoleDenied | WeThrift/src/lib/auth.ts:257 | an unknown role holds no permission |
| Auth.Toggled | WeThrift/src/lib/auth.ts:163-172 | the flag is always set; the secret is stored when enabling with one, cleared when disabling and kept otherwise; nothing else changes |
| Auth.ToggleThenVerify | WeThrift/src/lib/auth.ts:161-208 | after disabling, verification fails; after enabling with a secret it passes |
| Auth.UserTable.CreateUserProfile | WeThrift/src/lib/auth.ts:97-123 | the default profile is stored under the user's id |
| Auth.UserTable.HasPermission | WeThrift/src/lib/auth.ts:239-262 | true only for a found user with a known role; super_admin always; user exactly its three permissions |
| Auth.UserTable.Toggle2FA | WeThrift/src/lib/auth.ts:161-186 | a missing user is an error; otherwise the row takes the toggle update |
| Auth.UserTable.Verify2FA | WeThrift/src/lib/auth.ts:189-208 | true iff the lookup succeeds and a non-empty secret is stored; the token is not looked at |
| Ussd.Key | WeThrift/src/services/ussd.ts:71 | a menu compares only one-character inputs with its codes |
| Ussd.MainMenu | WeThrift/src/services/ussd.ts:60-103 | unauthenticated: always the welcome menu; authenticated: '0' alone ends the dialog, unknown keys get "Invalid option" |
| Ussd.DashboardMenu | WeThrift/src/services/ussd.ts:171-221 | never ends the dialog; keys outside 1-6 and 0 get the dashboard's "Invalid option" |
| Ussd.GroupsMenu | WeThrift/src/services/ussd.ts:223-255 | never ends the dialog; unknown keys get the groups menu again |
| Ussd.SavingsMenu | WeThrift/src/services/ussd.ts:257-289 | never ends the dialog; unknown keys get the savings menu again |
| Ussd.LoansMenu | WeThrift/src/services/ussd.ts:291-323 | never ends the dialog; unknown keys get the loans menu again |
| Ussd.ContributionsMenu | WeThrift/src/services/ussd.ts:325-351 | never ends the dialog; unknown keys get the contributions menu again |
| Ussd.EscrowMenu | WeThrift/src/services/ussd.ts:353-379 | never ends the dialog; unknown keys get the escrow menu again |
| Ussd.ComplaintsMenu | WeThrift/src/services/ussd.ts:381-406 | never ends the dialog; unknown keys get the complaints menu again |
| Ussd.Route | WeThrift/src/services/ussd.ts:28-49 | the dialog ends iff '0' is pressed at an authenticated main menu (an unknown level counting as main); unmatched keys get "Invalid option" with the same menu |
| Ussd.ListingSnoc | WeThrift/src/services/ussd.ts:430-432 | each further item appends its line with the next number |
| Ussd.ListingConcat | WeThrift/src/services/ussd.ts:430-432 | the listing of two lists is the first's listing followed by the second's, numbered on |
| Ussd.ListingSplit | WeThrift/src/services/ussd.ts:430-432 | the listing holds item i's line, numbered i + 1, between the lines before and after it |
| Ussd.ListingStartsAtOne | WeThrift/src/services/ussd.ts:431 | numbering starts at "1. " |
| Ussd.EntryTexts | WeThrift/src/services/ussd.ts:492-613 | one line per entry |
| Ussd.ComplaintTexts | WeThrift/src/services/ussd.ts:637 | one line per complaint |
| Ussd.CompletedSumConcat | WeThrift/src/services/ussd.ts:470-475 | the savings total of two lists is the sum of their totals |
| Ussd.CompletedSumIgnoresOthers | WeThrift/src/services/ussd.ts:472 | contributions that are not completed add nothing |
| Ussd.GroupsView | WeThrift/src/services/ussd.ts:409-447 | without a user id: "Please login first."; otherwise the groups menu follows |
| Ussd.SavingsView | WeThrift/src/services/ussd.ts:450-489 | without a user id: "Please login first."; otherwise the savings menu follows |
| Ussd.LoansView | WeThrift/src/services/ussd.ts:492-531 | without a user id: "Please login first."; otherwise the loans menu follows |
| Ussd.ContributionsView | WeThrift/src/services/ussd.ts:533-572 | without a user id: "Please login first."; otherwise the contributions menu follows |
| Ussd.EscrowView | WeThrift/src/services/ussd.ts:574-613 | without a user id: "Please login first."; otherwise the escrow menu follows |
| Ussd.ComplaintsView | WeThrift/src/services/ussd.ts:615-653 | without a user id: "Please login first."; otherwise the complaints menu follows |
| Ussd.Perform | WeThrift/src/services/ussd.ts:409-653 | no list view ends the dialog, and each asks for login without a user id |
| Ussd.AtMostFiveShown | WeThrift/src/services/ussd.ts:533-653 | contributions, escrow and complaints views depend only on the first five items |
| Ussd.AllGroupsListed | WeThrift/src/services/ussd.ts:429-433 | every group appears, numbered from 1, between the header and "0. Back" |
| Ussd.Fresh | WeThrift/src/services/ussd.ts:671-679 | a new session is at main, unauthenticated, with empty input and context |
| Ussd.Written | WeThrift/src/services/ussd.ts:700-713 | the stored row takes every field written; an absent user or group id leaves the stored one |
| Ussd.PutTwice | WeThrift/src/services/ussd.ts:700-719 | writing a session twice is writing its second version |
| Ussd.PhoneStage | WeThrift/src/services/ussd.ts:108-125 | the number is stored iff valid, then the PIN prompt follows; otherwise the session is unchanged and the number is asked again |
| Ussd.PinStage | WeThrift/src/services/ussd.ts:127-162 | an invalid PIN changes nothing; a valid one is stored, and a found user logs in at main with "Welcome back!" |
| Ussd.AuthStep | WeThrift/src/services/ussd.ts:105-169 | login never ends the dialog; authenticating sets the user id and moves to main; with phone and PIN both stored it answers "Invalid input" |
| Ussd.TurnKeepsWellFormed | WeThrift/src/services/ussd.ts:10-57 | every turn keeps sessions under their own ids, and authenticated sessions have a user id |
| Ussd.NewDialogWelcomes | WeThrift/src/services/ussd.ts:10-69 | a session not found is a fresh one and is answered with the welcome menu |
| Ussd.CrashApologises | WeThrift/src/services/ussd.ts:50-56 | an escaping exception yields exactly the apology, ending the dialog |
| Ussd.PutRow | WeThrift/src/services/ussd.ts:700-719 | the written row is the written session, or unchanged when the update fails |
| Ussd.MenuLevelOnlyBecomesMain | WeThrift/src/services/ussd.ts:28-140 | a stored level changes only to main, and only after a login at auth (or a failed read) |
| Ussd.DashboardPicked | WeThrift/src/services/ussd.ts:60-103 | at a stored, logged-in main menu, '1' writes the input back, keeps the level at main and answers the dashboard menu |
| Ussd.NextMenuNotFollowed | WeThrift/src/services/ussd.ts:71-76 | pressing '1' at the main menu twice gives the same answer twice: the dashboard is announced, never entered |
| Ussd.LockedOutAfterFailedLogin | WeThrift/src/services/ussd.ts:127-167 | after a failed login the PIN stays stored and the next turn answers "Invalid input" |
| Ussd.WelcomeForever | WeThrift/src/services/ussd.ts:10-57 | sessions the engine creates stay at an unauthenticated main menu and only ever get the welcome menu or the apology |
| Ussd.UnimportedViewsAsWritten | WeThrift/src/services/ussd.ts:574-653 | as written, a logged-in user's escrow and complaints views answer their error texts, which no returned list would give |
| Ussd.WelcomeAlwaysAsWritten | WeThrift/src/services/ussd.ts:10-57 | as written, every turn on every store answers the welcome menu or the apology |
| Ussd.StoredRowsFrozenAsWritten | WeThrift/src/services/ussd.ts:700-719 | as written, a turn on a stored session changes no row except one stored under the id "undefined" |
| Ussd.StoredLoginIgnoredAsWritten | WeThrift/src/services/ussd.ts:656-669 | a stored logged-in session at main pressing '1' is announced the dashboard under the field-name reading and shown the welcome menu as written |
| Ussd.UssdEngine.GetSession | WeThrift/src/services/ussd.ts:656-669 | a session is found iff the read succeeds and it is stored |
| Ussd.UssdEngine.CreateSession | WeThrift/src/services/ussd.ts:671-698 | the fresh session is returned even when the insert fails; it is stored only when the insert succeeds |
| Ussd.UssdEngine.UpdateSession | WeThrift/src/services/ussd.ts:700-719 | the session is written back and returned unchanged |
| Ussd.UssdEngine.ProcessAuthMenu | WeThrift/src/services/ussd.ts:105-169 | the login step's answer, writing the session only when it changed |
| Ussd.UssdEngine.CollectPhone | WeThrift/src/services/ussd.ts:108-125 | the phone step's answer and store update |
| Ussd.UssdEngine.CollectPin | WeThrift/src/services/ussd.ts:127-167 | the PIN step's answer and store update |
| Ussd.UssdEngine.NumberLines | WeThrift/src/services/ussd.ts:430-432 | the `forEach` loop builds exactly the numbered listing |
| Ussd.UssdEngine.TotalSavings | WeThrift/src/services/ussd.ts:470-475 | the loop sums exactly the completed contributions |
| Ussd.UssdEngine.ShowUserGroups | WeThrift/src/services/ussd.ts:409-447 | the groups view |
| Ussd.UssdEngine.ShowUserSavings | WeThrift/src/services/ussd.ts:450-489 | the savings view |
| Ussd.UssdEngine.ShowUserLoans | WeThrift/src/services/ussd.ts:492-531 | the loans view |
| Ussd.UssdEngine.ShowUserContributions | WeThrift/src/services/ussd.ts:533-572 | the contributions view, first five only |
| Ussd.UssdEngine.ShowUserEscrowTransactions | WeThrift/src/services/ussd.ts:574-613 | the escrow view, first five only |
| Ussd.UssdEngine.ShowUserComplaints | WeThrift/src/services/ussd.ts:615-653 | the complaints view, first five only |
| Ussd.UssdEngine.Dispatch | WeThrift/src/services/ussd.ts:28-49 | the chosen handler's answer |
| Ussd.UssdEngine.ProcessUssdRequest | WeThrift/src/services/ussd.ts:10-57 | the store becomes the turn's store and the answer is the turn's answer |
| UssdRoute.ParseRequest | WeThrift/src/app/api/ussd/route.ts:5-9 | a body is accepted iff session id and input are non-empty and the phone number, as sent, matches the Nigerian pattern |
| UssdRoute.Answer | WeThrift/src/app/api/ussd/route.ts:11-35 | 200 with the engine's response iff accepted, 400 with the issues iff refused, 500 iff the body is unreadable |
| UssdRoute.Post | WeThrift/src/app/api/ussd/route.ts:11-35 | only an accepted body reaches the engine; a refused one leaves every session as it was |
| UssdRoute.LeadingSpaceOnlyPassesEngine | WeThrift/src/services/ussd.ts:744-748 | a valid number with a leading space passes the engine's check but not the route's |
| GroupsRoute.DigitsPrefix | WeThrift/src/app/api/groups/route.ts:23 | `parseInt` reads the longest digit prefix |
| GroupsRoute.ParseInt | WeThrift/src/app/api/groups/route.ts:23 | `parseInt` is NaN iff no digit follows the leading white space and sign |
| GroupsRoute.DigitsPrefixOfDigits | WeThrift/src/app/api/groups/route.ts:23 | an all-digit string is read whole |
| GroupsRoute.DigitsValueOfNat | WeThrift/src/app/api/groups/route.ts:23 | reading a printed number gives the number back |
| GroupsRoute.ParseIntOfNat | WeThrift/src/app/api/groups/route.ts:23 | `parseInt` of a printed number is that number |
| GroupsRoute.DefaultLimit | WeThrift/src/app/api/groups/route.ts:23 | a missing or empty limit is 20 |
| GroupsRoute.FromService | WeThrift/src/app/api/groups/route.ts:25-45 | a service error is a 500 with its message, and success returns the groups |
| GroupsRoute.Get | WeThrift/src/app/api/groups/route.ts:18-58 | 400 "Missing required parameters" iff neither user id nor query is given |
| GroupsRoute.UserIdTakesPrecedence | WeThrift/src/app/api/groups/route.ts:25-34 | with a user id, query and limit are ignored and the user's groups are returned |
| GroupsRoute.SearchUsesDefaultLimit | WeThrift/src/app/api/groups/route.ts:23-45 | a search without a limit asks for 20 |
| GroupsRoute.PrivacyAt | WeThrift/src/app/api/groups/route.ts:11-15 | privacy settings parse iff they are an object of three booleans |
| GroupsRoute.ParseCreateGroup | WeThrift/src/app/api/groups/route.ts:6-16 | a body is accepted iff every field rule holds, and the request carries the body's values |
| GroupsRoute.Draft | WeThrift/src/app/api/groups/route.ts:74-82 | the mapped group has empty settings and a 2.5 commission rate |
| GroupsRoute.AcceptedDraftInBounds | WeThrift/src/app/api/groups/route.ts:6-82 | an accepted request gives a group with name ≥ 2, description ≥ 10, a listed type and 2 ≤ capacity ≤ 1000 |
| GroupsRoute.Post | WeThrift/src/app/api/groups/route.ts:60-112 | 500 for an unreadable body, 400 for a refused one, 401 with no change when nobody is signed in, and otherwise exactly the new group is stored, with the recounted member count, and its creator is added as admin |
| RegisterRoute.StringField | WeThrift/src/app/api/auth/register/route.ts:7-15 | a string field keeps its value iff it is a string, and is clean iff long enough |
| RegisterRoute.PatternField | WeThrift/src/app/api/auth/register/route.ts:6-12 | a pattern field is clean iff a string passes the test |
| RegisterRoute.UntypedHasIssues | WeThrift/src/app/api/auth/register/route.ts:5-18 | a field of the wrong type always leaves an issue |
| RegisterRoute.ParseRegistration | WeThrift/src/app/api/auth/register/route.ts:5-22 | a refused body always has issues |
| RegisterRoute.FieldIssuesEmpty | WeThrift/src/app/api/auth/register/route.ts:5-18 | no field issue iff every field is clean |
| RegisterRoute.FieldsAcceptedExactly | WeThrift/src/app/api/auth/register/route.ts:5-18 | the fields are clean iff each field rule holds |
| RegisterRoute.AcceptedExactly | WeThrift/src/app/api/auth/register/route.ts:5-22 | accepted iff every field rule holds and the passwords match; the country defaults to Nigeria and the postal code is optional |
| RegisterRoute.PasswordMismatch | WeThrift/src/app/api/auth/register/route.ts:19-22 | differing passwords add "Passwords don't match" on confirmPassword after the field issues, when every field has its type |
| RegisterRoute.SignUpFor | WeThrift/src/app/api/auth/register/route.ts:29-45 | the sign-up carries the e-mail, password and the profile fields |
| RegisterRoute.Answer | WeThrift/src/app/api/auth/register/route.ts:24-76 | 500 iff the body is unreadable; a refused body and a sign-up error are 400s; success carries the account and the confirmation message |
| RegisterRoute.StatusCodes | WeThrift/src/app/api/auth/register/route.ts:47-75 | only 200, 400 and 500 occur, and 500 only for an unreadable body |

## Left out

- The database: query builders, joins, `.or` filter strings, ordering, `.single()` and count heads. Tables are in-memory maps, and the order a query returns is taken as given (for example newest-first rates and notifications).
- The commission statistics RPC (commissions.ts:255-301) and the where-clauses of the three stats functions are left out. Only the aggregation over a given list is modelled.
- Read-only fetches (`getEscrowTransaction`, `getUserLoans`, `getGroupComplaints`, `getComplaintsByCategory`, ...) are plain filtered selects with no rule of their own, so they are left out.
- `uuidv4`, the generated transaction references, group codes and invite codes, and all timestamps are opaque inputs (`id`, `reference`, `groupCode`, `inviteCode`, `at`). An id that is already taken is modelled as the insert's duplicate-key error.
- `calculateNextDueDate` and `scheduleRecurringContribution` (savings.ts:294-375) are left out because they use calendar arithmetic.
- `generateRepaymentSchedule` (loans.ts:378-402) is left out because it uses floating-point powers.
- Numbers are reals. There is no IEEE rounding, and no NaN or infinity for a zero target.
- `Savings.CalculateSavingsProgress`: for a non-positive target the percentage is absent. JavaScript computes `Math.min(total / target * 100, 100)` there: Infinity or NaN for a zero target, and a finite value no greater than 0 for a negative target with a non-negative total (for example -50).
- `toLocaleString` in USSD messages is an abstract `format` parameter.
- The e-mail, SMS and push sending is only console logging, so it is left out; the delivery status it records is modelled.
- Every `NotificationService.sendNotification` call made by another service is left out, because the services only log when it fails and no state of their own depends on it. The left-out calls are:
  - to group admins and super-admins, and the `Promise.all` fan-out;
  - to escrow buyers and sellers (escrow.ts:31, 163, 210, 217, 265, 272, 342, 349);
  - to the borrower on approval, rejection and disbursement (loans.ts:136, 174, 234);
  - to the complainant and the assignee on assignment, resolution and closing (complaints.ts:181, 220, 258).
  The `updateComplaint` notice is the one such call the model keeps, returned as a value (`Complaints.UpdateNotice`). Sending itself is modelled in `Notifications`.
- `updateGroupCommissionEarned` (commissions.ts:323-332) is left out because it only logs.
- The notification templates (`sendContributionReminder`, `sendLoanRepaymentReminder` and the others, notifications.ts:308-422) are left out; each is one `sendNotification` call with fixed text.
- `deleteNotification` and `getUnreadNotificationCount` are left out.
- Concurrency is left out. Each read-modify-write (product amounts, member commission totals, loan balances, member counts) runs alone.
- Auth-provider calls (`signUp`, `signIn`, `signOut`, `getCurrentUser`, `resetPassword`, `updatePassword`, `updateProfile`) are left out. The register route receives sign-up as a function parameter whose error becomes a 400. The groups route receives the signed-in user as an optional parameter.
- The profile insert that sign-up chains to is not composed with the register route. `Auth.UserTable.CreateUserProfile` models it on its own.
- The user-by-phone lookup of the USSD login is an oracle (`Lookups.accounts`). The PIN is not checked against anything, as in the source.
- The USSD list lookups (groups, contributions, loans, escrow, complaints) are oracles in `Lookups`, where `None` is a lookup that throws and takes the view's error branch. `getUserGroups`, `getUserContributions` and `getUserLoans` catch their own errors and return an empty list (groups.ts:79-80, savings.ts:201-202, loans.ts:81-82), so a failed query there shows the "No ... found" text, which the model gives for `Some([])`; their `None` is reached only by a throw outside the query.
- `Ussd.UssdEngine.ShowUserEscrowTransactions`: ussd.ts does not import `EscrowService`, so as written the call throws and the view always shows "Error loading escrow transactions". The method models the view with the service present; the code as written is its `None` case (`Ussd.UnimportedViewsAsWritten`, "## Findings").
- `Ussd.UssdEngine.ShowUserComplaints`: ussd.ts does not import `ComplaintService`, so as written the view always shows "Error loading complaints". The method models the view with the service present; the code as written is its `None` case (`Ussd.UnimportedViewsAsWritten`).
- `Ussd.UssdEngine.GetSession`: returns the stored session with its fields, as the handlers read it. As written the row comes back under its column names, so the handler's fields are undefined; that turn is `Ussd.TurnAsWritten` ("## Findings").
- `Ussd.UssdEngine.UpdateSession`: writes the session back under its own id. As written that holds only for a session `createSession` built; for a stored row the filter is `session_id=eq.undefined`, which changes no real session (`Ussd.StoredRowsFrozenAsWritten`).
- `Ussd.UssdEngine.ProcessUssdRequest`: is proved against `Ussd.Turn`, the field-name reading. The turn as written is `Ussd.TurnAsWritten`, which answers every turn with the welcome menu or the apology (`Ussd.WelcomeAlwaysAsWritten`).
- `Ussd.MenuLevelOnlyBecomesMain`: stated on the field-name reading. As written no stored level ever changes (`Ussd.StoredRowsFrozenAsWritten`).
- `Ussd.DashboardPicked`: stated on the field-name reading. As written the same press answers the welcome menu (`Ussd.StoredLoginIgnoredAsWritten`).
- `Ussd.NextMenuNotFollowed`: stated on the field-name reading. As written the stored session is not logged in, and both presses get the welcome menu.
- `Ussd.LockedOutAfterFailedLogin`: stated on the field-name reading. As written a stored session never reaches the login menu at all.
- `Ussd.WelcomeForever`: stated on the field-name reading, for stores the engine builds. As written the welcome menu is the answer for every store (`Ussd.WelcomeAlwaysAsWritten`).
- `Commissions.GeneralDeactivated`: the intended deactivation. As written `.eq('group_id', null)` matches no row and nothing is switched off (`Commissions.RateTable.SetDefaultCommissionRates`, "## Findings").
- `Commissions.DefaultsReplaceGeneralRates`: holds for the intended table `Commissions.IntendedDefaults`, not for the table as written, where the old general rates stay active (`Commissions.GeneralRatesSurviveDefaults`, `Commissions.OldDefaultKeptAsWritten`).
- Zod's e-mail check is an uninterpreted predicate (`isEmail`).
- `parseInt` with a `0x` prefix or other bases is left out: the limit is read as decimal.
- `GroupsRoute.Get`: `searchGroups` and `getUserGroups` are function parameters, not the directory; search matching is not modelled.
- Zod's wording of type errors and enum errors is not modelled. Those issues carry no message; the route-defined messages are exact.
- `Commissions.MemberLedger.ApplyCommission`: a failed `commission_earned` write (which would throw) is not modelled. The write is returned for the owning table to apply.
- `Auth.UserTable.HasPermission`: the contract states the user and super_admin cases outright. `Auth.RoleSets` and `Auth.RolesNest` give the other roles.
- `Notifications.NotificationCenter.UserNotifications`: the contract bounds the page and keeps it to the user's rows, and does not state the order itself. The method returns `Notifications.Page` of `Notifications.NewestFirst`. `Notifications.Page` keeps the relative order of the rows it picks. `Notifications.NewestFirstConcat`, `Notifications.NewerListedEarlier` and `Notifications.NewestOnTop` state the newest-first order.
- login/route.ts, the type declarations, the client set-up and the UI files are not part of this model.

## Findings

| source | as written | input that shows it | evidently intended | confidence | as-written member | corrected member |
|---|---|---|---|---|---|---|
| WeThrift/src/services/ussd.ts:656-669 | `getSession` returns the row under its column names, so the handler reads `menuLevel`, `isAuthenticated`, `userId` and `sessionId` as undefined, and the write-back filters by `session_id=eq.undefined` | a stored session at 'main', logged in, with input "1": the answer is the welcome menu instead of the dashboard | the row mapped to the camel-case session fields, so a stored session keeps its level and login | not executed | Ussd.StoredLoginIgnoredAsWritten | Ussd.UssdEngine.ProcessUssdRequest |
| WeThrift/src/services/commissions.ts:355-358 | the old default rates are deactivated with `.eq('group_id', null)`, which matches no row; the rate query itself uses `group_id.is.null` | an active general rate whose id the new batch does not reuse: it stays active and is still offered | every general rate switched off before the new ones are inserted | not executed | Commissions.OldDefaultKeptAsWritten | Commissions.DefaultsReplaceGeneralRates |
| WeThrift/src/services/ussd.ts:1-6 | `EscrowService` and `ComplaintService` are used at ussd.ts:584 and 625 but never imported, so both calls throw | a logged-in user choosing "View Transactions" or "View Complaints": the error text, whatever is stored | the user's escrow transactions and complaints listed | not executed | Ussd.UnimportedViewsAsWritten | Ussd.UssdEngine.ShowUserEscrowTransactions |
