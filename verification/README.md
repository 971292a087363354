# ExpenseTracker core in Dafny

A model of the logic at the heart of ExpenseTracker, a peer-to-peer
balance-transfer ledger with a React client and an Express/Neo4j backend.
The model covers these parts:

- **Transfers and history** (`Ledger`). The store is a map from user id to
  user node (name, optional balance) plus the sequence of transaction
  records.
  - `createTransaction` checks its body and then runs one atomic Cypher
    statement. That statement creates the record and debits and credits the
    two balances with `coalesce(balance, 0)`.
  - `getUserTransactions` merges the user's sent and received items and
    orders them newest first.
- **Risk scoring** (`Risk`, and `RiskAnalysis` for the client's copy).
  Risk is scored from the trailing window of sent transfers: four signals,
  tiered points, and a low/medium/high classification that falls back to
  low on failure.
- **Password rules** (`PasswordMessages`, `PasswordController`,
  `PasswordHook`, `PasswordSection`). The same rules appear three times: in
  the server's `changePassword`, in the configurable client hook, and in the
  profile page's section. The modules also model each one's form logic.
- **Profile** (`Profile`). This covers the `ensureMe` default-name fallback
  and `patchUser`'s name formatting and patch parameters.
- **Client aggregations** (`TransactionStats`, `MonthWindow`, `Dashboard`).
  - `TransactionStats`: the statistics page's totals, average, monthly and
    daily windows, and category roll-up.
  - `MonthWindow`: the month keys of the monthly window.
  - `Dashboard`: the dashboard's totals, counts, net flow and five most
    recent items.
- **Send money** (`SendMoney`, `Recipients`). The transfer form's guard,
  request and state changes, and the recipient search.
- **Pull to refresh** (`PullToRefresh`). The touch-gesture state machine,
  together with the data provider's `isRefreshing` flag and the refreshes
  in flight that a suspended touch-end handler awaits.

Shared pieces:

- `Values`: `Option` and JavaScript truthiness of optional strings.
- `Chars`: character classes, case mapping for the Basic Latin and
  Latin-1 letters (including `ÿ` to `Ÿ` and `µ` to the Greek `Μ`), and
  `.length` as UTF-16 code units.
- `Seqs`: filter, sum, take and join, with their algebra.
- `Sorting`: a stable descending insertion sort with sortedness and
  permutation proved.
- `Feed`: the history item `{ role, tx, to | from }`.

Amounts are `real`, so there is no rounding. Dates are integers. The
calendar is a parameter: the risk window's start is `cutoff`, the current
month and day are integers, and `monthOf`/`dayOf` map a date to its bucket
key. The only exception is `MonthWindow`, which models `setMonth` itself.

Two behaviours of the code worth stating up front:

- `getUserTransactions` answers `[]` for an unknown user id, not an
  error. Its query aggregates with `collect`, and `collect` over zero rows
  yields one row holding `[]`. `Ledger.History` returns `[]` for an unknown
  id accordingly.
- The monthly chart does not always have twelve distinct months. On the
  29th to the 31st the month keys come from `setMonth` on today's date,
  which rolls into the following month when the target month is shorter
  (see Findings). `TransactionStats.MonthlyData` builds the window counted
  from the first of the month, which is the intended one.

## Model

| member | source | states |
|---|---|---|
| Ledger.CreateTransaction | backend/controllers/transactionController.js:3-61 | Missing ids, and then a non-positive or non-numeric amount, are refused with 400 and leave the store unchanged. An unknown sender or receiver gives 404 with the store unchanged. The transfer succeeds exactly when the body is valid and both users exist. On success, exactly one record is appended (fresh id, amount, category defaulting to "other", description defaulting to "", date now) and the sender loses and the receiver gains the amount from `coalesce(balance, 0)`. A self-transfer leaves the balance as it was. Every other user is unchanged. |
| Ledger.Adjust | backend/controllers/transactionController.js:33-34 | One SET item changes only the named user's balance, by the given delta from `coalesce(old, 0)`. It keeps every key and name. |
| Ledger.TransferConservesTotal | backend/controllers/transactionController.js:33-34 | A successful transfer leaves the sum of all balances unchanged (missing balances count as 0). |
| Ledger.AdjustTotal | backend/controllers/transactionController.js:33-34 | Changing one balance by a delta changes the total over a duplicate-free id list by exactly that delta. |
| Ledger.NoFundsCheck | backend/controllers/transactionController.js:11-34 | No funds check: a valid transfer between existing distinct users larger than the sender's balance succeeds and leaves the sender's balance negative. |
| Ledger.FreshIdKeepsIdsUnique | backend/controllers/transactionController.js:23-25 | When the generated id is fresh, transaction ids stay unique after a transfer. |
| Ledger.SentItems | backend/controllers/transactionController.js:70-78 | The sent part holds the sent item of every transaction the user sent to an existing receiver, and nothing else. |
| Ledger.ReceivedItems | backend/controllers/transactionController.js:81-89 | The received part holds the received item of every transaction the user received from an existing sender, and nothing else. |
| Ledger.SentItemsExact | backend/controllers/transactionController.js:70-78 | The sent part is exactly one item per transaction the user sent to an existing receiver, in stored order, tagged sent with the receiver as counterparty. |
| Ledger.ReceivedItemsExact | backend/controllers/transactionController.js:81-89 | The received part is exactly one item per transaction the user received from an existing sender, in stored order, tagged received with the sender as counterparty. |
| Ledger.History | backend/controllers/transactionController.js:63-99 | An unknown user gets `[]`. Otherwise the result is newest first and a permutation of sent + received, so its length is #sent + #received. |
| Ledger.HistoryLength | backend/controllers/transactionController.js:70-98 | A known user's history has as many items as there are transactions that user sent to an existing receiver or received from an existing sender. |
| Ledger.HistoryComplete | backend/controllers/transactionController.js:70-91 | Every sent and every received transaction appears with the right role and counterparty, and nothing else does. |
| Ledger.ItemOrigin | backend/controllers/transactionController.js:70-91 | Each item of a history comes from one stored transaction: one the user sent, as a sent item, or one the user received, as a received item. |
| Ledger.OlderItem | backend/controllers/transactionController.js:70-94 | After appending a transfer later than every stored one, every other item of the sender's history is dated earlier than that transfer. |
| Ledger.OnlyNewItemIsRecent | backend/controllers/transactionController.js:29-94 | After a transfer dated later than every stored one, the sender's history holds its sent item, and every other item is older. |
| Ledger.EmptyHistory | backend/controllers/transactionController.js:91-98 | A user no transaction touches gets an empty list, not an error. |
| Ledger.NewTransferHeadsHistory | backend/controllers/transactionController.js:29-94 | If all earlier transactions are older than now, a new transfer between distinct users is the first item of the sender's history. |
| Sorting.SortDesc | backend/controllers/transactionController.js:94 | The ordering is non-increasing by key and a permutation of its input. |
| Sorting.SumSort | frontend/src/hooks/transactions/useTransactionsData.ts:108 | Sorting does not change any sum over the items. |
| Feed.RolesPartition | frontend/src/hooks/dashboard/useTransactionCalculations.ts:6-19 | Since every item is sent or received, the two role counts add up to the length and the two role totals to the total. |
| Risk.RecentSent | backend/utils/riskCalculator.js:23-30 | The window holds exactly the sent items dated at or after the cutoff. |
| Risk.SignalsOf | backend/utils/riskCalculator.js:33-42 | The count is the window's size, large ≤ count, an empty window gives all-zero signals, and average × count = total. |
| Risk.RiskPoints | backend/utils/riskCalculator.js:45-71 | Points lie in 0..7, and all-zero signals score 0. |
| Risk.Classify | backend/utils/riskCalculator.js:73-83 | High iff points ≥ 4, medium iff 2 ≤ points < 4, low iff points < 2. |
| Risk.CalculateUserRiskScore | backend/utils/riskCalculator.js:9-90 | No records or a failure yields low; an empty window yields low. |
| Risk.IrrelevantItemIgnored | backend/utils/riskCalculator.js:26-30 | Inserting a received item, or one older than the cutoff, anywhere in the history never changes the level. |
| Risk.SingleTransferRisk | backend/utils/riskCalculator.js:33-83 | A single in-window transfer is high iff it exceeds 50000 and low iff it is at most 10000. |
| Risk.NineTransfersAreMedium | backend/utils/riskCalculator.js:47-81 | Nine in-window transfers totalling 25000 with one above 10000 score 3 points, which is medium. |
| RiskAnalysis.ClientSignals | frontend/src/components/transactions/SimpleRiskAnalysis.tsx:23-35 | The client's large count never exceeds its count, which is the number of in-window sent items. |
| RiskAnalysis.ClientMatchesServer | frontend/src/components/transactions/SimpleRiskAnalysis.tsx:26-35 | For the same history and cutoff, the client's four signals equal the server's. |
| RiskAnalysis.RiskDescription | frontend/src/components/transactions/SimpleRiskAnalysis.tsx:37-46 | The high text iff "high", the medium text iff "medium", and the conservative text for any other string. |
| RiskAnalysis.DescriptionOfComputedLevel | frontend/src/components/transactions/SimpleRiskAnalysis.tsx:37-46 | On the server's level names the description is one-to-one, and conservative exactly for low. |
| PasswordMessages.Push | backend/controllers/userPasswordController.js:16-30 | Appending a rule's message keeps the list in rule order without repeats. The message is present iff its rule failed, and the length grows by one exactly then. |
| PasswordMessages.RanksOfMessages | backend/controllers/userPasswordController.js:16-30 | The five messages have the distinct ranks 0..4 of the rule order length, upper, lower, digit, special. |
| PasswordController.PasswordRules | backend/controllers/userPasswordController.js:16-30 | The list is in rule order with at most 4 entries. Each message is present iff its rule fails, with the length counted in UTF-16 code units as `.length` does. The list is empty iff that length is ≥ 8 and there is an upper-case letter, a lower-case letter and a digit. |
| PasswordController.AstralCharactersCountTwice | backend/controllers/userPasswordController.js:16-18 | "Aa1" followed by three emoji has 6 characters but length 9, so it passes the length rule. |
| PasswordController.ChangePassword | backend/controllers/userPasswordController.js:3-37 | No sub gives 401. A missing or empty password gives 400 "newPassword is required" before any rule check. The password is forwarded iff the rule list is empty; otherwise the answer is 400 with the full list as details. |
| PasswordController.ProviderReply | backend/controllers/userPasswordController.js:39-55 | 200 iff the provider succeeded; a refusal is 400 with the provider's message, and an exception is 500. |
| PasswordHook.Override | frontend/src/hooks/auth/usePasswordValidation.ts:23 | A spread field keeps the default when absent, becomes undefined when given as undefined, and takes the given value otherwise. |
| PasswordHook.MergeOptions | frontend/src/hooks/auth/usePasswordValidation.ts:11-23 | Each of the five keys follows the spread: absent keeps its default (8, upper, lower, digit, no special), `undefined` gives `undefined`, a value overrides. No options gives the defaults. |
| PasswordHook.MergeAllGiven | frontend/src/hooks/auth/usePasswordValidation.ts:11-23 | Options that give a value for every key produce exactly those values, whatever the defaults. |
| PasswordHook.MergeOneKey | frontend/src/hooks/auth/usePasswordValidation.ts:23 | Changing any one of the five option keys changes only that key of the merged configuration, to the spread of the default and the new setting. |
| PasswordHook.ValidationErrors | frontend/src/hooks/auth/usePasswordValidation.ts:25-51 | An empty password gives no errors. Otherwise the errors are in rule order, at most 5, and empty iff every enabled rule passes. The first error is the length message for the configured minimum iff the length rule fires (length in UTF-16 code units). The upper, lower, digit and special messages are each present iff that rule is enabled and fails. |
| PasswordMessages.Reported | frontend/src/hooks/auth/usePasswordValidation.ts:28-50 | Pushing the five rule messages in order gives a list in rule order with each message present iff its rule failed, the length message first when present, and empty iff no rule failed. |
| PasswordHook.LengthRuleDisabled | frontend/src/hooks/auth/usePasswordValidation.ts:30-32 | A minimum length of 0 or undefined never yields the length message. |
| PasswordHook.DefaultsMatchBackend | frontend/src/hooks/auth/usePasswordValidation.ts:30-44 | With default options and a non-empty password, the hook's list equals the server's. |
| PasswordHook.ValidIffBackendForwards | frontend/src/hooks/auth/usePasswordValidation.ts:53-55 | With defaults, the password is valid iff the server would forward it. The form is valid iff the password is valid and the confirmation is equal and non-empty. |
| PasswordHook.ResetClearsForm | frontend/src/hooks/auth/usePasswordValidation.ts:57-60 | After reset both fields are empty, so there are no errors and neither the password, the match nor the form is valid. |
| PasswordSection.ValidatePassword | frontend/src/components/profile/PasswordChangeSection.tsx:26-41 | The empty password gives []; the list is always in rule order. On a non-empty password it is the server's list (see ValidatorsAgree), with the length counted in UTF-16 code units. |
| PasswordSection.ValidatorsAgree | frontend/src/components/profile/PasswordChangeSection.tsx:26-41 | On non-empty input the section's list equals the server's list and the hook's default list. |
| PasswordSection.EmptyPasswordDiffers | frontend/src/components/profile/PasswordChangeSection.tsx:26-41 | On "" the two client validators give [], the server's rules give all four messages, and the handler answers 400 "newPassword is required". |
| PasswordSection.OnNewPassword | frontend/src/components/profile/PasswordChangeSection.tsx:43-46 | Typing a new password stores it and recomputes the errors for it, leaving the confirmation as it was. |
| PasswordSection.GuardMatchesButton | frontend/src/components/profile/PasswordChangeSection.tsx:209-214 | With a token, the submit guard lets a form through iff the button is enabled; without a token nothing is sent. |
| PasswordSection.GuardImpliesBackendForwards | frontend/src/components/profile/PasswordChangeSection.tsx:48-59 | A request the guard lets through is forwarded by the server's `changePassword`. |
| PasswordSection.AfterSuccess | frontend/src/components/profile/PasswordChangeSection.tsx:61-63 | After success both fields are "" and the errors [], so the form is consistent and the button disabled. |
| PasswordSection.FailureMessage | frontend/src/components/profile/PasswordChangeSection.tsx:74-84 | The text a reply body gives: its details joined by ". " when they are an array, else its truthy error, else the default text. |
| PasswordSection.Toast | frontend/src/components/profile/PasswordChangeSection.tsx:71-91 | The toast is the reply body's text when the caught error exposes `response.data`, and the default text otherwise. |
| PasswordSection.FetchJsonError | frontend/src/lib/api.ts:44-57 | The error thrown on a JSON reply that is not ok has the body's truthy `error` (else the status and its text) as message, and no `response`. |
| PasswordSection.RejectBody | backend/controllers/userPasswordController.js:5-46 | A rejection's body carries its `error`, and `details` exactly when there are failed rules. |
| PasswordSection.ServerMessageNeverShown | frontend/src/components/profile/PasswordChangeSection.tsx:71-91 | Whatever the server answers, the toast after a failed change is the default text, because the error `changePassword` throws has no `response`. |
| PasswordSection.ProviderMessageHidden | backend/controllers/userPasswordController.js:45-46 | The provider's refusal reaches the thrown error's message as a 400, but the toast shows the default text instead. |
| PasswordSection.ErrorWithResponse | frontend/src/components/profile/PasswordChangeSection.tsx:77-84 | The error the catch block is written for: the same message, with the reply body exposed. |
| PasswordSection.ServerMessageShown | frontend/src/components/profile/PasswordChangeSection.tsx:77-84 | With the body exposed, the provider's refusal is shown as its message and a validation failure as its rules joined by ". ". |
| PasswordSection.SingleDetailShownVerbatim | frontend/src/components/profile/PasswordChangeSection.tsx:77-81 | With the body exposed, a one-element details array is shown as that message. |
| Profile.DefaultName | backend/controllers/userProfileController.js:16-20 | The first truthy of the header, `given_name` and `name`, else "Unnamed user"; never empty. |
| Profile.EnsureMe | backend/controllers/userProfileController.js:12-35 | No sub gives 401. Otherwise provisioning uses the name DefaultName picks (header, then given_name, then name, then "Unnamed user"), balance 0 and the 300 signup bonus. |
| Profile.Trim | backend/controllers/userProfileController.js:56 | The result is a contiguous piece of the input with white space, and only white space, before and after it, and none at its own ends. |
| Profile.SplitSpaces | backend/controllers/userProfileController.js:57 | At least one piece, no piece contains a space, and joining the pieces with " " gives back the input. |
| Profile.SplitMapJoinIsTitleCase | backend/controllers/userProfileController.js:57-59 | Split on spaces, capitalise each piece and re-join equals upper-casing each character after a space (or at the start) and lower-casing the rest. |
| Profile.FormatName | backend/controllers/userProfileController.js:53-60 | The formatted name is the title case of the trimmed name. It has the same length as the trimmed name and spaces at the same positions. |
| Profile.MicroSignCapitalized | backend/controllers/userProfileController.js:58 | A word starting with the micro sign `µ` is capitalised to the Greek capital `Μ`. |
| Profile.FormatIdempotent | backend/controllers/userProfileController.js:55-59 | Formatting an already formatted name changes nothing. |
| Profile.TrimOfTrimmed | backend/controllers/userProfileController.js:56 | A string without white space at its ends is its own trim. |
| Profile.PatchName | backend/controllers/userProfileController.js:53-79 | A non-empty string name becomes its formatted form, or null when that is empty. A missing name is null and a non-string passes through. |
| Profile.BlankNameNotPatched | backend/controllers/userProfileController.js:53-79 | A name made only of white space is sent as null, not as "". |
| Profile.RiskScoreNeverPatched | backend/controllers/userProfileController.js:76-81 | Whatever the request body holds, the patch parameters carry a null risk score. |
| Profile.PatchUser | backend/controllers/userProfileController.js:46-81 | No sub gives 401 and an unknown sub gives 404. Otherwise the patch carries the found id, the image or null, the patched name, and a null risk score. |
| TransactionStats.AverageTransaction | frontend/src/hooks/transactions/useTransactionsData.ts:35-47 | 0 for no items; otherwise average × count equals the total of all items. |
| TransactionStats.EmptyWindow | frontend/src/hooks/transactions/useTransactionsData.ts:55-60 | n consecutive zero buckets ending at the given key, oldest first. |
| TransactionStats.WindowsContents | frontend/src/hooks/transactions/useTransactionsData.ts:55-142 | Exactly 12 monthly and 30 daily buckets with consecutive keys. Each bucket's sent and received fields are the sums of that role's amounts dated in it, and items outside the window are ignored. |
| TransactionStats.FillWindowContents | frontend/src/hooks/transactions/useTransactionsData.ts:62-75 | Filling adds to each bucket exactly the amounts of each role's items keyed to it. |
| TransactionStats.MonthlyWithinTotals | frontend/src/hooks/transactions/useTransactionsData.ts:62-75 | With non-negative amounts, each role's monthly sums never exceed that role's total. |
| TransactionStats.DailyWithinTotals | frontend/src/hooks/transactions/useTransactionsData.ts:123-142 | With non-negative amounts, each role's daily sums never exceed that role's total. |
| TransactionStats.RollupFromShape | frontend/src/hooks/transactions/useTransactionsData.ts:86-100 | The roll-up adds the items' categories, keeps categories distinct, and adds the items' total and count to the entry sums. |
| TransactionStats.RollupFromFor | frontend/src/hooks/transactions/useTransactionsData.ts:86-100 | Each category's amount and count grow by exactly the amount and number of that category's items. |
| TransactionStats.CategoryDataContents | frontend/src/hooks/transactions/useTransactionsData.ts:86-108 | One entry per category among the sent items, each with that category's sum and count, sorted by amount. The amounts sum to the sent total and the counts to the number of sent items. |
| TransactionStats.CategoriesCollapseAsQueried | frontend/src/hooks/transactions/useTransactionsData.ts:90-100 | On the history as the server builds it, the category statistics have at most one entry, keyed undefined. |
| TransactionStats.CategoriesKeptWithCategory | frontend/src/hooks/transactions/useTransactionsData.ts:90-100 | On a history that selects `category`, every category the user sent under appears in the statistics. |
| MonthWindow.ShiftedMonth | frontend/src/hooks/transactions/useTransactionsData.ts:55-58 | Moving back i months from day d lands in the target month, or in the next month exactly when the target month is shorter than d days. |
| MonthWindow.KeysFromFirst | frontend/src/hooks/transactions/useTransactionsData.ts:55-58 | Counted from the first of the month, the keys are the 12 consecutive months ending with the current one. |
| MonthWindow.EarlyInMonthAgree | frontend/src/hooks/transactions/useTransactionsData.ts:55-58 | Up to the 28th, the keys as written equal the consecutive window. |
| MonthWindow.MonthEndDropsMonths | frontend/src/hooks/transactions/useTransactionsData.ts:55-58 | On 31 March 2025 the keys as written are May, May, Jul, Jul, Aug, Oct, Oct, Dec, Dec 2024, Jan, Mar, Mar 2025: April, June, September, November and February are missing. |
| MonthWindow.FromFirstIsMonthlyWindow | frontend/src/hooks/transactions/useTransactionsData.ts:55-60 | The keys counted from the first of the month are strictly increasing and exactly the keys of the statistics' monthly window. |
| Dashboard.Calculate | frontend/src/hooks/dashboard/useTransactionCalculations.ts:5-31 | `sentCount` and `totalSent` are the number and amount sum of the items with role sent, `receivedCount` and `totalReceived` those of the items with role received; the counts add up to the length and the totals to the total. The net flow is received minus sent. The recent list is the first min(5, n) items in order. |
| Dashboard.CountsMatchLedger | frontend/src/hooks/dashboard/useTransactionCalculations.ts:6-19 | On a user's history the dashboard's sent count and total are the number and amount sum of the stored transfers that user sent to an existing receiver; the received count and total likewise for the transfers received from an existing sender. |
| Dashboard.HistoryRoleParts | frontend/src/hooks/dashboard/useTransactionCalculations.ts:6-19 | The role filters of the ordered history have the lengths and totals of the query's sent and received parts. |
| Dashboard.NetFlowTracksBalance | frontend/src/hooks/dashboard/useTransactionCalculations.ts:21 | A transfer moves each user's dashboard net flow by exactly the change in that user's ledger balance. |
| Dashboard.NetFlowIsSignedSum | frontend/src/hooks/dashboard/useTransactionCalculations.ts:6-21 | The net flow is the sum of received amounts minus sent amounts, item by item. |
| Dashboard.HistoryNetFlow | frontend/src/hooks/dashboard/useTransactionCalculations.ts:6-21 | The net flow of a user's history is the signed sum of its sent and received parts, whatever the order. |
| Dashboard.RecentAreNewest | frontend/src/hooks/dashboard/useTransactionCalculations.ts:14 | On a newest-first history no item left out of the recent list is later than one shown. |
| SendMoney.Submit | frontend/src/hooks/transactions/useSendMoney.ts:18-42 | Nothing happens iff there is no recipient, amount text or token. Past that guard, "Please enter a valid amount" iff the amount does not parse to a positive number, and "Insufficient balance" iff it does but exceeds the balance. A request goes out iff the amount is in (0, balance], so an amount equal to the balance is allowed. The request carries the recipient's id, the amount, the category or "Other" when it is empty, and the description. |
| SendMoney.AfterSubmit | frontend/src/hooks/transactions/useSendMoney.ts:22-34 | A rejection sets its message as the error and a request clears the error. |
| SendMoney.AfterSend | frontend/src/hooks/transactions/useSendMoney.ts:55-64 | Success clears the recipient, amount, description and search term and keeps the category. Failure shows the message or "Failed to send money". |
| SendMoney.Select | frontend/src/hooks/transactions/useSendMoney.ts:76-79 | Selecting sets the recipient and the search term to its name, leaving the other fields. |
| SendMoney.Deselect | frontend/src/hooks/transactions/useSendMoney.ts:81-84 | Deselecting clears the recipient and the search term, leaving the other fields. |
| SendMoney.DeselectUndoesSelect | frontend/src/hooks/transactions/useSendMoney.ts:76-84 | Deselecting after selecting leaves the form as deselecting alone would. |
| SendMoney.NoResubmitAfterSuccess | frontend/src/hooks/transactions/useSendMoney.ts:18-59 | After a successful send the cleared form is ignored by the guard, so it cannot be resubmitted. |
| SendMoney.ClientTransferRejected | frontend/src/hooks/transactions/useSendMoney.ts:37-44 | Every request the form sends is refused by `createTransaction` with 400 and changes nothing, because it has no `senderId`. |
| SendMoney.AuthenticatedTransferAccepted | frontend/src/hooks/transactions/useSendMoney.ts:28-42 | With the sender taken from the token, a request the form lets through succeeds whenever both users exist, stores the form's category, and leaves the sender's balance non-negative. |
| SendMoney.CategoryDefaultsDiffer | frontend/src/hooks/transactions/useSendMoney.ts:40 | An empty category is sent as "Other", so the server's "other" default is never used. |
| Recipients.FilteredUsers | frontend/src/components/transactions/UserSelector.tsx:32-42 | An empty term gives []. At most 5 results, each from the list, never the current user or an admin, and with a name that contains the term after lower-casing both. |
| Recipients.LatinOneNameFound | frontend/src/components/transactions/UserSelector.tsx:36-39 | The term "øy" finds the user "Øyvind": lower-casing covers the Latin-1 letters. |
| Recipients.FilteredComplete | frontend/src/components/transactions/UserSelector.tsx:34-41 | When fewer than 5 users are shown, every matching user is shown. |
| Recipients.SearchUsers | frontend/src/components/transactions/UserSelector.tsx:34-41 | A loop that stops at the fifth match returns exactly the filtered list, in list order. |
| PullToRefresh.TouchStart | frontend/src/hooks/usePullToRefresh.ts:13-21 | The start is the touch's y at the top of the page and 0 elsewhere; nothing else changes. |
| PullToRefresh.TouchMove | frontend/src/hooks/usePullToRefresh.ts:23-45 | With a start at the top, the distance is min(max(0, y - start), 100) and pulling is raw distance > 60. Away from the top, a started pull is reset, and otherwise nothing changes. |
| PullToRefresh.TouchEnd | frontend/src/hooks/usePullToRefresh.ts:47-59 | `refreshAll` is called iff at the top, pulling, distance > 60 and not already refreshing. Without the call the gesture resets at once; with it the gesture is kept until the awaited refresh completes. |
| PullToRefresh.RunKeepsValid | frontend/src/hooks/usePullToRefresh.ts:13-59 | Any event sequence from a valid page keeps 0 ≤ distance ≤ 100, with pulling only when the distance exceeds 60, the refreshing flag up only while a refresh runs, and every awaited refresh running. |
| PullToRefresh.EndKeepsPullWhileRefreshing | frontend/src/hooks/usePullToRefresh.ts:47-59 | A touch end that starts a refresh keeps the pull and raises `isRefreshing`; one that does not resets the gesture and starts nothing. |
| PullToRefresh.TouchDuringRefreshForgotten | frontend/src/hooks/usePullToRefresh.ts:13-58 | A touch started at the top while a refresh runs loses its start when the awaited refresh completes and the suspended handler resets. |
| PullToRefresh.RefreshIffPulling | frontend/src/hooks/usePullToRefresh.ts:50-52 | On a valid state, the end handler's distance test is implied by the pulling flag. |
| PullToRefresh.NoDoubleRefresh | frontend/src/hooks/usePullToRefresh.ts:50 | While `isRefreshing` is up, no sequence of touch events starts another refresh, until some refresh finishes. |
| PullToRefresh.PullingNeedsLongMove | frontend/src/hooks/usePullToRefresh.ts:28-34 | A move only raises the pulling flag when the touch started at the top and moved down more than 60. |
| Values.NatToString | frontend/src/hooks/auth/usePasswordValidation.ts:31 | A length rendered in a message is a non-empty string of digits. |
| Chars.JsLength | backend/controllers/userPasswordController.js:16 | `.length` counts UTF-16 code units: at least the number of characters and at most twice it, 0 only for the empty string, and equal to the number of characters when none lies outside the Basic Multilingual Plane. |

## Left out

- Network, HTTP and data loading (Express routing, `fetch`, the user-data provider's queries): these are I/O. Requests and replies appear only as datatypes. Of `fetchJson`, only the error it throws on a JSON reply that is not ok is modelled (`PasswordSection.FetchJsonError`); its other throws (a reply that is not JSON, a network failure) carry no `response` either, so they give the same default toast.
- JWT verification and the identity provider: the token's `sub` and claims are parameters, and the provider's answer to a password change is the `ProviderResult` parameter. The Cognito name update in `patchUser` (lines 84-101) only logs its outcome and does not change the reply.
- Everything that lives in `.cypher` files that are not shown:
  - `ensureMe`'s provisioning query and the signup-bonus grant (`EnsureMe` only records the name, balance 0 and bonus 300 it passes);
  - the by-sub lookup and the patch query of `patchUser` (the lookup result is a parameter);
  - the risk calculator's own history query (its outcome is the `HistoryFetch` parameter);
  - `updateUserRiskScore`.
- userBonusController.js, userCrudController.js, userRiskController.js and the superseded userController.js are not part of this model.
- Database failures: the 500 answers of `createTransaction` and `getUserTransactions` come only from store exceptions, which are not modelled. Concurrency: the transfer statement is one atomic step.
- Calendar arithmetic: `new Date()`, `setDate(-30)` and the ISO date keys are replaced by the `cutoff`, `currentMonth`, `today`, `monthOf` and `dayOf` parameters. Time zones (`toISOString` is UTC while `getMonth` is local) are not modelled.
- Month and day labels (`toLocaleDateString`), currency formatting, the display of toasts (only their text is modelled), loading flags other than `isRefreshing`, and rendering are left out.
- `randomUUID()` and `datetime()` are the `freshId` and `now` parameters of `CreateTransaction`.
- JSON values that are not numbers: `BodyAmount` separates numbers from everything else. `NaN` cannot arrive in a JSON body. `parseFloat` is the `parsed` parameter of `SendMoney.Submit` (`None` for `NaN`).
- Floating point: amounts are exact reals, so rounding in sums and averages is not modelled.
- Profile.FormatName: upper- and lower-casing are modelled for the Basic Latin and Latin-1 letters (with `ÿ` to `Ÿ` and `µ` to `Μ`), and `trim` for ASCII white space. Lower-casing of the letters outside Latin-1 other than `Ÿ`, such as `Μ` itself, is not modelled. Case mapping of other scripts, the one-to-many mappings (`ß` to `SS`) and Unicode white space are not modelled.
- Recipients.FilteredUsers: `toLowerCase` is modelled for the Basic Latin and Latin-1 letters, which covers Æ, Ø and Å. Lower-casing of other scripts (Greek, Cyrillic, Latin Extended) is not modelled, so for such names the model may miss matches the client finds.
- PasswordController.PasswordRules / PasswordHook.ValidationErrors / PasswordSection.ValidatePassword: the length rule counts UTF-16 code units, as `.length` does. The regular expressions are ASCII classes in the source too, so nothing else is narrowed.
- TransactionStats.WindowsContents: `MonthlyData` is the window counted from the first of the month, the twelve consecutive months ending with the current one. The code as written produces these keys only up to the 28th; from the 29th to the 31st it produces the keys of `MonthWindow.KeysAsWritten` (see Findings).
- Profile.PatchName: `NameOther` stands for a truthy non-string `name`; a falsy non-string is treated like a missing name.
- Ledger.History: Neo4j's order among items with equal dates is unspecified. The model uses one particular stable order, and the contract promises only non-increasing dates and a permutation.
- Risk.RiskPoints: states the 0..7 range and the zero case. The tiers themselves are the definitions of `VolumePoints`, `FrequencyPoints`, `LargePoints` and `AveragePoints`.
- Dashboard.RecentAreNewest: holds on any newest-first list; that the dashboard's list is the server's ordered history is assumed, since the data provider is not modelled.
- Handlers see the state of their last render. `PullToRefresh` applies events to the current state, that is, it assumes a render between events.
- PullToRefresh.Step: a touch end without a token calls `refreshAll`, which returns at once; the handler then resets after one `await` of a settled promise, which the model treats as an immediate reset. The ends of refreshes are `Finish` events in any order the caller chooses; which of several running refreshes a `Finish(false)` ends is not distinguished.

## Findings

| source | as written | input that shows it | evidently intended | confidence | as-written member | corrected member |
|---|---|---|---|---|---|---|
| frontend/src/hooks/transactions/useSendMoney.ts:37-42 | The transfer request has no `senderId`, but `createTransaction` demands one (backend/controllers/transactionController.js:11-13). | Any form the guard lets through, for example a selected recipient, amount "10" and a balance of 100: the server answers 400 "senderId and receiverId required". | The sender is the authenticated user, so a valid form results in a transfer. | not executed | SendMoney.ClientTransferRejected | SendMoney.AuthenticatedTransferAccepted |
| backend/controllers/transactionController.js:75 | The history items omit `category` (also line 86), but the category statistics group by `t.tx.category` (frontend/src/hooks/transactions/useTransactionsData.ts:93). | Two transfers sent under "Food" and "Rent": the statistics show one entry with key undefined holding both. | The history selects `category`, so each category gets its own entry. | not executed | TransactionStats.CategoriesCollapseAsQueried | TransactionStats.CategoriesKeptWithCategory |
| frontend/src/hooks/transactions/useTransactionsData.ts:55-58 | The month keys come from `setMonth(getMonth() - i)` on today's date, which rolls the 29th to 31st into the following month when the target month is shorter. | Today 31 March 2025: every target month shorter than 31 days rolls forward, so the keys cover only seven months (May, Jul, Aug, Oct, Dec 2024, Jan, Mar 2025). April, June, September, November and February are missing and their transfers are not charted. | The twelve consecutive months ending with the current one. | not executed | MonthWindow.MonthEndDropsMonths | MonthWindow.FromFirstIsMonthlyWindow |
| frontend/src/components/profile/PasswordChangeSection.tsx:77-84 | The failure toast reads `error.response.data`, but `changePassword` goes through `fetchJson`, which throws a plain `Error` with no `response` (frontend/src/lib/api.ts:52-54). | The identity provider refuses the new password with message m: the server answers 400 `{ error: m }`, and the toast shows "Failed to change password. Please try again." instead of m. | The thrown error exposes the reply body, so the provider's message or the failed rules are shown. | not executed | PasswordSection.ServerMessageNeverShown | PasswordSection.ServerMessageShown |
