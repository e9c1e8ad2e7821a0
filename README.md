# Expense tracker core in Dafny

A model of the logic behind a React Native personal-finance app: expenses,
income, budgets, shared splits between friends, and the screens built on them.
The model covers:

- splitting an expense (equal, by amount, or by percentage), with its validation;
- folding stored splits into per-friend debt summaries and their totals;
- the expense list's filter pipeline, its multi-selection and saved filters;
- the advanced-filter sheet;
- the export record (date range, totals, top categories) and its CSV and text-report renderings;
- the pie, trend and bar charts;
- the social activity feed;
- the friend list's search, initials and friend-request check;
- the onboarding walkthrough;
- payment requests;
- the add-expense form.

The model has three kinds of entity:

- Values are datatypes: expenses, splits, filters, requests and the like.
- A screen whose state the handlers update is a class. Its fields are the
  component's state variables, and its methods are the handlers, each with a
  `modifies` clause and a contract stating the new state.
- A loop in the source is a method with a loop. It is proved equal to a
  specification function, and the properties are proved about that function.

Amounts are exact `real` numbers. A `NaN` from `parseFloat` is `None`. A date is a civil
date with a time of day (`Dates.DateTime`). `getTime()` is `Dates.EpochMs`,
milliseconds since 1970-01-01 in the proleptic Gregorian calendar.

Modules, one file each:

| module | what it holds |
|---|---|
| `Base` | options, results, filtering and toggling of lists |
| `Text` | case mapping, trimming, `includes`, number text, `parseFloat`, `toFixed(2)` |
| `Dates` | calendar dates |
| `Types` | the shared records and constant tables |
| `Tally` | sums and category totals |
| `Sorting` | the descending sort and `slice` |

Each of the remaining modules models one component or service.

## Model

| member | source | states |
|---|---|---|
| SplitExpense.InitialTableFacts | components/SplitExpenseModal.tsx:94-117 | the table starts with the creator's row, selected; then every friend in order, unselected; exactly one row selected; all amounts and percentages 0 |
| SplitExpense.EqualSplitFacts | components/SplitExpenseModal.tsx:119-130 | with k selected rows, each selected row gets amount/k and 100/k percent, every other row 0; the selection is unchanged |
| SplitExpense.EqualSplitTotals | components/SplitExpenseModal.tsx:119-130 | the selected shares of an equal split add up to the expense amount, and their percentages to 100 |
| SplitExpense.EqualSplitPasses | components/SplitExpenseModal.tsx:157-183 | an equal split with at least two selected rows passes validation under every split method |
| SplitExpense.ToggleFacts | components/SplitExpenseModal.tsx:132-138 | a toggle flips `selected` on exactly the rows with the id, unless the id is the signed-in user's; nothing else changes |
| SplitExpense.ToggleTwice | components/SplitExpenseModal.tsx:132-138 | toggling the same id twice restores the table |
| SplitExpense.TransitionsKeepCreator | components/SplitExpenseModal.tsx:119-155 | every transition keeps the creator's row first and selected, so at least one row is always selected |
| SplitExpense.SetAmountFacts | components/SplitExpenseModal.tsx:140-145 | an amount edit sets that user's amount to `parseFloat(text) \|\| 0`; every other field and row is unchanged |
| SplitExpense.SetPercentageFacts | components/SplitExpenseModal.tsx:147-155 | a percentage edit sets that user's percentage to the parsed number and the amount to that share of the expense; other rows are unchanged |
| SplitExpense.SetShareFacts | components/SplitExpenseModal.tsx:151-154 | a share edit sets the percentage and amount of the rows with that id and leaves every other field, and every other row, unchanged |
| SplitExpense.PercentageDrivenTotal | components/SplitExpenseModal.tsx:147-155 | when every amount is its percentage of the expense, the amounts total the total percentage of the expense |
| SplitExpense.ValidateSplitMeaning | components/SplitExpenseModal.tsx:157-183 | a table passes iff there is an expense, at least two rows are selected, the selected amounts are within 0.01 of the expense, and (for percentages) the percentages are within 0.1 of 100; fewer than two rows gives the too-few alert |
| SplitExpense.BuildSplitFacts | components/SplitExpenseModal.tsx:190-203 | the stored split lists exactly the selected rows in order with their amounts; only the creator is marked paid; nobody is settled; the type and group are carried over; the share total is the selected total |
| SplitExpense.CreatedSplitFacts | components/SplitExpenseModal.tsx:185-203 | a split is created iff there is an expense and a user and the table passes; it has at least two shares within 0.01 of the expense; from a table whose creator row is first, the first share is the creator's and is paid |
| SplitExpense.SplitDialog.constructor | components/SplitExpenseModal.tsx:60-62 | the dialog opens with no friends, an empty table and the equal method |
| SplitExpense.SplitDialog.SetFriends | components/SplitExpenseModal.tsx:88 | the loaded friends replace the list; the table and method are unchanged |
| SplitExpense.SplitDialog.InitializeParticipants | components/SplitExpenseModal.tsx:94-117 | with an expense and a user the table becomes the initial table; otherwise nothing changes; validity is kept |
| SplitExpense.SplitDialog.CalculateEqualSplit | components/SplitExpenseModal.tsx:119-130 | with an expense the table becomes its equal split; otherwise it is unchanged |
| SplitExpense.SplitDialog.ToggleParticipant | components/SplitExpenseModal.tsx:132-138 | the table becomes its toggle with the signed-in user's own row protected |
| SplitExpense.SplitDialog.UpdateParticipantAmount | components/SplitExpenseModal.tsx:140-145 | the table becomes the amount edit of the old table |
| SplitExpense.SplitDialog.UpdateParticipantPercentage | components/SplitExpenseModal.tsx:147-155 | the table becomes the percentage edit of the old table, against the expense amount |
| SplitExpense.SplitDialog.SetSplitMethod | components/SplitExpenseModal.tsx:470 | a method button sets the method and nothing else |
| SplitExpense.SplitDialog.HandleCreateSplit | components/SplitExpenseModal.tsx:185-203 | the result is the created split or the reason there is none; a created split has at least two shares and starts with the user's paid share |
| DebtTracker.AppendVisit | components/DebtTracker.tsx:80-116 | one more visited share adds its amount and one transaction to that counterparty, and sets the direction from who created the split |
| DebtTracker.StepKeepsInvariant | components/DebtTracker.tsx:88-116 | one step of the inner loop keeps the map's invariant: distinct ids, each summary matching the reference sums, and no summary for counterparties without contributing shares |
| DebtTracker.FoldCorrect | components/DebtTracker.tsx:77-119 | the map built by the nested loops holds one summary per counterparty with contributing shares, each carrying that counterparty's total, transactions and last direction |
| DebtTracker.TransactionsSumToDebt | components/DebtTracker.tsx:101-116 | a counterparty's transaction amounts add up to its debt amount |
| DebtTracker.IgnoredVisits | components/DebtTracker.tsx:82-88 | the user's own shares and settled shares leave the map unchanged |
| DebtTracker.LastSplitDecides | components/DebtTracker.tsx:110-116 | a debt's direction is decided by the last split in which the counterparty has an unsettled share: they owe the user if the user created it, otherwise the user owes them |
| DebtTracker.LastKindOfSuffix | components/DebtTracker.tsx:110-116 | when a counterparty has a contributing share in a later stretch of shares, its direction is decided by that stretch alone |
| DebtTracker.RecordShare | components/DebtTracker.tsx:88-116 | the inner loop's body is one step of the fold |
| DebtTracker.LoadDebtData | components/DebtTracker.tsx:77-121 | the shown debts are the fold's summaries above 0.01 in absolute value; the ids are distinct; each summary matches the reference sums and its transactions total its amount; every counterparty whose debt exceeds 0.01 is listed |
| DebtTracker.DebtsFacts | components/DebtTracker.tsx:121 | the same facts for the filtered list, proved about the specification function |
| DebtTracker.NetBalanceIsSignedTotal | components/DebtTracker.tsx:151-159 | the net balance is the sum of the summaries, each signed by its direction; the two totals together are the sum of all amounts |
| ExpensesList.FilterByText | components/EnhancedExpensesList.tsx:111-130 | the search, category and currency steps take the full list to the survivors of the first three criteria |
| ExpensesList.FilterByRange | components/EnhancedExpensesList.tsx:133-150 | the date and amount bound steps take those survivors to the survivors of seven criteria |
| ExpensesList.FilterByFlags | components/EnhancedExpensesList.tsx:153-161 | the receipt and recurrence steps finish the pipeline |
| ExpensesList.FilterExpenses | components/EnhancedExpensesList.tsx:108-163 | the filtered list is the shown list: a subsequence of the expenses holding exactly those that match every active criterion |
| ExpensesList.MatchesMeaning | components/EnhancedExpensesList.tsx:108-163 | an expense survives iff each set criterion holds: the search box takes precedence over the record's search text, bounds are inclusive, an unreadable bound fails, and the receipt and recurrence flags match |
| ExpensesList.TagsIgnored | components/EnhancedExpensesList.tsx:108-163 | the criteria's tag list never changes the result |
| ExpensesList.ClearedKeepsAll | components/EnhancedExpensesList.tsx:62-73 | with an empty search box and the initial criteria every expense is shown, in order |
| ExpensesList.UnreadableBoundExcludesAll | components/EnhancedExpensesList.tsx:133-150 | a set date or amount bound that does not parse excludes every expense |
| ExpensesList.ActiveIffNotCleared | components/EnhancedExpensesList.tsx:228-230 | the criteria count as active iff they differ from the cleared record |
| ExpensesList.RemoveNamedFacts | components/EnhancedExpensesList.tsx:223-225 | deleting a saved filter removes every filter with that name and keeps the others in order |
| ExpensesList.ExpensesScreen.constructor | components/EnhancedExpensesList.tsx:49-75 | the screen starts with empty lists, no selection, an empty search and the cleared criteria |
| ExpensesList.ExpensesScreen.ApplyFilters | components/EnhancedExpensesList.tsx:108-163 | the filtered list becomes the shown list of the expenses under the current search and criteria; nothing else changes |
| ExpensesList.ExpensesScreen.ToggleExpenseSelection | components/EnhancedExpensesList.tsx:190-196 | the id's membership in the selection flips and no other id's membership changes |
| ExpensesList.ExpensesScreen.EnterSelectionMode | components/EnhancedExpensesList.tsx:198-201 | selection mode is on with nothing selected |
| ExpensesList.ExpensesScreen.ExitSelectionMode | components/EnhancedExpensesList.tsx:203-206 | selection mode is off with nothing selected |
| ExpensesList.ExpensesScreen.HandleSaveFilter | components/EnhancedExpensesList.tsx:214-216 | the named criteria are appended to the saved filters |
| ExpensesList.ExpensesScreen.HandleLoadFilter | components/EnhancedExpensesList.tsx:218-221 | the loaded criteria replace the current ones |
| ExpensesList.ExpensesScreen.HandleDeleteSavedFilter | components/EnhancedExpensesList.tsx:223-225 | the saved filters with that name are removed, the others kept |
| AdvancedFilters.UpdateFilterChangesOneKey | components/AdvancedFilters.tsx:63-65 | updateFilter writes the new value under its key and leaves every other key as it was |
| AdvancedFilters.UpdateFilterSameValue | components/AdvancedFilters.tsx:63-65 | writing back a field's own value changes nothing |
| AdvancedFilters.FieldsDetermineRecord | components/AdvancedFilters.tsx:63-65 | two criteria records whose fields all agree are equal |
| AdvancedFilters.ToggleCategoryFacts | components/AdvancedFilters.tsx:67-72 | a present category is removed (the others stay in order), an absent one appended; no other field changes; toggling twice restores membership, and restores the record when the category was absent |
| AdvancedFilters.ToggleCurrencyFacts | components/AdvancedFilters.tsx:74-79 | the same for the currency chips |
| AdvancedFilters.SwitchFacts | components/AdvancedFilters.tsx:478-479 | the switches store `true` or `null`, never `false`, and show the position last set |
| AdvancedFilters.SaveFilterFacts | components/AdvancedFilters.tsx:96-102 | a filter is saved iff the name is not blank, under the trimmed name, and the dialog is reset and closed; otherwise nothing changes |
| Base.ToggleNoDuplicates | components/EnhancedExpensesList.tsx:190-196 | toggling keeps a duplicate-free selection duplicate-free |
| Base.ToggleAbsentTwice | components/AdvancedFilters.tsx:67-72 | toggling an absent element twice restores the list exactly |
| Base.ToggleTwiceMembers | components/EnhancedExpensesList.tsx:190-196 | toggling twice restores membership exactly |
| Base.KeepIsSubsequence | components/EnhancedExpensesList.tsx:114 | `filter` keeps order: its result is a subsequence of its input |
| Base.KeepKeep | components/EnhancedExpensesList.tsx:108-163 | two successive filters are one filter by the conjunction |
| Text.TrimProperties | components/ExpenseForm.tsx:70 | a trimmed string neither starts nor ends with white space, and it is empty iff the input is all white space |
| Text.TrimIdempotent | components/ExpenseForm.tsx:123 | trimming twice is trimming once |
| Text.ToLowerIdempotent | components/FriendsList.tsx:121 | lower-casing twice is lower-casing once |
| Text.ContainsAt | components/EnhancedExpensesList.tsx:115-118 | `includes` holds iff the needle occurs at some offset |
| Text.NumberOrZero | components/SplitExpenseModal.tsx:141 | `parseFloat(text) \|\| 0` is 0 exactly when `parseFloat` gives one of the falsy numbers, NaN or zero; any other result is the number `parseFloat` read |
| Text.ParseFloatNat | components/ExpenseForm.tsx:82 | `parseFloat` reads back the decimal text of every natural number |
| Text.NoDigitsIsZero | components/SplitExpenseModal.tsx:148 | text without any digit is NaN to `parseFloat`, and so counts as 0 |
| Dates.ShiftMonth | components/InteractiveCharts.tsx:104 | normalising an out-of-range month keeps the month count `year * 12 + month` and yields a month in 1..12 |
| Dates.DayZero | components/DataExport.tsx:65 | day 0 of a month is the last day of the previous month |
| Types.RecurrenceRoundTrip | types/index.ts:213-218 | reading back a recurrence's text gives the recurrence |
| Types.RecurringTypesAreTheRecurrences | types/index.ts:213-218 | the recurrence table lists exactly the four recurrences, in order |
| Types.SplitTypeRoundTrip | types/index.ts:84 | reading back a split type's text gives the split type |
| Types.ExpenseCategoriesFacts | types/index.ts:152-173 | 20 distinct categories, the first 'Food & Dining' |
| Types.CurrenciesFacts | types/index.ts:191-204 | 12 currencies with distinct codes; the symbols repeat (JPY and CNY share '¥', USD and MXN share '$') |
| Types.YearMonthTextShape | types/index.ts:50 | for years 0..9999 the month text of a date has the documented 'YYYY-MM' shape |
| Types.MonthTextIdentifiesMonth | components/InteractiveCharts.tsx:105-112 | for the years 0..9999 two dates have the same `toISOString().slice(0, 7)` iff they fall in the same year and month, so keying the buckets on (year, month) selects the same entries |
| Types.MonthTextLosesMonth | components/InteractiveCharts.tsx:105-112 | beyond the year 9999 every month of a year has the same `toISOString().slice(0, 7)` |
| Types.FindFriend | components/DebtTracker.tsx:90 | `find` returns the first friend with that id: no friend before it has that id; it returns none when no friend has it |
| Tally.AddToFacts | services/firestore.ts:477-480 | adding an amount to a category keeps the keys distinct, adds the key if new, raises only that category's total, and raises the grand total by the amount |
| Tally.CategoryTotalsCorrect | services/firestore.ts:477-480 | the totals map has distinct keys, exactly the categories used, each category's total is its sum, and the totals add up to the sum of all expenses |
| Sorting.SortDescCorrect | services/firestore.ts:482-485 | the sort yields a list ordered by key, largest first, with the same elements |
| Sorting.TopFacts | services/firestore.ts:484-485 | the first n of the sorted list: min(n, length) elements, sorted, all from the input, and none left out is larger than one kept |
| ExportReport.GenerateExportData | services/firestore.ts:453-499 | the built record is the export specification of the inputs |
| ExportReport.ExportedEntries | services/firestore.ts:461-469 | the exported expenses and income are exactly the entries dated within the range (both ends included), in their original order |
| ExportReport.ExportedTotals | services/firestore.ts:472-480 | the totals are the sums of the exported entries, net savings is income minus expenses, and the category totals add up to the expense total |
| ExportReport.TopCategoriesFacts | services/firestore.ts:482-485 | at most five top categories, largest first, each a used category with its sum; no category left out has a larger total than one shown |
| Charts.GetCategoryData | components/InteractiveCharts.tsx:78-98 | the loop and chain compute the pie-chart specification |
| Charts.CategoryEntryFacts | components/InteractiveCharts.tsx:82-93 | each slice is a used category with its sum, its percentage of the total, and the colour of its first-seen position modulo 6 |
| Charts.Label | components/InteractiveCharts.tsx:88-93 | the labelled list has one slice per entry, in order, each with the entry's name and value, the colour of its position modulo 6 and its percentage of the total |
| Charts.LabelPercentages | components/InteractiveCharts.tsx:93 | the slices' percentages add up to the percentage that the entries' sum is of the total |
| Charts.CategoryDataOrder | components/InteractiveCharts.tsx:95-96 | at most six slices, largest first; no category left out has a larger value than one shown |
| Charts.PercentagesSumTo100 | components/InteractiveCharts.tsx:93 | before the cut to six, the percentages of all categories add up to 100 |
| Charts.GetTrendData | components/InteractiveCharts.tsx:100-124 | six buckets, the j-th being the bucket specification for month j |
| Charts.BucketFacts | components/InteractiveCharts.tsx:103-113 | the buckets are consecutive months ending with the current one, and each holds the sums of the entries dated in its month |
| Charts.BucketsConsecutive | components/InteractiveCharts.tsx:103-104 | neighbouring buckets are neighbouring months |
| Charts.MaxValue | components/InteractiveCharts.tsx:171 | the maximum bounds every bar value and is one of them; there is none for no data |
| Charts.BarHeightsBounded | components/InteractiveCharts.tsx:171-190 | for non-negative data every bar is between 0 and 120, all are 0 when the maximum is not positive, and the tallest value reaches 120 |
| Charts.HeightBounds | components/InteractiveCharts.tsx:183 | a value between 0 and a positive maximum gets a bar between 0 and 120 high |
| Charts.HeightOfMax | components/InteractiveCharts.tsx:183 | the maximum value itself gets the full 120 |
| Charts.SumsNonNegative | components/InteractiveCharts.tsx:103-113 | sums of non-negative amounts are non-negative, so trend buckets of such entries meet the bar bounds |
| DataExport.DateRangeFacts | components/DataExport.tsx:54-81 | last month runs from the 1st of the previous month to the start of its last day; every other period ends now; an unknown period is this month; this month, this year and all time start where named |
| DataExport.DateRangeOrdered | components/DataExport.tsx:54-81 | for a calendar date, the this-month, last-month and unknown-period ranges are not empty |
| DataExport.LastDayLeftOut | components/DataExport.tsx:64-65 | an entry at noon on the last day of last month falls outside the last-month range |
| DataExport.LastMonthRangeCovers | components/DataExport.tsx:64-65 | the intended range covers every moment of the previous month |
| DataExport.GenerateCSV | components/DataExport.tsx:83-97 | the text built is the header line, then one line per expense, then one per income |
| DataExport.AppendExpenseRows | components/DataExport.tsx:87-89 | the expense loop appends one expense line per expense, in order |
| DataExport.AppendIncomeRows | components/DataExport.tsx:92-94 | the income loop appends one income line per income entry, in order |
| DataExport.CsvShape | components/DataExport.tsx:83-97 | 1 + expenses + income rows: the header first, expense rows starting 'Expense,' and income rows 'Income,', each ending in a line break |
| DataExport.CsvLineCount | components/DataExport.tsx:83-97 | when no field holds a line break, the CSV has exactly one line per row |
| DataExport.GeneratePDF | components/DataExport.tsx:99-116 | the text built is the seven head lines and one line per top category |
| DataExport.HeadLines | components/DataExport.tsx:101-110 | the head of the report has seven pieces, from the title to the 'TOP CATEGORIES' heading |
| DataExport.AppendCategories | components/DataExport.tsx:111-113 | the category loop appends one line per top category, in order |
| DataExport.PdfShape | components/DataExport.tsx:99-116 | the report starts with its title and ends its head with 'TOP CATEGORIES', then one line per top category in order |
| DataExport.ExportFileFacts | components/DataExport.tsx:129-145 | csv, pdf and json give the file name expenses_period.format; any other format is the CSV export |
| SocialFeed.PushExpenses | components/SocialFeed.tsx:79-93 | the expense loop appends one item per group expense |
| SocialFeed.PushSplits | components/SocialFeed.tsx:96-113 | the split loop appends one item per split |
| SocialFeed.PushGroups | components/SocialFeed.tsx:116-127 | the group loop appends one item per group |
| SocialFeed.LoadActivityFeed | components/SocialFeed.tsx:65-132 | the activities are the feed specification of the fetched lists |
| SocialFeed.ExpenseItemsMembers | components/SocialFeed.tsx:79-93 | an item comes from the expense loop iff it is the item of an expense that has a group |
| SocialFeed.SplitItemFacts | components/SocialFeed.tsx:96-113 | each split's item has the split's prefixed id, the total of its shares, its participant count, and one name per participant |
| SocialFeed.GroupItemFacts | components/SocialFeed.tsx:116-127 | each group's item has the group's prefixed id, its name and its creation time |
| SocialFeed.SourcesDistinct | components/SocialFeed.tsx:83 | the id prefixes keep items from different loops from sharing an id |
| SocialFeed.FeedFacts | components/SocialFeed.tsx:130-132 | at most twenty items, newest first, all from the built list; none left out is newer than one shown |
| SocialFeed.FeedSources | components/SocialFeed.tsx:76-132 | every item of the feed is a group expense's, a split's or a group's |
| SocialFeed.TimeAgoBands | components/SocialFeed.tsx:180-194 | under a minute is 'Just now', then whole minutes, hours and days, and from a week on the date itself |
| SocialFeed.ChipsFacts | components/SocialFeed.tsx:469-480 | at most four chips: the first three names, then '+k more' where k plus three is the number of names |
| FriendsList.InitialsOfName | components/FriendsList.tsx:377-384 | a name's initials are its word-initial characters uppercased, at most two, the first being the name's first non-space character |
| FriendsList.InitialsWithoutName | components/FriendsList.tsx:385-388 | without a name: the email's first character uppercased, or 'U' |
| FriendsList.Initials | components/FriendsList.tsx:376-389 | the initials are at most two characters |
| FriendsList.SplitJoin | components/FriendsList.tsx:380 | joining the pieces of `split(' ')` with spaces gives back the name |
| FriendsList.FilteredFriendsFacts | components/FriendsList.tsx:150-153 | the search keeps order and exactly the friends whose name or email contains the query in any letter case; an empty query keeps every friend with one of them |
| FriendsList.SendRequestFacts | components/FriendsList.tsx:111-124 | a blank input or no user does nothing; an input equal, ignoring letter case, to the user's email is refused; anything else is sent from the user, trimmed and lower-cased |
| FriendsList.SelfRequestSlipsThrough | components/FriendsList.tsx:114-117 | " a" from the user whose email is "a" is not refused and sends a request to the user's own address |
| FriendsList.SendRequestTrimmedFacts | components/FriendsList.tsx:111-124 | with the trimmed comparison no request goes to the user's own email, and the outcome agrees with the source for inputs without surrounding white space |
| Onboarding.ApplyChangesOneField | components/OnboardingFlow.tsx:51-53 | an update changes at most its own field, never the categories, and is idempotent |
| Onboarding.ToggleNotificationsTwice | components/OnboardingFlow.tsx:173 | the notification switch changes one field, and a second press undoes it |
| Onboarding.NextStep | components/OnboardingFlow.tsx:207-213 | Next advances one step and stays on the last step |
| Onboarding.PreviousStep | components/OnboardingFlow.tsx:215-219 | Back goes one step back and stays on the first step |
| Onboarding.NextPreviousInverse | components/OnboardingFlow.tsx:207-219 | Back undoes Next wherever Next moves, and Next undoes Back wherever Back moves |
| Onboarding.RunOfNexts | components/OnboardingFlow.tsx:207-213 | n presses of Next from step s reach step s + n, or the last step |
| Onboarding.RunBounds | components/OnboardingFlow.tsx:207-219 | a run of presses never moves further forward than its Next count, nor further back than its length |
| Onboarding.ProgressCount | components/OnboardingFlow.tsx:459-470 | exactly step + 1 progress segments are lit, the first always, the last only on the last step |
| Onboarding.PrimaryLabel | components/OnboardingFlow.tsx:487-508 | the primary button reads 'Get Started' iff on the last step |
| Onboarding.SecondaryLabel | components/OnboardingFlow.tsx:487-508 | the secondary button reads 'Skip' iff on the first step |
| Onboarding.Walkthrough.constructor | components/OnboardingFlow.tsx:42-49 | the walkthrough starts on step 0 with the default answers |
| Onboarding.Walkthrough.UpdateUserData | components/OnboardingFlow.tsx:51-53 | the answers take the update; the step is unchanged |
| Onboarding.Walkthrough.HandleNext | components/OnboardingFlow.tsx:207-213 | on the last step the answers are handed over and the step stays; otherwise the step advances; the answers are unchanged |
| Onboarding.Walkthrough.HandlePrevious | components/OnboardingFlow.tsx:215-219 | the step becomes the previous step; the answers are unchanged |
| PaymentRequests.CreateRequestFacts | components/PaymentRequests.tsx:144-184 | refused iff no recipient is chosen or the amount or message is blank; a created request is pending, from the user, in US dollars, with the message as typed, and 'Friend' names a recipient who is not a friend |
| PaymentRequests.Respond | components/PaymentRequests.tsx:186-192 | only statuses change: the list keeps its length, its ids in order and every field but the status; the requests with the id take the new status and every other request is unchanged |
| PaymentRequests.RespondGuarded | components/PaymentRequests.tsx:528-545 | with distinct ids, answering a pending request changes only that request, from pending to the chosen status |
| PaymentRequests.StatusColorFacts | components/PaymentRequests.tsx:204-215 | the three statuses get three different colours, none of them the default; any other text gets the default |
| PaymentRequests.RequestsScreen.constructor | components/PaymentRequests.tsx:52-63 | the screen starts with empty lists, an empty form and the form closed |
| PaymentRequests.RequestsScreen.EditRequest | components/PaymentRequests.tsx:616 | a form edit replaces the form and nothing else |
| PaymentRequests.RequestsScreen.HandleCreateRequest | components/PaymentRequests.tsx:144-184 | a created request goes to the front of the sent list and the form is emptied and closed; a refused one changes nothing |
| PaymentRequests.RequestsScreen.Sent | components/PaymentRequests.tsx:167-174 | the request is prepended, and the form emptied and closed |
| PaymentRequests.RequestsScreen.HandleRespondToRequest | components/PaymentRequests.tsx:186-202 | the received list takes the response, and the answered request has the chosen status |
| ExpenseForm.InitialForm | components/ExpenseForm.tsx:51-61 | the form starts with no tags, not recurring, monthly, in US dollars, dated today; without a prefill the text fields are empty and the category is the first |
| ExpenseForm.ResetIsInitial | components/ExpenseForm.tsx:106-120 | resetting restores the first state of a form without a prefill, with 'Food & Dining' |
| ExpenseForm.AddTagFacts | components/ExpenseForm.tsx:122-130 | a new, non-blank tag is appended trimmed and the input cleared; otherwise nothing changes; the list stays duplicate-free and trimmed |
| ExpenseForm.RemoveTagFacts | components/ExpenseForm.tsx:132-137 | removing a tag removes every copy, keeps the others in order, and keeps the list clean |
| ExpenseForm.SubmitFacts | components/ExpenseForm.tsx:69-92 | a blank description or amount is refused; otherwise the expense is sent iff there is a user, trimmed, with the user's id and the form's tags, and with a recurrence only when recurring |
| ExpenseForm.FormState.constructor | components/ExpenseForm.tsx:51-67 | the form state starts from the initial form with an empty tag input and no receipt |
| ExpenseForm.FormState.SetTagInput | components/ExpenseForm.tsx:65 | typing replaces the tag input only |
| ExpenseForm.FormState.AddTag | components/ExpenseForm.tsx:122-130 | the tags and input follow addTag; every other field is unchanged; the tags stay clean |
| ExpenseForm.FormState.RemoveTag | components/ExpenseForm.tsx:132-137 | the tag is removed; everything else is unchanged; the tags stay clean |
| ExpenseForm.FormState.ResetForm | components/ExpenseForm.tsx:106-120 | the form returns to its defaults with no receipt and an empty tag input |
| ExpenseForm.FormState.HandleSubmit | components/ExpenseForm.tsx:69-104 | a sent expense resets the form; a refused one leaves it as it was |

## Left out

- Firebase and the store calls (`getSplits`, `getExpenses`, `addExpense`, `createSplit`, `sendFriendRequest` and the rest) are left out. Their results are parameters, and a store write is assumed to succeed.
- The `useEffect` hooks, `Promise.all`, loading and refreshing flags, alerts, modals and all rendering are left out; they are React plumbing.
- The clocks (`Date.now()` and `new Date()`) are parameters, `nowMs` and `now`.
- `new Date(text)` is the parameter `parseDate`, because the runtime's date-text rules are not modelled.
- A number's `toString()` is the parameter `num` and `JSON.stringify` is the parameter `stringify`, because both follow the engine's double-to-text rules.
- Dates.MonthKey: the trend buckets key on (year, month). This agrees with the source's `toISOString().slice(0, 7)` for the years 0..9999 (`Types.MonthTextIdentifiesMonth`). For later years the source puts every month of a year under one key (`Types.MonthTextLosesMonth`), and the model does not.
- Dates.MonthStart and Dates.DayZero: `new Date(y, m, d)` reads a year argument of 0..99 as 1900..1999. Both functions take the year as given, so a clock before the year 100 is not modelled faithfully by Charts.GetTrendData or DataExport.GetDateRange.
- Time zones are not modelled. `toISOString` is taken on the local civil date, so a non-UTC zone that shifts the ISO day or month is not captured.
- Case mapping covers ASCII letters only.
- Amounts are exact reals. Binary floating-point rounding is not captured, and neither are `Infinity` in `parseFloat` or equal shares that do not add up exactly.
- `toLocaleDateString()` is modelled as en-US M/D/YYYY. The month names of the trend chart are the English abbreviations.
- DataExport.GenerateCSV: requires every date to be a calendar date (`DatesValid`). Stored dates always are.
- Charts.MaxValue: models `Math.max()` of no data, which is `-Infinity`, as `None`. A view that is empty already draws no bars.
- Sorting.SortDesc is a stable insertion sort on values. The in-place `Array.prototype.sort` is modelled as a function, and its stability is not proved.
- `Object.values` and `Object.entries` are taken in insertion order. Integer-like keys, which JavaScript lists first, are not modelled.
- PaymentRequests.RespondGuarded: requires distinct request ids. With a repeated id, every request with that id changes, as `Respond` states.
- The mock requests loaded by the payment screen, and its `loadData` fetch, are not modelled.
- The Skip button on the first onboarding step does nothing in the source, and the categories answer is never updated. The step screens' JSX is not modelled.
- The friend list's request acceptance and its loaders are calls into the store, and are left out.
- Budget `alertThreshold` is a documented percentage that no core code reads.
- ExpensesList.TotalExpenses has no contract of its own. It is the plain sum of the shown amounts (`Tally.SumExpenses`).
- The trend buckets carry their year and month beside the short month name, so the months can be stated.
- FriendsList.SendRequest models the check as written. The trimmed comparison, `SendRequestTrimmed`, is the corrected form under Findings.
- DataExport.GetDateRange models the last-month range as written. `LastMonthRange` is the corrected form under Findings.
- A non-creator's split gives every other unsettled participant a 'you owe' entry, even ones who are not the creator. The model reproduces this as written.

## Findings

| source | as written | input that shows it | evidently intended | confidence | as-written member | corrected member |
|---|---|---|---|---|---|---|
| components/FriendsList.tsx:114-117 | the self-request check compares the untrimmed input with the user's email | input " a" for a user whose email is "a": not refused, and a request is sent to "a" | compare the trimmed input, as the request itself uses | not executed | FriendsList.SelfRequestSlipsThrough | FriendsList.SendRequestTrimmedFacts |
| components/DataExport.tsx:64-65 | the last-month range ends at `new Date(y, m, 0)`, midnight at the start of the previous month's last day | an expense at noon on the previous month's last day is outside the range and is not exported | end the range at the end of that day | not executed | DataExport.LastDayLeftOut | DataExport.LastMonthRangeCovers |
