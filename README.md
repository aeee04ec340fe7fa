# Fiscal Wise core, modelled in Dafny

Fiscal Wise is a personal-finance web application. Users record income and
expense transactions, see a summary, a per-category breakdown and monthly
charts, zoom into a chart by dragging across it, sign in or sign up, and scan
receipts through a serverless function that asks a vision model to return
the receipt as JSON. This project models the logic behind those features and
proves what it promises:

- `types.dfy`: the transaction record, the months, and JavaScript truthiness
  of optional strings.
- `sums.dfy`: a generic sum over a sequence. It is proved to split over
  concatenation and to ignore order.
- `sorting.dfy`: the stable descending sort that `Array.prototype.sort`
  performs with a `(a, b) => key(b) - key(a)` comparator. It is proved to be
  a sorted permutation.
- `aggregation.dfy`: the transactions store's summary, its expenses by
  category and its twelve-month series. Each is stated against a reference
  sum. The loops are methods proved equal to those references. Proved
  relations: the summary ignores order and adds up over concatenation; the
  category amounts add up to the expenses; the month columns add up to the
  summary.
- `store_mapping.dfy`: the mappers between a store row and a transaction,
  with their round trip.
- `mock_data.dfy`: the mock generator, the duplicated summary and breakdown,
  the top-five pie data and the six-month window.
- `transactions_page.dfy`: the transactions page as a class whose list is
  updated by add, delete and clear.
- `interactive_chart.dfy`: the zoomable chart as a class. It holds the drag
  markers and the zoomed window, and computes the y-axis domain in a loop.
- `auth.dfy`: the login and sign-up validation rules, the tab switch after
  sign-up and the redirect of a signed-in user.
- `scan_receipt.dfy`: the receipt-scan function's ladder from request and
  upstream outcome to HTTP response. It also models the regular expression
  that cuts the JSON object out of the model's text.

Money is an integer number of cents. Chart values are reals. A date carries
three things: its timestamp, its local month and its ISO day. Four kinds of
outside input become parameters:

- every `Math.random()` value and every `uuidv4()` id;
- the current date;
- `JSON.parse`, a partial function returning `Option`;
- the e-mail check of the schema library, a predicate.

## Model

| member | source | states |
|---|---|---|
| Aggregation.OfKind | src/lib/db/transactions.ts:140-141 | the filter keeps exactly the transactions of the given type |
| Aggregation.AddAmountsOfKind | src/lib/db/transactions.ts:140-146 | reducing the filtered amounts from an accumulator adds that type's total to it |
| Aggregation.FinancialSummary | src/lib/db/transactions.ts:139-153 | income is the total of income amounts and expenses the total of expense amounts; balance is income minus expenses; no transactions give all zeros |
| Aggregation.SummaryIgnoresOrder | src/lib/db/transactions.ts:139-153 | two lists with the same transactions in any order have the same summary |
| Aggregation.SummaryOfAppend | src/lib/db/transactions.ts:139-153 | the summary of a concatenation is the field-wise sum of the summaries |
| Aggregation.SummaryOfOneMore | src/lib/db/transactions.ts:139-153 | one more transaction moves only the total of its own type, and by its amount |
| Aggregation.KindTotalOfKind | src/lib/db/transactions.ts:140-146 | filtering by a type first does not change that type's total |
| Aggregation.TallyOfExpenses | src/lib/db/transactions.ts:157-164 | after the accumulation, the record has one key per expense category, with no repeats, holding that category's total |
| Aggregation.CategoryTotalOfAbsent | src/lib/db/transactions.ts:157-164 | a category with no expense totals zero |
| Aggregation.EntriesOfTally | src/lib/db/transactions.ts:166-167 | the entries name each category once, each with its total, and every category has an entry |
| Aggregation.CategoryTotalOfExpenses | src/lib/db/transactions.ts:159-160 | filtering to expenses does not change any category total |
| Aggregation.BreakdownIsPerCategoryTotals | src/lib/db/transactions.ts:156-169 | the breakdown is sorted by amount, largest first; it names every expense category once, with that category's total, and nothing else |
| Aggregation.BreakdownEntries | src/lib/db/transactions.ts:156-169 | every breakdown entry is an expense category carrying that category's total |
| Aggregation.BreakdownNamesDistinct | src/lib/db/transactions.ts:156-169 | no category appears twice in the breakdown |
| Aggregation.BreakdownCovers | src/lib/db/transactions.ts:156-169 | every expense category appears in the breakdown |
| Aggregation.EntriesSumToTotal | src/lib/db/transactions.ts:157-167 | the entries of the record built from expenses sum to the expense total |
| Aggregation.EntriesStep | src/lib/db/transactions.ts:163 | one accumulation step raises the sum of the entries by the transaction's amount |
| Aggregation.BreakdownSumsToExpenses | src/lib/db/transactions.ts:156-169 | the category amounts add up to the summary's expenses |
| Aggregation.ExpensesByCategory | src/lib/db/transactions.ts:156-169 | the loop over the expenses, then the entries and the sort, yields exactly the breakdown described above |
| Aggregation.OneBucketPerTransaction | src/lib/db/transactions.ts:188-197 | a transaction adds its amount to its own month only, into income or expenses by its type |
| Aggregation.SeriesIgnoresOrder | src/lib/db/transactions.ts:172-204 | the monthly series does not depend on the order of the transactions |
| Aggregation.SeriesColumnTotals | src/lib/db/transactions.ts:172-204 | the twelve incomes sum to the summary's income and the twelve expenses to its expenses |
| Aggregation.SpendingTrendData | src/lib/db/transactions.ts:172-204 | twelve points named Jan to Dec in order; each holds its month's income and expense totals, across all years |
| Sorting.InsertDesc | src/lib/db/transactions.ts:168 | inserting into a descending list keeps it descending and adds exactly one element |
| Sorting.SortDesc | src/lib/db/transactions.ts:168 | the sort returns a permutation of its input in non-increasing key order |
| Sorting.PermutationKeepsDistinct | src/lib/db/transactions.ts:166-168 | reordering a list without repeats leaves it without repeats |
| Sums.SumAppend | src/lib/db/transactions.ts:142 | a sum over a concatenation is the sum of the two sums |
| Sums.SumPermutation | src/lib/db/transactions.ts:142 | a sum does not depend on order |
| StoreMapping.MapDbToTransaction | src/lib/db/transactions.ts:20-31 | each row field lands in its renamed transaction field; the date is the parsed row date |
| StoreMapping.MapTransactionToDb | src/lib/db/transactions.ts:34-45 | a non-empty id is kept and a missing or empty one is replaced by a fresh id; the date is the ISO day of the given date, or of today; the other fields are copied under their column names |
| StoreMapping.RoundTrip | src/lib/db/transactions.ts:20-45 | writing a transaction and reading the stored row back gives the same transaction, except for a fresh id when its id was empty, and the same calendar day |
| MockData.MockTransaction | src/lib/mock-data.ts:42-64 | income exactly when the roll exceeds 0.7; the category comes from that type's list; income is 1000.00 to 3000.00 and an expense 10.00 to 210.00; the description is "Received on" or "Spent on" plus the category |
| MockData.MockBatch | src/lib/mock-data.ts:38-65 | one transaction per draw, each with a category of its type |
| MockData.GenerateMockTransactions | src/lib/mock-data.ts:6-69 | count transactions, or none for a negative count; newest first; exactly the generated transactions; categories valid for their type |
| MockData.FinancialSummary | src/lib/mock-data.ts:72-86 | the same totals and balance as the store's summary |
| MockData.ZeroingStep | src/lib/mock-data.ts:95-100 | zeroing a missing or zero entry and then adding the amount is the same step as the store's `(acc[c] || 0) + amount` |
| MockData.ExpensesByCategory | src/lib/mock-data.ts:89-107 | the reduce that zeroes a missing entry yields exactly the store's category breakdown |
| MockData.ExpenseBreakdownData | src/lib/mock-data.ts:144-152 | the first min(5, n) categories of the breakdown, renamed to name and value |
| MockData.TopFiveAreLargest | src/lib/mock-data.ts:144-152 | the slices are largest first, and no category left out is larger than a slice |
| MockData.Reverse | src/lib/mock-data.ts:134 | the reversal puts element i at position n-1-i |
| MockData.LastSixMonths | src/lib/mock-data.ts:126-134 | six months, ending with the current month, each the successor of the one before, wrapping December to January |
| MockData.MockTrendData | src/lib/mock-data.ts:136-140 | six points named after the window's months, ending with the current month; income is $2000 to $4999 and expenses $1000 to $2999, whole dollars: in cents, income in [200000, 500000) and expenses in [100000, 300000), both multiples of 100 |
| MockData.TrendIncome | src/lib/mock-data.ts:138 | a drawn income of $2000 to $4999 in whole dollars, as cents |
| MockData.TrendExpenses | src/lib/mock-data.ts:139 | a drawn expense total of $1000 to $2999 in whole dollars, as cents |
| MockData.TrendPoints | src/lib/mock-data.ts:136-140 | one point per month name, in order, each with totals in those ranges |
| TransactionsPage.NewTransaction | src/pages/Transactions.tsx:17-24 | the new record has the fresh id and the form's date, type, category, amount and description; it has no merchant or origin |
| TransactionsPage.WithoutId | src/pages/Transactions.tsx:40 | the filter keeps exactly the elements whose id differs, and never lengthens the list |
| TransactionsPage.WithoutIdAppend | src/pages/Transactions.tsx:40 | deleting distributes over concatenation, so the kept elements keep their order |
| TransactionsPage.WithoutAbsentId | src/pages/Transactions.tsx:40 | deleting an id nobody carries changes nothing |
| TransactionsPage.WithoutIdIdempotent | src/pages/Transactions.tsx:40 | deleting the same id twice is deleting it once |
| TransactionsPage.DeleteUndoesAdd | src/pages/Transactions.tsx:26-40 | adding under a fresh id and then deleting that id restores the list |
| TransactionsPage.Page.constructor | src/pages/Transactions.tsx:13 | the page starts with the twenty transactions generated from the first twenty draws, newest first, each with a category of its type |
| TransactionsPage.Page.HandleFormSubmit | src/pages/Transactions.tsx:16-29 | the new transaction is put in front of the old list, so Clear All becomes enabled |
| TransactionsPage.Page.HandleEditTransaction | src/pages/Transactions.tsx:31-37 | only a notice with the id in its text; the list is untouched |
| TransactionsPage.Page.HandleDeleteTransaction | src/pages/Transactions.tsx:39-45 | the list becomes the old list without the id, and no element with that id remains; Clear All is then disabled exactly when every old element carried that id |
| TransactionsPage.Page.HandleClearAll | src/pages/Transactions.tsx:47-53 | the list becomes empty, which disables the Clear All button (`disabled={transactions.length === 0}`) |
| TransactionsPage.WithoutIdEmpty | src/pages/Transactions.tsx:40 | deleting an id leaves nothing exactly when every element carries that id |
| InteractiveChart.JsSlice | src/components/ui/interactive-chart.tsx:47 | within bounds, the slice is exactly the sub-sequence; it is never longer than its input |
| InteractiveChart.NumbersOfMembers | src/components/ui/interactive-chart.tsx:53-57 | a value is collected for a key exactly when some item holds it as a number under that key |
| InteractiveChart.SeriesValuesMembers | src/components/ui/interactive-chart.tsx:51-59 | a value is collected exactly when some configured key other than name and date holds it in some item of the slice |
| InteractiveChart.Min | src/components/ui/interactive-chart.tsx:63 | the result is one of the values and no value is smaller |
| InteractiveChart.Max | src/components/ui/interactive-chart.tsx:64 | the result is one of the values and no value is larger |
| InteractiveChart.FindIndex | src/components/ui/interactive-chart.tsx:87-88 | the index of the first point carrying the label |
| InteractiveChart.Selection | src/components/ui/interactive-chart.tsx:79-98 | an accepted selection spans at least three points and lies within the data |
| InteractiveChart.SelectionEnds | src/components/ui/interactive-chart.tsx:79-98 | a selection needs both markers set; its two ends are the two marked points; it is refused exactly when the marked points are less than two positions apart |
| InteractiveChart.SelectionIgnoresDirection | src/components/ui/interactive-chart.tsx:86-91 | dragging right to left selects the same range as dragging left to right |
| InteractiveChart.Chart.constructor | src/components/ui/interactive-chart.tsx:40-43 | no markers; the zoomed data is all the data; not zoomed |
| InteractiveChart.Chart.AxisYDomain | src/components/ui/interactive-chart.tsx:46-67 | [0, 0] when the slice holds no number; otherwise the smallest value minus the offset, floored at 0, and the largest value plus the offset |
| InteractiveChart.Chart.HandleMouseDown | src/components/ui/interactive-chart.tsx:69-72 | a present label becomes the left marker; otherwise nothing changes |
| InteractiveChart.Chart.HandleMouseMove | src/components/ui/interactive-chart.tsx:74-77 | while a left marker is set, a present label becomes the right marker |
| InteractiveChart.Chart.HandleMouseUp | src/components/ui/interactive-chart.tsx:79-114 | both markers are always cleared; an accepted selection zooms to the points from its left to its right end inclusive and is reported to a listener; otherwise the zoom is unchanged |
| InteractiveChart.Chart.HandleReset | src/components/ui/interactive-chart.tsx:116-119 | all data is shown again and the chart is not zoomed |
| InteractiveChart.Chart.DisplayData | src/components/ui/interactive-chart.tsx:121 | the zoomed window, of at least three points, while zoomed, else all data; always a run of consecutive points |
| Auth.JsLength | src/pages/Auth.tsx:33 | the length the `min` rules test lies between the character count and twice it |
| Auth.JsLengthOfBmp | src/pages/Auth.tsx:33 | for text within the Basic Multilingual Plane that length is the character count |
| Auth.AstralPasswordAccepted | src/pages/Auth.tsx:31-34 | a password of three emoji has length 6 and is accepted with a valid e-mail |
| Auth.LoginIssues | src/pages/Auth.tsx:31-34 | a login form passes exactly when the e-mail is valid and the password has at least 6 UTF-16 code units; each failed rule is reported under its field |
| Auth.SignupIssues | src/pages/Auth.tsx:36-42 | sign-up also needs a display name of at least 2 UTF-16 code units and a confirmation of at least 6 that equals the password; "Passwords do not match" is reported on the confirmation, last, exactly when they differ; the login issues come first |
| Auth.SignupOnlyIssues | src/pages/Auth.tsx:36-42 | the rules sign-up adds pass exactly when the display name and confirmation are long enough and the passwords match; the mismatch, when present, is the last issue |
| Auth.SignupImpliesLogin | src/pages/Auth.tsx:36 | every accepted sign-up carries an accepted login |
| Auth.MismatchAlone | src/pages/Auth.tsx:39-42 | with every field rule met but different passwords, the mismatch is the only issue |
| Auth.AuthPage.constructor | src/pages/Auth.tsx:48 | the page opens on the login tab |
| Auth.AuthPage.RedirectIfSignedIn | src/pages/Auth.tsx:54-58 | a signed-in user is always sent to "/"; otherwise the location is unchanged |
| Auth.AuthPage.SelectTab | src/pages/Auth.tsx:114-117 | the chosen tab becomes active |
| Auth.AuthPage.SubmitLogin | src/pages/Auth.tsx:78-88 | sign-in is attempted only for a valid form; a failure yields a "Login failed" toast with the error's message; the tab never changes |
| Auth.AuthPage.SubmitSignup | src/pages/Auth.tsx:90-102 | sign-up is attempted only for a valid form; success switches to the login tab; failure yields a "Signup failed" toast and leaves the tab unchanged |
| ScanReceipt.Decimal | supabase/functions/scan-receipt/index.ts:82 | the status is written as decimal digits without leading zeros |
| ScanReceipt.DecimalRoundTrip | supabase/functions/scan-receipt/index.ts:82 | reading those digits back gives the status |
| ScanReceipt.FirstIndex | supabase/functions/scan-receipt/index.ts:92 | the first occurrence of a character, or none exactly when it does not occur |
| ScanReceipt.LastIndex | supabase/functions/scan-receipt/index.ts:92 | the last occurrence of a character, or none exactly when it does not occur |
| ScanReceipt.JsonSpan | supabase/functions/scan-receipt/index.ts:92-97 | the match runs from the first "{" to the last "}"; it is the leftmost match and the longest one from there; there is none exactly when no "{" has a "}" after it |
| ScanReceipt.Handle | supabase/functions/scan-receipt/index.ts:12-123 | OPTIONS gets "ok" first; a missing key gives 500 before the body is read; no image gives 400 "No image provided"; any upstream failure gives 500; no JSON span or a failed parse gives 422 with the full model text; otherwise 200 with the parsed data; every response carries the CORS headers |
| ScanReceipt.Relay | supabase/functions/scan-receipt/index.ts:79-123 | once the upstream call is made: a failed call or an unreadable reply gives 500, a non-ok status with a readable body reports "DashScope API error: " and the status in decimal; 422 with the model text exactly when no `{...}` span exists or it does not parse; otherwise 200 with the data parsed from a `{...}` span |

## Left out

- Network and store calls: fetching, adding, updating, deleting and importing transactions against the store (`src/lib/db/transactions.ts:48-136`) are asynchronous database I/O. Only their pure mappers and the aggregation are modelled.
- Trend and percent-change logic: `getFinancialTrends` in `src/lib/db/transactions.ts` is not part of this model; no definition of it is available.
- `generateMockInsights` (`src/lib/mock-data.ts:110-123`) shuffles with a random comparator; its result depends on the engine's sort algorithm.
- Floating point: amounts are integers of cents and chart values are reals; rounding errors of JavaScript numbers are not modelled.
- MockData.ToCents: `parseFloat(x.toFixed(2))` is modelled as rounding half up to the cent; binary floating-point effects on `toFixed` are not captured.
- Dates: how a timestamp maps to a local month and an ISO day (calendar and time zone) is not modelled; the month and the day come with the date.
- MockData.GenerateMockTransactions: the dates, one per day counting back from today, are inputs with the draws. The model does not derive them from the clock.
- Aggregation.ExpensesByCategory: `Object.entries` lists integer-like keys first, in ascending numeric order; the model keeps every key in first-insertion order, which is what it does for all other names.
- Aggregation.ExpensesByCategory: the record `{}` is modelled as a map without the keys it inherits from `Object.prototype`. For a category named `__proto__` the source drops the amount, and for inherited names such as `constructor`, `toString`, `valueOf` or `hasOwnProperty` it builds a string amount that makes the sort comparator NaN. The model treats those names like any other, so Aggregation.BreakdownIsPerCategoryTotals and Aggregation.BreakdownSumsToExpenses describe the source only for categories that are not inherited property names.
- MockData.ExpensesByCategory: `Object.entries` lists integer-like keys first, in ascending numeric order, here as in the store version; the model keeps every key in first-insertion order.
- MockData.ExpensesByCategory: the same record, with the same inherited-key behaviour for `__proto__`, `constructor`, `toString` and the like, is modelled without `Object.prototype` keys.
- InteractiveChart.Selection: requires each set marker to name a point of the data, as markers set from the chart's own labels do.
- InteractiveChart.Chart.HandleMouseUp: requires both markers to name points of the data; the `findIndex` result of -1 for an unknown label is not modelled.
- InteractiveChart.Chart.AxisYDomain: only fields whose value is a number are modelled (`typeof item[key] === 'number'`); the domain it computes is unused by the caller, as in the source.
- InteractiveChart.Chart: React batches state updates and re-renders between events; each handler is modelled as an atomic update of the fields. The zoomed data is not refreshed when the `data` prop changes.
- TransactionsPage.Page.HandleDeleteTransaction: the "Transaction Deleted" toast is not modelled, and neither is the toast of HandleClearAll.
- TransactionsPage.Page.HandleFormSubmit: the form's amount string is given already parsed, in cents (`parseFloat` is not modelled); the resolved promise is not modelled.
- Auth: the e-mail format check of the schema library is a parameter; sign-in and sign-up are represented by the error they return; the toast's "destructive" variant is not modelled.
- ScanReceipt.Handle: `JSON.parse` is a parameter; the request prompt and the upstream call's payload are not modelled; a model reply whose `content` is not a string is not modelled; console logging is left out.
- StoreMapping.RoundTrip: keeps the calendar day only under the assumption that parsing the stored ISO day reports that same day (`new Date("YYYY-MM-DD")` is UTC midnight, which local time may place on another day).
