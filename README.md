# Household dashboard: contribution sums and loan checklist

This project models the logic of `app.py`, a one-page household budget
dashboard. The page reads a shared spreadsheet of transactions. Each row has
an actor (주체), a category (구분), an item (항목), a status (상태) and an
amount (금액). The page then computes:

- the amount column coerced to numbers; a cell that is not a number becomes 0 and its row is kept;
- each spouse's contributions: the sum of amounts over rows whose actor is exactly 나 (me) or 와이프 (wife) and whose category contains 각출 (contribution);
- the joint total, and each spouse's difference from their own target (1,580,000 and 1,220,000 won);
- the progress toward the joint target of 2,800,000 won, capped at 1;
- two checklist flags: the mortgage payment (an item containing 주택담보대출) and the credit-loan payment (an item containing 신용대출) count as done when some such row has status exactly 완료 (done).

Files:

- `wrappers.dfy`: `Option`, used for an amount cell that may not read as a number.
- `text.dfy`: literal substring search (`Contains`), proved equal to "there is a position where the pattern occurs".
- `frame.dfy`: the small part of a pandas table the script uses. It has rows, boolean masks (`==` on a column, `str.contains`, `&`), `df[mask]` (`Where`), `df[mask]['금액'].sum()` (`MaskedSum`) and `not df[mask].empty` (`AnyWhere`). It also holds general facts about masked sums: additivity, order independence, and that only the selected rows matter.
- `dashboard.dfy`: the script's own constants, coercion, sums, progress ratio, flags and the combined `Summary`, with the properties the page relies on.

`app.py` has no timestamp parsing, no periods, no expenditure totals and no
reserve balance. Its keywords and targets are fixed literals, and no row is
ever dropped.

## Model

| member | source | states |
|---|---|---|
| Text.Contains | app.py:27 | `str.contains` with a literal pattern: true exactly when the pattern occurs at some position of the cell |
| Frame.WhereKeepsExactly | app.py:27 | `df[mask]` keeps exactly the rows of the table that satisfy the mask, each as many times as the table holds it |
| Frame.AnyWhere | app.py:47 | `not df[mask].empty` is true exactly when some row satisfies the mask |
| Frame.MaskedSumAppend | app.py:27 | a masked sum over two stacked tables is the sum of the two masked sums |
| Frame.MaskedSumUnfold | app.py:27 | the first row adds its amount to a masked sum exactly when the mask selects it |
| Frame.MaskedSumIgnoresRow | app.py:27 | inserting a row that the mask rejects, or whose amount is 0, leaves a masked sum unchanged |
| Frame.MaskedSumOfNoMatch | app.py:27 | a mask that selects no row sums to 0 |
| Frame.MaskedSumAgree | app.py:27 | tables whose rows are selected at the same positions, with equal amounts there, have equal masked sums |
| Frame.MaskedSumPermutation | app.py:27 | a masked sum does not depend on the order of the rows |
| Dashboard.LoadData | app.py:11 | coercion keeps every row in place with the same text columns; a readable amount keeps its value, an unreadable or missing one becomes 0 |
| Dashboard.LoadDataRoundTrip | app.py:11 | coercion of a sheet whose amounts are all numbers gives back exactly those rows |
| Dashboard.LoadDataAppend | app.py:11 | coercion works row by row: a row's result does not depend on the other rows |
| Dashboard.LoadDataInsert | app.py:11 | inserting a raw row inserts its coerced form at the same place and leaves every other row as it was |
| Dashboard.ActualIsContribution | app.py:27-28 | `actual_me` / `actual_wife` is the sum of amounts over exactly the rows whose actor equals that person and whose category contains 각출 |
| Dashboard.ContributionIgnoresRow | app.py:27-28 | a row failing either test, inserted anywhere, does not change that person's sum |
| Dashboard.TotalIsJointContribution | app.py:29 | `total_actual` is the sum over every row of either spouse whose category contains 각출, each row counted once |
| Dashboard.TotalIgnoresRow | app.py:27-29 | a row of any other actor, or one whose category lacks 각출, changes neither sum nor the total |
| Dashboard.TotalIgnoresOrder | app.py:27-29 | the sums and the total do not depend on the order of the sheet's rows |
| Dashboard.SumsIgnoreItemAndStatus | app.py:27-29 | the sums read only the actor, category and amount columns |
| Dashboard.ProgressRatio | app.py:38 | the ratio never exceeds 1; it is 0 when the target is 0 or negative; for a positive target it is 1 exactly when the total reaches the target, otherwise ratio × target = total, and it is negative exactly when the total is |
| Dashboard.LoanDone | app.py:47 | `loan_done` is true exactly when some row's item contains 주택담보대출 and its status is exactly 완료; false on an empty table |
| Dashboard.MyLoanDone | app.py:48 | `my_loan_done` is the same test with 신용대출 |
| Dashboard.FlagsIgnoreOtherColumns | app.py:47-48 | the flags read only the item and status columns, so amounts, actors and categories never affect them |
| Dashboard.FlagsAreIndependent | app.py:47-48 | each flag can be true while the other is false |
| Dashboard.Summarize | app.py:11-48 | each spouse's sum is the row-by-row sum of their 각출 rows of the coerced sheet; total = me + wife; each shown difference is actual − target, so it is at least 0 exactly when that person met their own target; each flag is true exactly when some sheet row has the loan keyword in its item and status 완료; progress ≤ 1, and it is 1 exactly when the two differences add up to at least 0 (so when both targets are met); below 1 it is total / 2,800,000; an empty sheet gives zero sums, full shortfalls, progress 0 and both flags false |
| Dashboard.FullProgressDespiteShortfall | app.py:22-38 | progress can reach 1 while one spouse is still short of their own target |
| Dashboard.UnreadableAmountAddsNothing | app.py:11-29 | a row with an unreadable amount is kept at its place with amount 0 and changes no sum |
| Dashboard.UnreadableAmountStillMarksLoan | app.py:11-47 | a paid mortgage row with an unreadable amount still marks the mortgage done |

## Left out

- Fetching the sheet over HTTP (`pd.read_csv` of the published CSV address, app.py:5 and app.py:9) is I/O. The model starts from the rows already read.
- pandas' numeric grammar (what `to_numeric` accepts as a number) is library internals. A raw amount cell is the result of that reading: `Some(n)` or `None`.
- Amounts are whole won (`int`). Fractional amounts and float rounding in the sums and in the progress ratio (the model divides exact `real`s) are not modelled.
- Missing (NaN) cells in the text columns are not modelled: every text cell is a string. A NaN category or item inside a mask is pandas behaviour with no counterpart here.
- A missing column (a `KeyError`) and every other failure go to the catch-all handler that shows an error banner (app.py:16, app.py:62-64). That handler is not modelled.
- All Streamlit rendering is presentation: the page setup, title, columns, metrics, progress bar, badges and table (app.py:14, 19, 32-44, 50-60). This includes the descending sort of the displayed table and the `:,.0f` / `.1f%` number formatting. `st.progress` rejects values below 0, so a negative total would reach the error banner. The model states only that the ratio is then negative.
- `str.contains` treats its pattern as a regular expression by default. The four patterns the script uses contain no metacharacters, so the model matches them literally.
