# Lab lending ledger, in Dafny

This project models the lending ledger behind the two lab-inventory forms of
the repository. The forms and files are left out. What is modelled is the
state each form changes and the reports it computes.

- `ledger.dfy`, module `StockLedger` (from `app.py`). The state is an
  inventory table (product to quantity) and an outgoing log of entries
  `(roll, name, product, date, status)`. The status is "Not Returned" or
  "Returned".
  - An issue is refused with "Not enough stock" unless the chosen product's
    quantity is positive. Otherwise it appends a "Not Returned" entry and
    takes one from the quantity.
  - A return flips the first "Not Returned" entry of that roll number and
    product to "Returned" and adds one back.
  - The dashboard shows the pending entries and a per-student history. Both
    are order-preserving filters of the log.
  - The pure functions `IssueStep` and `ReturnStep` specify the two forms.
    Class `Ledger` holds the two tables as fields, and its `Issue` and
    `Return` methods update them step by step, as the program does. Each
    method is proved to produce exactly its step function's new state.
- `register.dfy`, module `LabRegister` (from `streamlit_app.py`). There are
  two append-only logs: outgoing rows `(date, roll, name, product, qty)` and
  returned rows `(date, roll, product, qty)`. Class `Register` appends to
  them. The "Not Yet Returned" report works in four steps:
  - group the outgoing log by roll number, name and product, and sum;
  - group the returned log by roll number and product, and sum;
  - left-join the two on roll number and product, reading a missing return
    as 0;
  - keep the groups whose issued minus returned total is positive.
  Each step is a function. The groupings are recursive folds. They are
  proved equal to per-group totals read straight off the logs
  (`IssuedTotal`, `ReturnedTotal`).

Dates are opaque strings. The clock value that `streamlit_app.py` stamps on
each row is a parameter of the append methods. Quantities are unbounded
integers.

## Model

| member | source | states |
|---|---|---|
| `StockLedger.SeedInventory` | app.py:10-15 | the first-start inventory has the five seed products, all with non-negative quantities (Microscope 10) |
| `StockLedger.Filter` | app.py:97 | a boolean-mask selection keeps exactly the log entries that satisfy the mask, and no more entries than the log has |
| `StockLedger.FilterConcat` | app.py:97-107 | a mask selection of `a + b` is the selection of `a` followed by the selection of `b`, so kept entries stay in log order |
| `StockLedger.PendingView` | app.py:97 | the pending table holds exactly the log entries whose status is "Not Returned" |
| `StockLedger.History` | app.py:107 | a student's history holds exactly the log entries of that roll number, whatever their status |
| `StockLedger.ViewsFollowLogOrder` | app.py:97-107 | extending the log by one entry extends the pending view and each history by that entry exactly when it qualifies, at the end |
| `StockLedger.StudentPending` | app.py:64-65 | the incoming tab's list holds exactly the "Not Returned" entries of the entered roll number |
| `StockLedger.Products` | app.py:68-69 | the product list offered for return is the products of those entries, position by position |
| `StockLedger.ReturnChoices` | app.py:63-69 | products are offered only for a non-empty roll number with at least one pending entry, and the offered products are exactly those the roll number has pending, so every return the form can submit has a match |
| `StockLedger.FirstPendingIndex` | app.py:73-75 | the returned-to row is a pending entry of that roll number and product, and no earlier row is one |
| `StockLedger.CountAppend` | app.py:45-47 | appending an entry raises the count of its product and status by one and no other count |
| `StockLedger.CountFlip` | app.py:76 | flipping one pending entry to Returned moves one unit of its product from the pending count to the returned count |
| `StockLedger.IssueStep` | app.py:42-56 | an issue succeeds iff the product's quantity is positive; on failure nothing changes; on success exactly one "Not Returned" entry with the entered fields is appended, that product's quantity drops by 1 and every other quantity is unchanged |
| `StockLedger.ReturnStep` | app.py:71-83 | a return sets the first matching pending entry to Returned and changes no other entry or the log length; the product's quantity rises by 1 if it is in the inventory; no other quantity changes |
| `StockLedger.IssueConservesStock` | app.py:45-51 | an issue preserves, for every inventory product, quantity plus number of pending entries |
| `StockLedger.ReturnConservesStock` | app.py:73-80 | a return preserves, for every inventory product, quantity plus number of pending entries |
| `StockLedger.ApplyConservesStock` | app.py:42-83 | any operation a form can submit preserves quantity plus pending entries per product |
| `StockLedger.RunConservesStock` | app.py:42-83 | any sequence of submitted issues and returns preserves quantity plus pending entries per product |
| `StockLedger.RunKeepsStockNonNegative` | app.py:44-80 | from non-negative quantities, no sequence of issues and returns makes a quantity negative |
| `StockLedger.IssueThenReturn` | app.py:45-80 | an issue followed by a return of the same roll number and product restores the inventory and leaves one more Returned entry for that product and the same number pending |
| `StockLedger.ReturnOfOnlyPending` | app.py:63-76 | returning a roll number's only pending entry for a product leaves none, so the form no longer offers that product |
| `StockLedger.SeedScenario` | app.py:42-83 | on the seed inventory, issuing a microscope leaves 9 and one pending entry; returning it restores 10, marks it Returned and leaves nothing to return |
| `StockLedger.Ledger.Seeded` | app.py:10-22 | the first start holds the seed inventory and an empty log |
| `StockLedger.Ledger.Load` | app.py:16-25 | a later start holds the two tables as read |
| `StockLedger.Ledger.Issue` | app.py:42-56 | the in-place update yields exactly `IssueStep`'s new tables and outcome, conserves quantity plus pending and keeps quantities non-negative |
| `StockLedger.Ledger.Return` | app.py:71-83 | the in-place update yields exactly `ReturnStep`'s new tables, conserves quantity plus pending and keeps quantities non-negative |
| `LabRegister.IssuedTotalAppend` | streamlit_app.py:117 | appending an outgoing row of quantity q raises its own group's issued total by q and no other group's |
| `LabRegister.ReturnedTotalAppend` | streamlit_app.py:118 | appending a returned row of quantity q raises its own roll number and product's returned total by q and no other |
| `LabRegister.IssuedTotalOfStranger` | streamlit_app.py:117 | a group with no outgoing row has issued total 0 |
| `LabRegister.GroupIssued` | streamlit_app.py:117 | the issued summary has one key per group that occurs in the outgoing log, each mapped to the group's total quantity |
| `LabRegister.GroupReturned` | streamlit_app.py:118 | the returned summary, with a missing key read as 0, is each roll number and product's total returned quantity |
| `LabRegister.NotYetReturned` | streamlit_app.py:116-133 | an empty outgoing log gives "no records"; otherwise a group is reported iff it occurs in the outgoing log and its issued total minus the returned total of its roll number and product is positive, and its row shows both totals and that difference |
| `LabRegister.SharedReturnedTotal` | streamlit_app.py:118-125 | two reported groups with the same roll number and product are charged the same returned total, whatever their names |
| `LabRegister.AppendReturnLowersPending` | streamlit_app.py:118-129 | a new return of quantity q lowers the pending value of exactly its roll number and product's groups by q, so no pending value rises and no group enters the report |
| `LabRegister.AppendOutgoingRaisesOwnGroup` | streamlit_app.py:117-128 | a new outgoing row of quantity q puts its group in the outgoing log and raises that group's pending value by q and no other |
| `LabRegister.UnmatchedReturnIsIgnored` | streamlit_app.py:118-129 | a return whose roll number and product match no outgoing row leaves the report unchanged |
| `LabRegister.SeedTotals` | streamlit_app.py:15-26 | the seed outgoing log has only the Rahul/Microscope and Priya/Beaker groups; Rahul's pending is 0, Priya's issued total is 2 and nothing was returned for it |
| `LabRegister.SeedReport` | streamlit_app.py:15-26 | on the seed logs the report is exactly one row: Priya/Beaker with 2 issued, 0 returned and 2 pending |
| `LabRegister.Register.Seeded` | streamlit_app.py:15-26 | the first start holds the seed outgoing and returned rows |
| `LabRegister.Register.Load` | streamlit_app.py:31-34 | a later start holds both logs as read |
| `LabRegister.Register.AddOutgoing` | streamlit_app.py:60-70 | exactly one row with the entered fields, the given date and a quantity of at least 1 is appended; the returned log and earlier rows are unchanged; only that group's pending value rises, by the quantity |
| `LabRegister.Register.AddReturned` | streamlit_app.py:85-94 | exactly one row with quantity at least 1 is appended, with no check against the outgoing log; the outgoing log and earlier rows are unchanged; no group's pending value rises |

## Left out

- Rendering, tabs, forms and messages are not modelled. Only each form's outcome is kept: `IssueOutcome` for the outgoing form of `app.py`, and `ReturnChoices` for the "No pending items found" branch.
- Reading and writing the CSV files is I/O, so it is not modelled. Neither are the existence checks that decide between seeding and loading. `Seeded` and `Load` stand for the two cases.
- If a crash happens between the two file writes of an issue or a return, the log and the inventory disagree. This is not modelled.
- Streamlit re-runs the script on every interaction, and several users could use it at once. Both are left out; the model is one user acting in sequence.
- Dates are opaque strings. The date widget and the clock read are parameters.
- pandas type handling is not modelled. CSV reading can turn an empty field into a missing value, which `groupby` drops and `==` never matches. It can read a numeric-looking roll number as an integer. `fillna(0)` makes the returned column floating point. The model uses strings and integers throughout.
- The row order of the grouped report is not modelled. The report is a map keyed by roll number, name and product.
- `StockLedger.Ledger.Issue`: requires the product to be in the inventory. The form offers only inventory products. The inventory is a map, so product names are unique. Duplicate product rows in an edited inventory file are not modelled.
- `StockLedger.Ledger.Return`: requires a pending entry for the roll number and product. The form only offers such products (`ReturnChoices` proves this). The outcome of a return with nothing pending is therefore not modelled.
- `StockLedger.Run`: an operation that neither form could submit leaves the books unchanged. Examples are an issue of a product outside the inventory, or a return with nothing pending.
- `LabRegister.Register.Seeded`: `streamlit_app.py` seeds each log separately, depending on whether its own file exists. Only the case where both are missing is modelled.
