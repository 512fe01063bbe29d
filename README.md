# Billing-App in Dafny

A model of the core of Billing-App, a small billing application. It has two parts.

- A React client keeps a four-field bill form (name, contact, email, amount). It validates the form, posts bills to a billing server, lets a row of the bill table be edited, and charts the total amount per customer name.
- A Flask server keeps customers and their bills in two MySQL tables.

The project models:

- **the dashboard form**: `Dashboard.DashboardView` holds `formData`, `editingBillId` and `error`, with `handleChange`, `addBill` (the four validation rules, checked in order), `updateBill` (only the empty-field check) and the Edit button;
- **the older billing page** in `App.js`: `App.BillingRecordsView`, with no validation, posting to a fixed server address;
- **the chart aggregation** `chartData`, shared by both views: `Chart.ChartData` is a loop proved against the fold `Chart.Totals`. `Totals` is proved to have one entry per distinct name, holding that name's sum, and to preserve the grand total. The reducer as written is also modelled, including its inherited-property behaviour (see Findings);
- **the request wrapper** `ApiService.makeRequest`: the URL, method default, header merge, bearer token, body encoding and response classification, and the endpoint and method of every wrapper;
- **the four bill routes of the server**: `get_bills`, `add_bill`, `update_bill` and `delete_bill`:
  - the tables are a `Server.Tables` value;
  - each route's effect is a function (`AfterAdd`, `AfterUpdate`, `AfterDelete`);
  - the class `Server.BillingDb` runs the statements in the code's order and is proved to reach that state, with the code's status codes;
  - table invariants (`Valid`) are preserved, and the join `get_bills` returns is characterised after each write;
- **`Routes`**: a client wrapper's method and path reach exactly the server route that serves it.

Outside inputs become parameters:

- the outcome of each server call: `addFailure` and `updateFailure` in the dashboard, `postSucceeded` and `putSucceeded` in `App.js`, and `dbUp` (whether the database connection opens) on the server;
- the signed-in Firebase user (`Api.Session`);
- `fetch` (a function `Request -> Transport`);
- the environment variable `REACT_APP_API_URL`;
- the time the database stamps a new bill with (`now`).

Where the client's validation and its two views differ, the model follows the code. `updateBill` checks only that no field is empty; it does not apply the format rules `addBill` applies.

## Model

| member | source | states |
|---|---|---|
| Records.Form.With | client/src/components/dashboard/Dashboard.js:84-86 | the named field takes the new value; the other three keep theirs |
| Records.WithOwnValueIsIdentity | client/src/components/dashboard/Dashboard.js:84-86 | writing a field's own value back leaves the form unchanged |
| Records.FormsAgreeingOnFieldsAreEqual | client/src/components/dashboard/Dashboard.js:13 | a form is determined by its four fields |
| Records.Form.AllFilled | client/src/components/dashboard/Dashboard.js:90 | defines the empty-field check: no field is the empty string, the only falsy string |
| Records.IsEditing | client/src/components/dashboard/Dashboard.js:143 | defines the truthiness of `editingBillId`, used by both views (also client/src/App.js:47 and the button at client/src/components/dashboard/Dashboard.js:332): `null` and the id 0 are falsy |
| Records.Bill.AsForm | client/src/components/dashboard/Dashboard.js:380-384 | the form copied from a row holds the row's name, contact, email and amount |
| Records.ParseAmount | client/src/components/dashboard/Dashboard.js:248 | defines `parseFloat(amount) \|\| 0` on integers: leading JavaScript white space is skipped, then the signed number is read |
| Records.ParseSigned | client/src/components/dashboard/Dashboard.js:248 | defines the signed read: an optional '-' or '+', then the value of the leading run of digits; no digit gives 0 |
| Records.ParseAmountSkipsWhitespace | client/src/components/dashboard/Dashboard.js:248 | white space before the amount does not change it |
| Records.ParseAmountOfDigits | client/src/components/dashboard/Dashboard.js:248 | `parseFloat(amount) \|\| 0` of a digit string is the number it denotes |
| Records.ParseAmountPadded | client/src/components/dashboard/Dashboard.js:248 | leading white space is skipped, an optional minus sign negates, and a suffix that does not start with a digit, '.', 'e' or 'E' is not read |
| Records.ParseAmountWithoutDigits | client/src/components/dashboard/Dashboard.js:248 | a string without any digit contributes 0 (NaN \|\| 0) |
| Records.AmountExamples | client/src/components/dashboard/Dashboard.js:248 | "100" gives 100, "250" gives 250, "" and "abc" give 0 |
| Text.Show | client/src/api.js:99 | the numeral written for an id is a non-empty digit string with no leading zero |
| Text.ValueOfShow | client/src/api.js:99 | reading back the numeral written for an id gives the id |
| Text.ValuePositiveIff | client/src/components/dashboard/Dashboard.js:116 | a digit string denotes a positive number iff some digit is not '0' |
| Text.LeadingValueOfDigits | client/src/components/dashboard/Dashboard.js:248 | the digit reader, run over a digit string, shifts the accumulator by the string's length and adds the string's value |
| Text.LeadingValueStops | client/src/components/dashboard/Dashboard.js:248 | the digit reader stops at the first non-digit |
| Text.IsJsWhitespace | client/src/components/dashboard/Dashboard.js:94 | defines the JavaScript white-space class: the `\s` of the name rule, which is also the set `parseFloat` skips at line 248 |
| Text.LeadingValue | client/src/components/dashboard/Dashboard.js:248 | defines `parseFloat`'s reading of decimal digits, left to right, until the first non-digit |
| Text.DigitRun | client/src/api.js:46 | the length of the leading run of digits: all digits up to it, a non-digit after it |
| Text.DigitRunStops | client/src/api.js:46 | the digit run of digits followed by a non-digit is exactly those digits |
| Validation.NamePattern | client/src/components/dashboard/Dashboard.js:94 | defines `/^[A-Za-z\s]{3,}$/`: at least three characters, each an ASCII letter or JavaScript white space |
| Validation.ContactPattern | client/src/components/dashboard/Dashboard.js:95 | defines `/^\d{10}$/`: exactly ten ASCII digits |
| Validation.EmailPattern | client/src/components/dashboard/Dashboard.js:96 | defines the Gmail rule: a non-empty local part over letters, digits and `._%+-`, then "@gmail.com" |
| Validation.IsLocalChar | client/src/components/dashboard/Dashboard.js:96 | defines the class `[a-zA-Z0-9._%+-]` of the address's local part |
| Validation.AmountPattern | client/src/components/dashboard/Dashboard.js:116 | defines the amount rule: a non-empty digit string whose number is positive |
| Validation.Message | client/src/components/dashboard/Dashboard.js:91-117 | defines the text of each outcome: the fill-in alert for an empty field, and the inline error each format rule sets |
| Validation.Validate | client/src/components/dashboard/Dashboard.js:90-120 | a form is accepted iff it is filled and passes the name, contact, email and amount rules; each rejection names the first rule that fails, in that order |
| Validation.LaterFieldsAreNotExamined | client/src/components/dashboard/Dashboard.js:98-120 | once a rule fails, changing a field checked later does not change the verdict |
| Validation.Occurrences | client/src/components/dashboard/Dashboard.js:96 | a character occurs at most as often as the string is long |
| Validation.OccurrencesAppend | client/src/components/dashboard/Dashboard.js:96 | occurrences in a concatenation add up |
| Validation.NoOccurrences | client/src/components/dashboard/Dashboard.js:96 | a string that avoids a character has none of it |
| Validation.EmailPatternIff | client/src/components/dashboard/Dashboard.js:96 | an email passes iff it is a non-empty local part of allowed characters followed by "@gmail.com" |
| Validation.EmailHasOneAt | client/src/components/dashboard/Dashboard.js:96 | an accepted email holds exactly one '@' |
| Validation.AmountPatternIff | client/src/components/dashboard/Dashboard.js:116 | an amount passes iff it is a non-empty digit string with some digit other than '0' |
| Validation.RuleExamples | client/src/components/dashboard/Dashboard.js:94-116 | "Jo" fails and "John Doe" passes; "12345" fails and "1234567890" passes; "a@b.com" fails and "a@gmail.com" passes; "0", "-5" and "1.5" fail and "150" passes; "   " passes the name rule |
| Validation.AcceptedFormIsWellFormed | client/src/components/dashboard/Dashboard.js:90-120 | an accepted form has a name of at least 3 characters, a 10-character contact and one '@' in its email, and its amount parses to the positive number its digits denote |
| Dashboard.DashboardView.constructor | client/src/components/dashboard/Dashboard.js:13-24 | the view starts with an empty form, no edit target and no error |
| Dashboard.DashboardView.ButtonShown | client/src/components/dashboard/Dashboard.js:332-340 | the form offers Update exactly while a truthy edit target is set, and Add otherwise |
| Dashboard.DashboardView.HandleChange | client/src/components/dashboard/Dashboard.js:84-86 | only the named field changes; the edit target and the error are untouched |
| Dashboard.DashboardView.AddBill | client/src/components/dashboard/Dashboard.js:88-140 | the form is sent, unchanged, iff it passes validation. An empty field gives the fill-in alert and keeps the old error; a failed rule sets that rule's message and gives no alert. A sent form gives the success or failure alert, and the form is cleared only on success |
| Dashboard.DashboardView.UpdateBill | client/src/components/dashboard/Dashboard.js:142-174 | nothing without a truthy edit target. Otherwise the id and form are sent iff no field is empty; success clears the form and the edit target; the error is never touched |
| Dashboard.DashboardView.StartEdit | client/src/components/dashboard/Dashboard.js:378-385 | the row's id becomes the edit target and its four fields fill the form; the error is untouched |
| App.BillingRecordsView.constructor | client/src/App.js:12-13 | the page starts with an empty form and no edit target |
| App.BillingRecordsView.HandleChange | client/src/App.js:31-33 | only the named field changes |
| App.BillingRecordsView.AddBill | client/src/App.js:36-44 | the form, whatever it holds, is posted to the server's `/add_bill`; it is reset only after a successful post |
| App.BillingRecordsView.UpdateBill | client/src/App.js:46-61 | a request is made iff the edit target is truthy; it goes to `/update_bill/<id>` with the form; success clears the form and the edit target |
| App.BillingRecordsView.StartEdit | client/src/App.js:148-155 | the row's id becomes the edit target and its fields fill the form |
| Chart.Points | client/src/components/dashboard/Dashboard.js:246-248 | one point per bill, in order, holding the bill's name and parsed amount |
| Chart.ToPoint | client/src/components/dashboard/Dashboard.js:247-248 | defines the pair the reducer forms for one bill: its name and its parsed amount |
| Chart.Totals | client/src/components/dashboard/Dashboard.js:245-254 | defines the intended chart: the points folded, one by one, into a map from each name to its running sum |
| Chart.NamesMeaning | client/src/components/dashboard/Dashboard.js:245-254 | a name is among the names iff some bill carries it |
| Chart.SumForAbsent | client/src/components/dashboard/Dashboard.js:245-254 | a name no bill carries sums to 0 |
| Chart.TotalsMeaning | client/src/components/dashboard/Dashboard.js:245-254 | the chart has one entry per distinct name, holding the sum of that name's amounts |
| Chart.TotalsSnoc | client/src/components/dashboard/Dashboard.js:249-251 | one more bill adds its amount to its name's entry, creating the entry when the name is new |
| Chart.TotalsPrefixStep | client/src/components/dashboard/Dashboard.js:249-251 | the same step, on the prefixes the loop walks |
| Chart.ChartData | client/src/components/dashboard/Dashboard.js:245-254 | the single pass over the bills builds exactly the fold `Totals` of their points |
| Chart.TotalPreserved | client/src/components/dashboard/Dashboard.js:245-254 | the chart's amounts add up to the sum of all the bills' amounts |
| Chart.EmptyChart | client/src/components/dashboard/Dashboard.js:246 | no bills give no entries and a total of 0 |
| Chart.SameNameCombines | client/src/components/dashboard/Dashboard.js:249-251 | two bills under one name give one entry holding both amounts |
| Chart.AggregatingDistinctNamesKeepsAmounts | client/src/components/dashboard/Dashboard.js:245-254 | points that already have distinct names come out one entry each, with their own amounts |
| Chart.StepAsWritten | client/src/components/dashboard/Dashboard.js:249-251 | the reducer as written: a "__proto__" bill only replaces the prototype; any other bill gets an own entry |
| Chart.ObjectPrototypeMember | client/src/components/dashboard/Dashboard.js:249 | defines the names `acc[name]` finds on Object.prototype for a plain `{}` accumulator |
| Chart.FoldAsWritten | client/src/components/dashboard/Dashboard.js:246-253 | defines the reduce as written, with JavaScript's inherited-property lookups |
| Chart.ChartAsWritten | client/src/components/dashboard/Dashboard.js:245-254 | defines the chart as written: the own entries of that accumulator |
| Chart.AsNumbersUpdate | client/src/App.js:72-81 | converting a chart to numbers commutes with updating one entry |
| Chart.FoldAsWrittenAgrees | client/src/App.js:72-81 | on names the prototype chain cannot shadow, the reducer as written computes the intended chart |
| Chart.AsWrittenAgreesOnOrdinaryNames | client/src/components/dashboard/Dashboard.js:245-254 | on ordinary names the chart as written is the intended chart |
| Chart.OneBillCharts | client/src/components/dashboard/Dashboard.js:245-254 | the chart of one bill, both as written and as intended |
| Chart.ConstructorIsChartedAsNaN | client/src/components/dashboard/Dashboard.js:249-251 | a bill named "constructor" with amount "5" is charted as NaN instead of 5 |
| Chart.ProtoNameIsDropped | client/src/components/dashboard/Dashboard.js:249-251 | a bill named "__proto__" is missing from the chart instead of charted as 5 |
| Api.BaseUrl | client/src/api.js:3 | an unset or empty variable gives the local server; any other value is used as it is |
| Api.HasToken | client/src/api.js:26 | defines the truthiness of the token: `null` and "" are falsy |
| Api.BaseHeaders | client/src/api.js:24-26 | Content-Type always, and Authorization exactly when the token is truthy |
| Api.EncodeBody | client/src/api.js:37-39 | an undefined body means no body; a string is sent verbatim; anything else is stringified once |
| Api.BuildRequest | client/src/api.js:20-40 | the URL is base plus endpoint; the method defaults to GET. The caller's headers win every conflict; JSON Content-Type is the default; "Bearer <token>" is sent exactly when a truthy token exists and the caller sets no Authorization; the body is encoded as above |
| Api.HttpErrorMessage | client/src/api.js:46 | the error message for a failed response starts with "HTTP " |
| Api.HttpErrorRoundTrip | client/src/api.js:46 | the status and body text can be read back exactly from the error message |
| Api.Classify | client/src/api.js:42-56 | a rejected fetch rethrows its error. A response outside 200-299 throws "HTTP <status>: <text>", or the error reading the text threw; 204 gives `{}`; any other ok status gives the parsed JSON or its parse error |
| Api.FailedResponseIgnoresJson | client/src/api.js:44-47 | a failed response always fails, whatever its body would parse to |
| Api.OkResponseIgnoresText | client/src/api.js:48-52 | an ok response's outcome does not depend on its text |
| Api.ClassifyExamples | client/src/api.js:42-56 | a 404 with body "not found" fails with "HTTP 404: not found"; a 204 gives `{}` |
| Api.Credentials | client/src/api.js:65 | defines the signup and login body: email, then password (also line 72) |
| Api.GetIdToken | client/src/api.js:11-16 | no user gives null; a user gives its token, or the error getting it threw |
| Api.MakeRequest | client/src/api.js:19-57 | a token failure propagates before any request is made; otherwise the result is the classification of what fetch returns for the built request |
| Api.AuthorizationIffSignedIn | client/src/api.js:21-28 | a request carries Authorization iff a user is signed in with a non-empty token, unless the caller sets that header |
| Api.Endpoint | client/src/api.js:62-124 | every path starts with '/'; no wrapper sets headers; bill data and credentials are the bodies of the calls that carry them, and every other call has no body |
| Api.MethodOf | client/src/api.js:62-124 | the method each wrapper's request goes out with: GET for the reads, POST for signup, login, logout and add, PUT for update, DELETE for the two deletions |
| Routes.GetBillsReachesItsHandler | server/billing_app.py:35 | the client's getBills reaches the get_bills route |
| Routes.AddBillReachesItsHandler | server/billing_app.py:59 | the client's addBill reaches the add_bill route |
| Routes.UpdateBillReachesItsHandler | server/billing_app.py:77 | the client's updateBill(id) reaches update_bill with that same id |
| Routes.DeleteBillReachesItsHandler | server/billing_app.py:120 | the client's deleteBill(id) reaches delete_bill with that same id |
| Routes.OtherCallsAreNotFound | client/src/api.js:62-84 | the authentication, statistics and account calls find no route on this server |
| Routes.NoRouteFor | server/billing_app.py:25-120 | the paths of those calls match no route |
| Server.Get | server/billing_app.py:80-83 | `data.get(key)` is the key's value, or NULL when it is absent |
| Server.Truthy | server/billing_app.py:100-109 | defines Python truthiness of a request value: None, False, 0 and "" are false |
| Server.Valid | server/billing_app.py:59-154 | defines the table invariants the routes keep: ids below the AUTO_INCREMENT counters, every bill's customer exists, every customer has a bill |
| Server.HasBills | server/billing_app.py:139-143 | defines the test of `delete_bill`'s count: some bill still refers to the customer, i.e. the count is not 0 |
| Server.EmptyTablesAreValid | server/billing_app.py:46-49 | the model's own starting point, two empty tables with both AUTO_INCREMENT counters at 1, satisfies the table invariants; the schema is not part of this repository |
| Server.Joined | server/billing_app.py:46-51 | the join has a row for exactly the bills whose customer exists |
| Server.JoinedRows | server/billing_app.py:47 | each joined row holds the bill's id, amount and date and its customer's name, contact and email |
| Server.JoinedCoversEveryBill | server/billing_app.py:46-51 | in valid tables the join loses no bill |
| Server.JoinRow | server/billing_app.py:47-49 | defines one joined row: the bill's id, amount and date and its customer's name, contact and email |
| Server.AfterAdd | server/billing_app.py:67-70 | defines the add: a customer row and a bill row referring to it, each under the next id, the bill stamped `now` |
| Server.AddPreservesValid | server/billing_app.py:59-74 | adding a bill keeps the table invariants |
| Server.AddInsertsExactlyOne | server/billing_app.py:67-70 | exactly one new customer and one new bill referring to it, both with fresh ids; every existing row is unchanged |
| Server.AddJoinsOneRow | server/billing_app.py:59-74 | after an add, get_bills returns the old rows plus exactly one row holding the request's values |
| Server.AddJoinsOneRowOn | server/billing_app.py:67-70 | the join step of an add, from the facts about fresh ids |
| Server.Merge | server/billing_app.py:100-108 | a truthy new value replaces the old one; a falsy one keeps it |
| Server.SetColumn | server/billing_app.py:110 | defines one `column = value` assignment on a customer row |
| Server.Assign | server/billing_app.py:109-112 | defines the `UPDATE customers SET` list: its assignments applied from left to right |
| Server.AfterUpdate | server/billing_app.py:91-112 | defines the update: the bill's amount is set even when missing, and its customer takes every truthy field; an unknown id changes nothing |
| Server.UpdatePreservesValid | server/billing_app.py:77-118 | an update keeps the table invariants |
| Server.UpdateChangesOnlyItsRows | server/billing_app.py:91-112 | the bill's amount becomes the request's amount, NULL when missing; each customer field changes only to a truthy new value; no other row or counter changes |
| Server.UpdateOfUnknownBillChangesNothing | server/billing_app.py:91-95 | an update of an unknown bill id changes no table |
| Server.UpdateIsIdempotent | server/billing_app.py:77-118 | sending the same update twice is the same as sending it once |
| Server.AfterDelete | server/billing_app.py:127-144 | defines the deletion: the bill goes, and so does its customer when no other bill refers to it; an unknown id changes nothing |
| Server.DeletePreservesValid | server/billing_app.py:120-154 | a deletion keeps the table invariants |
| Server.DeleteRemovesExactlyItsRows | server/billing_app.py:127-144 | exactly that bill goes; its customer goes iff no other bill refers to it; no other customer changes |
| Server.DeleteDropsOneRow | server/billing_app.py:120-154 | after a deletion, get_bills returns the old rows minus exactly the deleted bill's row |
| Server.AddThenDeleteRestores | server/billing_app.py:59-154 | adding a bill and deleting it restores both tables; only the AUTO_INCREMENT counters move on |
| Server.IdAfter | server/billing_app.py:77 | an `<int:bill_id>` segment is recognised only after the route's prefix |
| Server.Target | server/billing_app.py:25-120 | defines each route's path pattern and its one allowed method |
| Server.Route | server/billing_app.py:25-120 | an unknown path is 404; a known path with another method is 405; otherwise it runs the path's handler |
| Server.IdAfterShow | server/billing_app.py:77 | the numeral written after a route's prefix is read back as the same id |
| Server.AssignMerges | server/billing_app.py:98-112 | the assignments update_bill collects, applied in order, set exactly the truthy fields |
| Server.BillingDb.constructor | server/billing_app.py:46-49 | the modelled database starts from the model's own choice of empty tables with counters at 1 |
| Server.BillingDb.GetBills | server/billing_app.py:35-56 | no connection gives 500 and no rows; otherwise 200 and the join of the current tables |
| Server.BillingDb.AddBill | server/billing_app.py:59-74 | a missing key or no connection gives 500 with nothing written; otherwise 201 and the tables after the add |
| Server.BillingDb.UpdateBill | server/billing_app.py:77-118 | no connection gives 500 with nothing written; otherwise 200, known bill or not, and the tables after the update |
| Server.BillingDb.DeleteBill | server/billing_app.py:120-154 | no connection gives 500 and an unknown id gives 404, both with nothing changed; otherwise 200 and the tables after the deletion |

## Left out

- Records.ParseAmount: reads `parseFloat` as an integer reader. It does not model fractions (".5", "1.5"), exponents, "Infinity", or JavaScript's floating-point addition in the chart. The chart lemmas are therefore about integer amounts.
- Records.ParseAmountPadded: asks that the text after the digits not start with '.', 'e' or 'E', where `parseFloat` would go on to read a fraction or an exponent.
- Records.ParseAmountWithoutDigits: in JavaScript, "Infinity" and its signed forms parse to Infinity rather than 0; the model reads them as 0.
- Chart.ChartData: the chart is a map, not the array `Object.values` returns. The model claims nothing about the order of the chart's entries.
- `JSON.stringify` is not interpreted: a body to be stringified is kept as the value. `fetch`'s own header handling, such as case-insensitive names, is not modelled either.
- Firebase authentication, `fetch`, `axios` and the asynchronous ordering of awaits are parameters or left out. So are the un-awaited `fetchBills` of `App.js`, and requests that overlap.
- `alert`, `window.confirm`, `console` logging, the loading flags, `navigate`, and the theme toggle are UI effects with no state the model keeps.
- The refetches after a write (`fetchBills`, `fetchUserStats`), the statistics panel, `deleteBill` of both views, the admin view and the login and signup pages are not part of this model.
- The date column: its display formatting is left out, and the stamp the database writes is the parameter `now`.
- The `/db` route is matched by `Server.Route`, but it does nothing beyond checking that a connection can be opened.
- Server.BillingDb: a SQL error other than a missing connection (a NULL in a NOT NULL column, a failed commit, a rollback) is not modelled. A request body that is not a JSON object is not modelled either.
- Routes.RoutingOf: the path the server sees is the wrapper's endpoint, which holds when `REACT_APP_API_URL` is a bare origin like the default; a base URL with a path (`https://host/api`) would put that path in front, and the server would answer 404.
- Server.IdAfter: Werkzeug's `int` converter is read as ASCII digits.
- Server.Route: Flask's automatic HEAD and OPTIONS answers are not modelled (a HEAD to `/get_bills` is 405 here, while Flask would run the handler), and neither are the CORS headers.
- The server's `print` diagnostics and its connection parameters are left out.

## Findings

| source | as written | input that shows it | evidently intended | confidence | as-written member | corrected member |
|---|---|---|---|---|---|---|
| client/src/components/dashboard/Dashboard.js:245-254 (and client/src/App.js:72-81) | the reducer reads `acc[name]` on a plain object, so names inherited from Object.prototype are found in the chain | one bill named "constructor" with amount "5" is charted as NaN; one bill named "__proto__" is not charted at all | one entry per distinct name holding the sum of its amounts, whatever the name | not executed | Chart.ConstructorIsChartedAsNaN | Chart.TotalsMeaning |
