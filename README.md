# Household inventory: a Dafny model

This project models the core of a household inventory web application. Users keep
items (food, medicine, vegetables, fruit) with an expiration date and an amount.
The add-item page submits a weight for vegetables and fruit (蔬菜, 水果) and a
quantity for every other category. The server itself does not tie the category
to a column: it moves whichever amount column is non-null, weight first. Amounts
change through recorded inbound and outbound movements. A daily job sends each
user an email digest, when the user has an email address, SMTP is configured and
something is near expiry or expired. It also sends a webhook digest, when the user
has a webhook and some bucket is non-empty. The digests list the items near
expiry, the expired items and the fresh produce in stock.

The model has six modules:

- `Domain` (domain.dfy) holds the rows of the three tables, shaped after the schema
  in src/db/index.ts:19-51. It also holds the JavaScript value rules the handlers
  rely on: truthiness of nullable numbers, `a || b`, `x || null`, and the
  weight-category test.
- `Seqs` (seqs.dfy) holds an order-keeping `Filter` with its specification lemma,
  text concatenation, and an insertion sort that stands for `ORDER BY`.
- `Ledger` (ledger.dfy) is the server side of the item and transaction routes.
  - Class `Store` holds the items table (a map from id to row), the append-only
    transactions table (a sequence) and the next AUTOINCREMENT ids. Each request
    is a method that changes them, or a function that reads them.
  - `Store.Valid()` keeps the accounting invariant: folding an item's transactions
    from 0 reproduces its stored amount. Inbound movements add. Outbound movements
    subtract and floor at 0.
  - The invariant covers every item whose row no update request has overwritten.
    The ghost set `edited` records the overwritten ones.
  - The store is built with or without foreign-key enforcement. The schema
    declares the references, and whether SQLite enforces them is a setting of the
    connection. With enforcement on, every transaction refers to an existing item,
    and an item that has transactions cannot be deleted.
- `Reminders` (reminders.dfy) is the body of the daily job.
  - It builds the three buckets and decides which digests are due.
  - Its methods build the digests by appending one piece at a time. Each method is
    proved equal to a joined sequence of pieces.
  - `Tick` records every send with the channel's answer. A failed send does not
    change what is sent next.
- `AddItem` (additem.dfy) is the add-item page: its form, its change handler and
  the request body it posts.
- `Dashboard` (dashboard.dfy) is the dashboard page: the status badge, the category
  filter and the amount shown.

Some inputs are parameters of the model:

- The clock and date parsing: `daysLeft: string -> int` gives the whole days from
  today to an expiration date.
- JavaScript's `Number()`: `toNumber: string -> real`.
- Number-to-text conversion: `show: real -> string`.
- Whether a channel accepted a message: `delivers: Dispatch -> bool`.
- The database's CURRENT_TIMESTAMP: `now: int`.

## Model

| member | source | states |
|---|---|---|
| Ledger.CurrentAmount | src/routes/transactions.ts:27 | the amount movements start from: the weight when it is non-null, otherwise the quantity, and 0 when both are null (JavaScript's `null + amount`) |
| Ledger.ParseKind | src/routes/transactions.ts:14-16 | the type is recognised exactly when it is "inbound" or "outbound" |
| Ledger.Apply | src/routes/transactions.ts:27-35 | inbound gives current + amount; outbound gives current − amount floored at 0, so never negative |
| Ledger.WithAmount | src/routes/transactions.ts:37-42 | only the active column (weight if non-null, else quantity) changes, and afterwards it holds the new amount; the other column and every other field stay as they were |
| Ledger.ReplayAtLeastNet | src/routes/transactions.ts:30-35 | clamping only adds: folding a log is never below the net inbound-minus-outbound sum |
| Ledger.ReplayNonNegative | src/routes/transactions.ts:30-35 | a log with no negative amounts folds to a non-negative amount |
| Ledger.ReplayInboundOnly | src/routes/transactions.ts:30-31 | a log of inbound movements folds to exactly its sum |
| Ledger.NewItem | src/routes/items.ts:23-30 | the new row is owned by the caller, copies the body's fields, and stores a falsy weight or quantity as null |
| Ledger.InitialAmountIsStoredAmount | src/routes/items.ts:30-37 | when the weight-or-quantity value (weight if truthy, else quantity) is non-null, it equals the amount the new row holds |
| Ledger.ByExpirationIsTotalPreorder | src/routes/items.ts:12 | ordering rows by expiration date (code-point order of the TEXT) is total and transitive |
| Ledger.AccountedAfterMovement | src/routes/transactions.ts:27-49 | storing a movement's result on the item and appending the movement keeps every item's log folding to its stored amount |
| Ledger.AccountedAfterInsert | src/routes/items.ts:30-37 | a fresh id stored with the amount of its first inbound movement keeps the accounting invariant |
| Ledger.AccountedAfterBareInsert | src/routes/items.ts:30-37 | a fresh id stored without amount and without movement keeps the accounting invariant |
| Ledger.AccountedAmountNonNegative | src/routes/transactions.ts:32-35 | an accounted item whose movements have non-negative amounts holds a non-negative amount |
| Ledger.OwnedRows | src/routes/items.ts:12 | the scan of the items table keeps exactly the caller's rows, in ascending id order |
| Ledger.Store.constructor | src/db/index.ts:28-51 | an empty database, with or without foreign-key enforcement, satisfies the invariant |
| Ledger.Store.PostTransaction | src/routes/transactions.ts:9-51 | an unknown type gives 400 and changes nothing; an item that is missing or not the caller's gives 404 and changes nothing; otherwise the active column becomes the applied amount, one movement with the unclamped amount is appended, the answer carries the new id and the stored amount, and the invariant holds |
| Ledger.Store.ListTransactions | src/routes/transactions.ts:62-67 | exactly the transactions on that item by that caller, each as often as stored, newest timestamp first |
| Ledger.Store.ListItems | src/routes/items.ts:12-13 | exactly the caller's rows, as a permutation of the table scan, by ascending expiration date |
| Ledger.Store.CreateItem | src/routes/items.ts:20-39 | the row is always inserted under a fresh id that no update has marked, and that id's log folds to the amount the row holds; when the weight-or-quantity value is non-null, one inbound movement of that amount is appended and the id is returned; otherwise the answer is 500 and no movement is appended; the invariant holds |
| Ledger.Store.UpdateItem | src/routes/items.ts:51-61 | an owned item gets all seven fields overwritten and no movement is recorded; any other id gives 404 and nothing changes |
| Ledger.Store.DeleteItem | src/routes/items.ts:69-85 | without foreign-key enforcement an owned item is removed and its movements stay; with enforcement an owned item that has movements is kept and the answer is 500; any other id gives 404 and nothing changes; the invariant holds |
| Reminders.NearExpiry | src/services/reminders.ts:33-37 | exactly the items with 0 ≤ daysLeft ≤ reminder_days, each as often as in the input, in input order |
| Reminders.Expired | src/services/reminders.ts:39-42 | exactly the items with daysLeft < 0, each as often as in the input, in input order |
| Reminders.FreshProduce | src/services/reminders.ts:44 | exactly the vegetables and fruit whatever their dates, each as often as in the input, in input order |
| Reminders.NearAndExpiredDisjoint | src/services/reminders.ts:33-42 | no item is both near expiry and expired |
| Reminders.ExpiredProduceInBothBuckets | src/services/reminders.ts:39-44 | expired produce is listed both as fresh produce and as expired |
| Reminders.EmailListsEachItemInOrder | src/services/reminders.ts:48-62 | the email's list items are one per near-expiry item and then one per expired item, in bucket order, and nothing else |
| Reminders.EmailSectionsPresentIffNonEmpty | src/services/reminders.ts:49-62 | the near-expiry heading appears exactly when that bucket is non-empty, and likewise the expired heading, in that order |
| Reminders.AppendEmailEntries | src/services/reminders.ts:51-53 | the loop appends the `<li>` lines of the items in order |
| Reminders.BuildEmail | src/services/reminders.ts:48-62 | the text built piece by piece is the title followed by each non-empty section |
| Reminders.WebhookListsEachItemInOrder | src/services/reminders.ts:79-102 | the message's bullets are the produce lines, then the near-expiry lines, then the expired lines, in bucket order, and nothing else |
| Reminders.WebhookSectionsInOrder | src/services/reminders.ts:79-102 | the sections appear in the order produce, near expiry, expired, each exactly when its bucket is non-empty |
| Reminders.EmptiedProduceShowsNull | src/services/reminders.ts:84 | a produce line prints the weight if truthy, else the quantity, so weight 0 with no quantity prints "null" |
| Reminders.AppendFreshEntries | src/services/reminders.ts:83-85 | the loop appends the produce lines in order |
| Reminders.AppendDateEntries | src/services/reminders.ts:91-93 | the loop appends the dated lines in order |
| Reminders.BuildWebhook | src/services/reminders.ts:79-102 | the text built piece by piece is the title followed by each non-empty section |
| Reminders.NoChannelNoDispatch | src/services/reminders.ts:47-78 | a user with neither an email address nor a webhook is sent nothing |
| Reminders.DispatchOnlyWhenSomethingToReport | src/services/reminders.ts:47-104 | a user none of whose items is near expiry, expired or fresh produce is sent nothing, whatever their channels |
| Reminders.EmailDue | src/services/reminders.ts:47 | the email is due exactly when the user has a non-empty address, SMTP_HOST is set and the near-expiry or expired bucket is non-empty |
| Reminders.WebhookDue | src/services/reminders.ts:78-104 | the webhook message is due exactly when the user has a non-empty webhook and some bucket is non-empty |
| Reminders.Dispatches | src/services/reminders.ts:46-117 | every message goes to one of the user's own channels; an email is among them exactly when it is due, a webhook message exactly when it is due, email first; the email carries the fixed subject and the digest text, the webhook message the report text |
| Reminders.UserDispatches | src/services/reminders.ts:30-117 | at most two messages, each to the user's own address or webhook |
| Reminders.TickDispatches | src/services/reminders.ts:27-118 | at most two messages per user, each to a channel of some user of the table |
| Reminders.SendDigests | src/services/reminders.ts:46-117 | the email when it is due, then the webhook message when it is due, each recorded with the channel's answer |
| Reminders.NotifyUser | src/services/reminders.ts:30-117 | one user's sends are those due for the user's own items |
| Reminders.Tick | src/services/reminders.ts:27-118 | one run sends, user after user, exactly the messages due, whatever earlier sends answered |
| AddItem.InitialForm | src/pages/AddItem.tsx:7-15 | a new form has category 食品, unit 个 and every other input empty |
| AddItem.ShownAmountField | src/pages/AddItem.tsx:101-128 | the weight input is shown exactly for vegetables and fruit, the quantity input exactly for every other category |
| AddItem.HandleChange | src/pages/AddItem.tsx:17-20 | the named input takes the new value and every other input keeps its value |
| AddItem.Payload | src/pages/AddItem.tsx:26-30 | exactly one of weight and quantity is sent, selected by category and converted to a number; the other fields are copied |
| AddItem.ShownFieldIsSubmittedSlot | src/pages/AddItem.tsx:101-128 | the amount input shown is the slot submitted, and the stored amount is that input's number (or 0 when the number is 0) |
| AddItem.ShownFieldFollowsCategory | src/pages/AddItem.tsx:42 | editing anything but the category keeps the same amount input shown |
| AddItem.InitialFormTracksQuantity | src/pages/AddItem.tsx:7-15 | a new form has category food and so shows and submits quantity |
| AddItem.NonZeroSubmissionStoresOneSlot | src/pages/AddItem.tsx:28-29 | a non-zero number is stored in exactly the category's column and is the first movement's amount |
| AddItem.ZeroSubmissionStoresNoAmount | src/routes/items.ts:30-37 | a zero number stores both columns null; the first movement's amount is then null for produce (so create fails) and 0 otherwise |
| Dashboard.GetStatus | src/pages/Dashboard.tsx:47-52 | expired exactly when days < 0; near expiry with the days exactly when 0 ≤ days ≤ 30; normal with the days exactly when days > 30 |
| Dashboard.FilterItems | src/pages/Dashboard.tsx:54 | "all" keeps every row; any other value keeps exactly the rows of that category, in order |
| Dashboard.DisplayAmount | src/pages/Dashboard.tsx:95 | the weight when it is non-null, otherwise the quantity, which may be null |
| Dashboard.DisplayIsCurrentAmount | src/pages/Dashboard.tsx:95 | a shown amount is the amount movements start from, and nothing is shown only when both columns are null |
| Dashboard.DisplayAfterMovement | src/pages/Dashboard.tsx:157 | after a movement the amount shown is the new amount the server returned |
| Dashboard.EmptiedProduceDisplay | src/pages/Dashboard.tsx:95 | produce emptied to weight 0 shows 0 on the dashboard but null in the daily report |
| Dashboard.ExpiredAgreesWithReminders | src/pages/Dashboard.tsx:49 | the expired badge and the daily job's expired bucket agree item by item |
| Dashboard.NearExpiryAgreesWithReminders | src/pages/Dashboard.tsx:50 | with a lead time of at most 30 days every reminded item has the near-expiry badge; with a longer one, an item 31 days out is reminded but badged normal |

## Left out

- Scheduling, sending, logging and configuration are left out: the cron schedule, the nodemailer transport, the axios webhook POST, the `console.log` and `console.error` lines (src/services/reminders.ts:25, 71, 73, 112, 114, 120), and the SMTP settings read from the environment. A send is modelled as a `Dispatch` value plus the channel's yes/no answer. SMTP_HOST is a parameter.
- Dates are left out: parsing with date-fns, `differenceInDays`, `new Date()` and the time of day. They enter only through `daysLeft`, which returns an integer for every text. An expiration date that does not parse gives NaN in the source: such an item falls in no date bucket and is badged normal, which the model does not capture. The source also reads `today` once per user, so users late in a run may see a later day; the model uses one `daysLeft` for the whole run.
- Number parsing and printing are left out: `Number()` and number-to-text are parameters, so NaN, Infinity and `-0` are not modelled. Amounts are exact reals, so floating-point rounding is not modelled either.
- Reminders.Tick: the outer `catch` that ends the whole run on a database error is not modelled, because the model's reads cannot fail.
- Ledger.Store: among the 500 answers only the create path's NOT NULL failure and the delete path's foreign-key failure are modelled. Other database errors are not modelled.
- Ledger.Store.DeleteItem: the source does not show whether foreign keys are enforced (no PRAGMA appears; the setting comes from how SQLite was built), so the model takes it as the store's `foreignKeys` flag and states both behaviours. A failed create's bare row, whose log is empty, is the only item the enforced store lets its owner delete after creation.
- Ledger.Store.ListTransactions: timestamps are integers. The database's second-resolution TEXT timestamps, and the order of rows with equal timestamps, are not modelled. The contract only says the list is non-increasing.
- Ledger.Store.ListItems: the order of rows with equal expiration dates is not fixed. The contract states a permutation of the scan, not one particular order.
- `created_at` and the users table's password column are not modelled. Neither takes part in any operation of the core.
- src/routes/auth.ts (hashing, tokens, registration, the `reminder_days || 7` default) is not part of this model. The caller's id is a parameter of every request.
- src/db/index.ts (file system and connection setup), server.ts, src/App.tsx, src/components/Layout.tsx, src/pages/Register.tsx and src/pages/Settings.tsx are not part of this model.
- Rendering is not modelled: labels, colours, icons, views, `prompt` and `alert` on the pages. The outbound button's request is the same POST /transactions that `Ledger.Store.PostTransaction` models.
- Concurrency is not modelled. Each request is one atomic step on the store.
- Escaping of item names in the digests is not modelled, because the code does none.
