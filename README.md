# fastfeet delivery lifecycle, modelled in Dafny

fastfeet is a parcel-delivery API. Administrators register deliverymen (couriers) and
recipients and create orders; a deliveryman withdraws an order (its `start_date`), is meant
to record its delivery (`end_date` plus a signature file), and may report delivery problems;
an administrator can cancel an order directly or through one of its problems, which sets
`canceled_at` and puts a `CancellationMail` job on the queue.

This project models the controllers that implement that lifecycle as one in-memory store,
`Store.FastFeet`: maps from id to `Order`, `Deliveryman`, `Recipient` and `DeliveryProblem`,
the set of stored file ids, the job queue as a sequence of cancellation payloads, and the
clock `now` the actions read instead of `new Date()`. Each controller action that writes is
a method that checks its guards in the controller's order and returns `Ok(...)` or the
`Error` variant for the controller's refusal; every refusal leaves the tables and the queue
as they were, and each method's `modifies` clause names only the tables it can write. The
read-only `index`/`show` queries, the page arithmetic, the request-body schemas, the daily
pickup count and the cancellation message are functions, in their own modules.

Files: `wrappers.dfy` (Option, Result), `domain.dfy` (records, errors), `listing.dfy`
(id-descending order, case-insensitive search, `LIMIT`/`OFFSET` pages), `quota.dfy` (the daily
withdraw limit), `validation.dfy` (body schemas and update merges), `cancellation_mail.dfy`
(the job and its message), `queries.dfy` (the `index`/`show` actions), `store.dfy` (the store
and the writing actions).

Conventions of the model:

- Timestamps are integer milliseconds. `startOfDay`/`endOfDay` are `StartOfDay(t) = (t / DAY) * DAY`
  and `EndOfDay(t) = StartOfDay(t) + DAY - 1`, so a day is the closed interval the `BETWEEN`
  query uses.
- A request field the client leaves out is `None`. Yup's rules are written out: a required
  string must be present and non-empty; `min`, `length` and `email` pass on an absent value;
  `email` also passes on the empty string. The email regular expression is replaced by
  `EmailShaped` (an `@` with text on both sides).
- `q ILIKE '%q%'` is `ContainsIgnoringCase`: a plain substring test after ASCII lower-casing.
- Ids are natural numbers handed out by serial sequences starting at 1.
- Listings are sequences of ids; the row projections and joins of the queries are not modelled.

What the code does, as the model pins it down:

- The daily limit refuses a pickup only when MORE than five non-canceled orders are already
  withdrawn that day, across all deliverymen, so a day can reach six
  (`Quota.SixthPickupAdmitted`); `Store.FastFeet.Valid` keeps "at most six per day" as an
  invariant of every action. That holds in the model because order update writes only the
  three schema fields; in the source `order.update(req.body)` can also set `start_date` or
  clear `canceled_at` directly, which bypasses the limit.
- Recording a delivery can never succeed: once the order is found and owned, a set
  `start_date` is refused as "already withdrawn" and an unset one as "hasn't withdrawn", so
  the signature, date checks and the write after them are unreachable
  (`Store.FastFeet.Complete` ensures `r.Err?` and an unchanged table).
- Cancellation does not look at `end_date`; pickup does not look at `canceled_at` or
  `end_date`; a problem can be reported against a canceled order.
- Courier `update` does not check email uniqueness (`Validation.UpdateCanDuplicateEmail`).
- The problem path's snapshot does not select the recipient's name, so its cancellation
  mail has no client name (`CancellationMail.ProblemPathOmitsClient`).
- The courier search reports a page count computed from the returned page alone, at most 1
  (`Queries.SearchPagesUndercount`).

## Model

| member | source | states |
|---|---|---|
| `Store.FastFeet.Pickup` | src/app/controllers/DeliveryStatusController.js:90-147 | guards in order: courier missing, order missing, order of another courier (401), `start_date` already set, date after `now` (a date equal to `now` passes), more than five pickups that day; a refusal changes nothing; success sets only that order's `start_date` and ignores `canceled_at` and `end_date`; the daily bound of six is kept |
| `Store.FastFeet.Complete` | src/app/controllers/EndDeliveryController.js:11-85 | body needs `end_date` and `signature_id` before any lookup; then courier, order, ownership (401); an owned order is refused as already withdrawn when `start_date` is set and as not withdrawn when it is not; every call is refused and no order ever gains `end_date` or `signature_id` |
| `Store.FastFeet.CreateOrder` | src/app/controllers/OrderController.js:14-48 | schema, then courier before recipient; a refusal creates nothing; the new order has a fresh id, the given product, recipient and courier, and all four lifecycle columns null |
| `Store.FastFeet.UpdateOrder` | src/app/controllers/OrderController.js:206-260 | order missing, then courier, then recipient are refused with no change, a missing id in the body counting as not found; success changes product (when given) and both ids and keeps every date and the signature |
| `Store.FastFeet.CancelOrder` | src/app/controllers/OrderController.js:169-204 | missing order and already-canceled order are refused with no change and no job; otherwise `canceled_at := now`, the row stays, and exactly one `CancellationMail` job with the order, its courier and its recipient including the name is appended; `end_date` is not checked |
| `Store.FastFeet.Cancel` | src/app/controllers/OrderController.js:196-201 | the shared write of both cancellation paths: `canceled_at := now` on a not-yet-canceled order and one job appended to the queue under the handler's key `CancellationMail.Key` ("CancellationMail", the `key` getter of the job) |
| `Store.FastFeet.ReportProblem` | src/app/controllers/DeliveryProblemController.js:12-51 | a description shorter than five characters is refused before the order lookup; a missing or delivered order is refused; success adds exactly one problem whose `delivery_id` is the order id, leaves the order untouched and accepts canceled orders |
| `Store.FastFeet.CancelByProblem` | src/app/controllers/DeliveryProblemController.js:115-164 | unknown problem id refused with no change; a parent order that no longer exists is dereferenced and throws; an already-canceled parent is refused with no job; otherwise `canceled_at := now`, one job whose snapshot lacks the recipient's name, and the problem row is kept |
| `Store.FastFeet.RegisterDeliveryman` | src/app/controllers/DeliverymanController.js:8-40 | name of at least three characters and a well-formed email, then an email already registered is refused with no change; success adds one courier under a fresh id; email uniqueness is preserved |
| `Store.FastFeet.UpdateDeliveryman` | src/app/controllers/DeliverymanController.js:109-137 | schema, then missing courier refused; otherwise the given fields are merged with no uniqueness check |
| `Store.FastFeet.DeleteDeliveryman` | src/app/controllers/DeliverymanController.js:97-107 | a missing id is refused; otherwise exactly that courier is removed |
| `Store.FastFeet.RegisterRecipient` | src/app/controllers/RecipientController.js:5-31 | succeeds exactly when the store schema holds, creating one recipient from the body; otherwise nothing is created |
| `Store.FastFeet.UpdateRecipient` | src/app/controllers/RecipientController.js:38-89 | schema first, then a missing recipient is an error; otherwise the given fields are merged and the seven address columns returned |
| `Store.FastFeet.DeleteRecipient` | src/app/controllers/RecipientController.js:91-97 | never checks existence: removes the id if present, and a missing id leaves the table unchanged |
| `Store.IsBefore` | src/app/controllers/EndDeliveryController.js:71-75 | `isBefore(end, start)` is false when the start date is invalid |
| `Quota.WithinDayIff` | src/app/controllers/DeliveryStatusController.js:128-135 | `[startOfDay(t), endOfDay(t)]` holds exactly the instants of t's day |
| `Quota.WithPickup` | src/app/controllers/DeliveryStatusController.js:143-145 | the pickup write sets that order's `start_date` to the given instant, leaves its other columns, and keeps every other order and every id |
| `Quota.StartOfDay` | src/app/controllers/DeliveryStatusController.js:131 | `startOfDay`: the first millisecond of the instant's day |
| `Quota.EndOfDay` | src/app/controllers/DeliveryStatusController.js:131 | `endOfDay`: the last millisecond of the instant's day |
| `Quota.PickedUpOn` | src/app/controllers/DeliveryStatusController.js:128-135 | the rows the count query matches: every order, of any courier, with `start_date` between the day's bounds and `canceled_at` null |
| `Quota.DayCount` | src/app/controllers/DeliveryStatusController.js:128-135 | `maxOrdersPerDay.count`: the number of those rows |
| `Quota.QuotaRefuses` | src/app/controllers/DeliveryStatusController.js:128-141 | the guard refuses only when the day's count of non-canceled pickups, over all couriers, is more than five |
| `Quota.PickupCount` | src/app/controllers/DeliveryStatusController.js:128-145 | a pickup adds one to the count of its own day only, and only for a non-canceled order |
| `Quota.SixthPickupAdmitted` | src/app/controllers/DeliveryStatusController.js:137-141 | with five pickups already on a day the `> 5` guard admits a sixth, and the day's count becomes six |
| `Quota.PickupKeepsDailyBound` | src/app/controllers/DeliveryStatusController.js:128-145 | pickups the guard admits keep every day's count of non-canceled pickups at or below six |
| `Quota.NoNewPickups` | src/app/controllers/OrderController.js:189-197 | creating, editing or canceling orders never raises a day's count, so the bound survives them |
| `Queries.CourierFilter` | src/app/controllers/DeliveryStatusController.js:15-37 | the `where` built from `deliveried`: the courier's id and `canceled_at` null always, `end_date` null for "false", set for "true" |
| `Queries.CourierDeliveries` | src/app/controllers/DeliveryStatusController.js:11-73 | unknown courier is an error; otherwise exactly the courier's non-canceled orders, with `end_date` null for `deliveried=false`, set for `true` and unfiltered otherwise, in descending id order; the listing succeeds exactly when the courier exists and some order matches, and an empty result is the "no orders" answer, the only other error |
| `Queries.OtherDeliveriedValueIgnoresEndDate` | src/app/controllers/DeliveryStatusController.js:31-36 | any `deliveried` other than "true"/"false" applies no `end_date` filter |
| `Queries.OrderIndex` | src/app/controllers/OrderController.js:50-128 | with a non-empty `q`, exactly the orders whose product contains `q` ignoring case; otherwise all orders; descending id order |
| `Queries.OrderShow` | src/app/controllers/OrderController.js:130-167 | the order with that id, or nothing |
| `Queries.AllProblems` | src/app/controllers/DeliveryProblemController.js:56-81 | the listing holds every problem once |
| `Queries.ProblemIndex` | src/app/controllers/DeliveryProblemController.js:53-89 | the items are `PageOf` of the whole listing: element `i` is row `(page-1)*5 + i`, at most 5 rows; `pages = ceil(total/5)`; a page holds rows exactly when it is at most `pages`; a page below 1 gives a negative offset, which the database refuses |
| `Queries.ProblemShow` | src/app/controllers/DeliveryProblemController.js:91-113 | exactly the problems whose `delivery_id` is the order id, each listed once (strictly descending ids) |
| `Queries.DeliverymanIndex` | src/app/controllers/DeliverymanController.js:42-83 | without `q`: the items are the `(page-1)*5` window of all couriers in descending id order, `pages = ceil(total/5)`; with `q`: the items are the same window of the couriers whose name contains `q` ignoring case, page 1 is non-empty exactly when some courier matches, and `pages` comes from the returned page's length, so 0 or 1 |
| `Queries.SearchIndex` | src/app/controllers/DeliverymanController.js:46-66 | the search branch: the `(page-1)*5` window of the id-descending couriers whose name contains `q` ignoring case; page 1 holds rows exactly when some courier matches; `pages` is 0 or 1 from the returned page's length; a page below 1 is a negative offset |
| `Queries.TableIndex` | src/app/controllers/DeliverymanController.js:68-81 | the branch without `q`: the `(page-1)*5` window of all couriers in descending id order, `pages = ceil(total/5)`, and a page holds rows exactly when it is at most `pages` |
| `Queries.SearchPagesUndercount` | src/app/controllers/DeliverymanController.js:46-66 | with more than five matches page 2 holds rows while the `pages` header says 1 |
| `Queries.RecipientShow` | src/app/controllers/RecipientController.js:99-119 | the recipient's columns; an unknown id is destructured as `null` and throws |
| `Listing.Descending` | src/app/controllers/OrderController.js:59 | `ORDER BY id DESC`: every id once, strictly decreasing |
| `Listing.LiteralMatchIsFound` | src/app/controllers/OrderController.js:55-57 | a literal occurrence of `q` is always an `ILIKE` match, and the empty pattern matches everything |
| `Listing.ContainsIgnoringCase` | src/app/controllers/OrderController.js:55-57 | `ILIKE '%q%'`: `q` occurs in the text at some position after both are lower-cased |
| `Listing.PageOf` | src/app/controllers/DeliverymanController.js:69-77 | the window of at most five rows starting at `(page-1)*5`, none when the offset is negative |
| `Listing.PageCount` | src/app/controllers/DeliveryProblemController.js:86 | `Math.ceil(total/5)`: the least page count whose pages cover all rows |
| `Listing.PageCountCoversRows` | src/app/controllers/DeliverymanController.js:78-81 | the announced pages are exactly the pages that hold rows |
| `Validation.DeliverymanStoreValid` | src/app/controllers/DeliverymanController.js:9-17 | the `store` schema: name required with 3+ characters, email required and well-formed, `avatar_id` a number when given |
| `Validation.DeliverymanUpdateValid` | src/app/controllers/DeliverymanController.js:110-114 | the `update` schema: every field optional; a given name has 3+ characters, a given non-empty email is well-formed, `avatar_id` may be null |
| `Validation.MergeDeliveryman` | src/app/controllers/DeliverymanController.js:134 | `deliveryman.update(req.body)`: each field the body gives overwrites the column, the others stay |
| `Validation.NewDeliveryman` | src/app/controllers/DeliverymanController.js:32-38 | the created courier has the body's name (3+ characters), its well-formed email, and its `avatar_id` (null when the body has none) |
| `Validation.DeliverymanStoreRulesAreStricter` | src/app/controllers/DeliverymanController.js:9-17 | every body `store` accepts passes the `update` schema too |
| `Validation.FreshEmailKeepsUnique` | src/app/controllers/DeliverymanController.js:26-39 | adding a courier with an unused email keeps emails unique |
| `Validation.UpdateCanDuplicateEmail` | src/app/controllers/DeliverymanController.js:124-136 | an update the `update` schema accepts can give one courier another's email, which breaks uniqueness |
| `Validation.RecipientStoreValid` | src/app/controllers/RecipientController.js:6-20 | the `store` schema: name 3+, street, number and city required, state of exactly 2 and zip of exactly 8 characters, complement optional |
| `Validation.ZipDemanded` | src/app/controllers/RecipientController.js:48-50 | the `when` condition: a non-empty street, number or state; a city never counts, since `cidade === true` is false for a string |
| `Validation.RecipientUpdateValid` | src/app/controllers/RecipientController.js:39-54 | the `update` schema: every field optional with the same length rules, and `cep` required when the `when` condition holds |
| `Validation.MergeRecipient` | src/app/controllers/RecipientController.js:78 | `recipient.update(req.body)`: each field the body gives overwrites the column, the others stay |
| `Validation.NewRecipient` | src/app/controllers/RecipientController.js:6-30 | the created recipient's name, street, number, complement, state, city and zip are the body's `name`, `rua`, `numero`, `complemento`, `estado`, `cidade` and `cep`, so it has a 3+ character name, a 2-character state, an 8-character zip and non-empty street, number and city |
| `Validation.RecipientStoreRulesAreStricter` | src/app/controllers/RecipientController.js:6-54 | every body `store` accepts passes the `update` schema too |
| `Validation.CityAloneDemandsNoZip` | src/app/controllers/RecipientController.js:48-53 | a city alone never makes `cep` required (`cidade === true` is never true for a string), a street does |
| `Validation.MergeKeepsLengthRules` | src/app/controllers/RecipientController.js:39-47 | an update that passes the schema keeps the name, state and zip length rules |
| `Validation.MergeOrder` | src/app/controllers/OrderController.js:258 | the merge keeps dates and signature and takes both ids and the given product |
| `Validation.OrderStoreValid` | src/app/controllers/OrderController.js:15-19 | the order `store` schema: a non-empty product and both ids required |
| `Validation.DescriptionValid` | src/app/controllers/DeliveryProblemController.js:13-17 | the problem `store` schema: a description of at least five characters |
| `CancellationMail.Snapshot` | src/app/controllers/OrderController.js:171-184 | the job's order carries the canceled order's id, product and `canceled_at`; the courier view holds the joined courier's name and email and the recipient view the joined recipient's street, number, city, state and zip, each exactly when that row exists; the recipient's name is there exactly when selected |
| `CancellationMail.Mailbox` | src/app/jobs/CancellationMail.js:14 | `to` is `name <email>`, and name and email can be read back from it |
| `CancellationMail.Compose` | src/app/jobs/CancellationMail.js:8-28 | subject "Entrega cancelada" and template "cancellation" whatever the order; context copies courier name, product and recipient name, street, number, city, state and zip; no message when a join found no row |
| `CancellationMail.OrderPathNamesClient` | src/app/controllers/OrderController.js:178-182 | the order path's mail names the client |
| `CancellationMail.ProblemPathOmitsClient` | src/app/controllers/DeliveryProblemController.js:126-148 | the problem path's mail has no client name and otherwise equals the order path's |

## Left out

- The HTTP layer (`src/routes.js`, status codes, headers, JSON bodies): each response is an
  `Error` variant or a result value; the `pages`/`currentPage` headers are fields of `Queries.Page`.
- Request values of the wrong type and malformed or missing dates (`parseISO`): the pickup
  date is always a valid integer instant, page numbers are integers, ids are natural numbers.
- Sequelize attribute projections and joins other than the cancellation snapshot, and the
  `%`/`_` wildcards inside `q`; `ILIKE` case folding beyond ASCII letters.
- The job queue and mail I/O (`Queue.add`, `Mail.sendMail`, the `console.log` in `handle`):
  the queue is the appended sequence `queue`, and `handle` is `CancellationMail.Compose`.
- `Store.FastFeet.UpdateOrder`: models the three schema fields of the body only; the source
  passes the whole body to `order.update`, which would also write any other order column the
  client sends (`start_date`, `canceled_at`, ...).
- `Store.FastFeet.RegisterRecipient`, `Store.FastFeet.UpdateRecipient` and
  `Store.FastFeet.UpdateDeliveryman` likewise model only the schema's fields: the source hands
  the whole body to `create`/`update`, which would also write any other column the client sends.
- The column names of the recipient table: the recipient schemas read Portuguese keys (`rua`,
  `numero`, `complemento`, `estado`, `cidade`, `cep`) while the other controllers read `street`,
  `number`, `complement`, `state`, `city`, `zip`; the model takes them to be the same columns,
  since the Sequelize models that would settle it are not part of this model.
- The check-then-act race between the daily count and the pickup write, and the un-awaited
  `destroy` in courier `delete`: both are concurrency concerns; actions run one at a time.
- The order in which the problem queries return rows: their query has no `ORDER BY`, and the
  model lists them in descending id order.
- String lengths: `MinLength` and `ExactLength` count characters (Unicode scalar values),
  while Yup's `min`/`length` count JavaScript UTF-16 code units, so a name, state, zip or
  description holding characters outside the Basic Multilingual Plane can pass in the source
  and fail in the model, or the reverse.
- The default page: `const { page = 1 } = req.query` turns an absent page into 1;
  `Queries.ProblemIndex` and `Queries.DeliverymanIndex` take the page number as given, so a
  caller passes 1 for an absent page.
- Courier `show` and recipient `index` (plain reads with no rule), `SessionController`, the
  auth middleware, and the file upload controller; files only exist as the id set `files`.
- What deleting a courier or recipient does to the orders that reference them (database
  foreign-key actions): the model keeps the orders' ids, and a later cancellation snapshot
  then lacks that join.
