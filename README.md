# Order and payment lifecycle of the mintproxy storefront

The storefront sells synthetic proxy credentials. A buyer picks a region and
a country from an immutable catalogue and asks for a quantity; the shop
records a `pending` order in its `payments` table, and the buyer pays by
bank transfer. An administrator later confirms the order, which generates
one credential record per proxy and marks the row `success`, or deletes it.
The buyer polls the order's status; once credentials have been delivered
they are cached in the buyer's session, so they stay visible after the row
is deleted.

The model is written in Dafny as seven modules:

- `Options` — optional values and results.
- `Decimal` — Python's `str()` of a non-negative integer, the value of a
  digit string, and `".".join` / `split(".")`, with the round trips between
  them.
- `Catalog` — regions, countries and unit prices; selection validation,
  price and name lookup; the shop's catalogue transcribed as `Proxies`.
- `Quantity` — Python's `int()` on the query parameter and the clamp to
  [1, 20].
- `Credentials` — `random.randint` over an entropy stream, and the
  credential generator with the shape every record has.
- `OrderStore` — the `payments` table as a map from payment id to order:
  INSERT with its primary key, UPDATE of status and proxy data, DELETE, and
  the newest-first query, plus the invariant every row keeps and the lemmas
  showing each write preserves it.
- `Shop` — a class holding the table, the creation clock, the buyer's
  session and the administrator's flash message, with one method per route
  (`create_payment`, `check_payment`, `confirm_payment`, `delete_payment`,
  `admin_panel`), and a client method `PurchaseScenario` that follows five
  proxies at 199 each through purchase (amount 995), status check,
  confirmation and deletion. The scenario runs on a one-entry catalogue
  holding the same Greece entry as the shop's catalogue (`GreeceListed`),
  which keeps its proof small.

Randomness enters as parameters: `create_payment` takes the raw value its
`randint(10000, 99999)` draws, and `confirm_payment` takes an entropy
stream `rand: nat -> int` from which record `i` of a batch reads values
`7*i` to `7*i + 6` (four octets, port, login number, password number, in
the order Python evaluates them). `randint(lo, hi)` maps a raw value `r` to
`lo + r mod (hi - lo + 1)`, so the bounds on generated fields are proved
rather than assumed. `datetime.now()` becomes a clock that ticks on every
insert; the class invariant says every row's timestamp is before the clock
and no two rows share one, so the newest-first order is well defined.

Behaviour kept as the code has it:

- `create_payment` writes the session before the INSERT. When the drawn
  payment id is already a row, the INSERT fails and the buyer is redirected
  to the catalogue, but the session already names that existing row, so the
  next status check shows the earlier order stored under that id (in the
  deployed shop, usually another buyer's). `CreatePayment` states the
  session and table this leaves.
- `session.update` keeps an earlier `proxies_data` entry, so the cached
  fallback of `check_payment` can show credentials of an older order next to
  the new order's amount and quantity.
- Confirming an already confirmed row draws a new batch and overwrites the
  old one (`RegenerationDiffers`).
- The country name on the status page comes from the session's region and
  country, not from the row.
- The guard `if not payment_id` also rejects an empty id.
- An out-of-range quantity is clamped: 25 becomes 20 and 0 becomes 1
  (`Clamp`). A missing parameter reads as `'1'`, and text `int()` refuses
  falls back to 1 instead of being clamped.
- The UPDATE of status and credentials matches no row for a missing id and
  changes nothing; `confirm_payment` looks the row up first
  (`SetStatusAndData`, `ConfirmPayment`).
- Nothing stops a second confirmation of a `success` row; it rewrites the
  row's credentials (`RegenerationDiffers`).

## Model

| member | source | states |
|---|---|---|
| `Decimal.Render` | main.py:88-91 | `str(n)` text is non-empty, all digits, and starts with `0` only for 0 |
| `Decimal.ValueOfRender` | main.py:88-91 | reading the digits of `str(n)` gives back n |
| `Decimal.RenderOfValue` | main.py:88-91 | every canonical digit string is `str` of its value, so rendering is a bijection |
| `Decimal.RenderedSuffix` | main.py:90-91 | a prefix followed by `str(n)` with n in [lo, hi] has that prefix and a decimal suffix in [lo, hi] |
| `Decimal.SplitJoin` | main.py:88 | splitting a dot-joined list of dot-free parts recovers the parts |
| `Catalog.ValidSelection` | main.py:75-76 | a selection is valid exactly when the region is a key and the country a key of that region; the promise that an invalid selection changes no session or table state is the first `ensures` of `Shop.Shop.CreatePayment` |
| `Catalog.Price` | main.py:643-644 | the unit price of a valid selection; positive in a well-priced catalogue |
| `Catalog.CountryName` | main.py:79-82 | a valid selection shows its catalogue name and an invalid one the fallback name; when no country carries the fallback name, the fallback is shown exactly for invalid selections |
| `Catalog.ProxiesWellFormed` | main.py:101-183 | every price in the shop's catalogue is positive and no country carries the fallback name |
| `Catalog.GreeceListed` | main.py:110 | Greece in Europe is a valid selection priced 199 |
| `Quantity.Clamp` | main.py:639 | the result lies in [1, 20]; equals q inside, 20 above and 1 below |
| `Quantity.ParseInt` | main.py:639 | a number `int()` returns has at most 4300 digits |
| `Quantity.ParseGroupsOfRuns` | main.py:639 | `"_".join` of non-empty digit runs is read as the value of the runs written together, and refused beyond 4300 digits |
| `Quantity.ParseGroupsAccepted` | main.py:639 | every accepted body is `"_".join` of non-empty digit runs, valued as those runs written together |
| `Quantity.ParseIntOfRender` | main.py:639 | `int(str(n)) == n` for every integer n of at most 4300 digits |
| `Quantity.QuantityOf` | main.py:638-641 | the stored quantity lies in [1, 20]; a missing or unparsable parameter gives 1; a parsed one is clamped |
| `Quantity.QuantityOfRequest` | main.py:638-641 | a request for `str(n)` stores n for 1 <= n <= 20, 20 above and 1 below, for n of at most 4300 digits |
| `Quantity.QuantityOfOverlong` | main.py:638-641 | a request of more than 4300 digits makes `int()` raise, so the stored quantity is 1 |
| `Credentials.RandInt` | main.py:88-91 | `randint(lo, hi)` yields a value in [lo, hi] |
| `Credentials.OctetsSplit` | main.py:88 | the four drawn octets are decimals in [0, 255] and splitting their dot-join recovers them |
| `Credentials.DottedQuad` | main.py:88 | the address splits on dots into exactly four decimal octets in [0, 255] |
| `Credentials.MakeCredential` | main.py:86-91 | every record has a valid address, a port in [1000, 9999], `user` + [1000, 9999] and `pass` + [10000, 99999] |
| `Credentials.GenerateProxyData` | main.py:85-94 | exactly `quantity` records (none for quantity <= 0), each of the shape above |
| `Credentials.RegenerationDiffers` | main.py:959-963 | two draws that differ in the first octet give different batches, so re-confirming replaces credentials |
| `OrderStore.Insert` | main.py:657-665 | fails with a duplicate key exactly when the id exists; otherwise adds that one row and keeps all others |
| `OrderStore.SetStatusAndData` | main.py:962-963 | changes only status and proxy data of the one matching row; same ids, all other rows unchanged |
| `OrderStore.Delete` | main.py:937 | afterwards the id is absent and every other row is unchanged |
| `OrderStore.DeleteIdempotent` | main.py:934-942 | deleting twice is the same as deleting once |
| `OrderStore.CredentialsIffSuccess` | main.py:660 | in a well-formed table a row holds credentials exactly when confirmed, and its amount is positive |
| `OrderStore.InsertPreserves` | main.py:643-663 | inserting a new well-formed pending row keeps the table invariant |
| `OrderStore.ConfirmPreserves` | main.py:959-963 | confirming with exactly `quantity` valid credentials keeps the table invariant |
| `OrderStore.DeletePreserves` | main.py:937 | deleting keeps the table invariant |
| `OrderStore.NewestExists` | main.py:872 | a non-empty set of rows has a newest one |
| `OrderStore.NewestFirst` | main.py:872 | the query lists every id exactly once, in non-increasing timestamp order |
| `Shop.PaymentId` | main.py:645 | the id is `proxy_` followed by a decimal number in [10000, 99999] |
| `Shop.SessionCountryName` | main.py:775-777 | a missing region or country shows the fallback; a session naming an offered pair shows that country's name; with fallback-free names, the fallback appears exactly when the session names no offered pair |
| `Shop.ListingFromOrder` | main.py:872-881 | one line per id of the newest-first query is a listing: every row once, newest first |
| `Shop.ListRows` | main.py:872-881 | the admin loop produces the listing of the table; each line shows its row's country name and offers confirmation exactly when the row is not confirmed |
| `Shop.Shop.constructor` | main.py:31-42 | a fresh shop has an empty table of the schema's shape, an empty session and no message |
| `Shop.Shop.CreatePayment` | main.py:634-665 | invalid selection changes nothing; otherwise the session is updated, so the status page names the bought country, then a pending row with amount = price * quantity is inserted unless the id exists |
| `Shop.Shop.CheckPayment` | main.py:731-820 | no id redirects; a missing row shows the session cache or redirects; a confirmed row is shown and cached; otherwise the pending view |
| `Shop.Shop.ConfirmPayment` | main.py:947-973 | a missing id only sets the not-found message; otherwise just that row becomes confirmed with `quantity` fresh credentials |
| `Shop.Shop.DeletePayment` | main.py:934-942 | the row is removed, nothing else changes, and the success message is set either way |
| `Shop.Shop.AdminPanel` | main.py:862-881 | pops the flash message and returns the listing of the table, offering confirmation exactly for unconfirmed rows |
| `Shop.OpenShop` | main.py:101-183 | a shop opened on its own catalogue satisfies the class invariant and offers Greece in Europe at 199 |

## Left out

- HTML rendering, CSS and the page templates: presentation only. The
  model returns the data each page shows.
- Flask routing, HTTP redirects and the cookie-backed session: the session
  is a record of the keys the lifecycle uses, and a redirect is a value.
  The administrator's flash message lives in a separate field because it is
  in the administrator's session, not the buyer's.
- `Shop.Shop.constructor`: nothing in main.py calls `init_db` (main.py:27);
  both `__main__` blocks (main.py:982-983, main.py:1028-1029) only call
  `app.run`. The model assumes a `payments.db` whose table, with the schema
  of main.py:31-42, was created beforehand. Without that table every INSERT
  fails and redirects to the catalogue after the session was updated, and
  the status check's SELECT and the admin page's SELECT and DELETE raise
  uncaught errors.
- SQLite connections, `init_db` schema migration and the status index: I/O.
  The table is an in-memory map.
- Store failures other than the duplicate key, including the
  "Ошибка при подтверждении платежа" branch of `confirm_payment`: I/O
  faults with no logic to verify.
- Admin authentication (`login_required`, `admin_login`, `admin_logout`,
  password hashing): foreign library calls and session flags. Every admin
  method is callable in the model.
- Environment configuration (`SECRET_KEY`, `BANK_CARD`, admin credentials).
- JSON encoding of `proxy_data`: credentials are stored and read back as a
  sequence, so the decode-failure branch of `check_payment` cannot occur in
  the model.
- `Quantity.ParseInt`: models `int()` on ASCII text only; non-ASCII digits
  and non-ASCII whitespace, which Python also accepts, are not modelled.
  The 4300-digit limit is that of Python 3.11 and later at its default
  setting; earlier versions, which have no limit, are not modelled. The
  `TypeError` branch cannot arise for a string parameter.
- `ParseIntOfRender` and `QuantityOfRequest` are stated for integers of at
  most 4300 digits, since Python 3.11 and later refuse longer decimal text;
  `QuantityOfOverlong` states what happens beyond that.
- `OrderStore.NewestFirst`: timestamps are clock ticks, so real wall-clock
  ties (whose order SQLite leaves unspecified) do not arise; with ties the
  model still lists in non-increasing order.
- `ConfirmPayment` and `CreatePayment`: each route runs as one atomic step.
  `app.run` serves requests on threads, so a `delete_payment` between the
  SELECT and the UPDATE of `confirm_payment` would leave the UPDATE matching
  no row while the confirmation message is still set; the model does not
  capture that interleaving.
- `CreatePayment` and `CheckPayment`: the shop holds a single buyer
  session, where each buyer has their own cookie session. A purchase
  overwrites that one session, so two buyers' sessions side by side, and
  one buyer seeing another's order through a colliding id, are described
  only as the single session's new state.
- The `amount REAL` column: amounts are integer products, modelled as `int`.
- The country display colour in the catalogue, the home, catalogue and
  detail pages, `app.run` and the 404/500 handlers.
