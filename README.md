# Shortlink engine: a Dafny model

This project models the core of a URL-shortening service written in Rust.
It gives each long target URL a seven-character alphanumeric name (its
*canonical* shortlink). A caller may instead choose a *custom* name. A
request for a name redirects to its target and records a visit. Per-name
statistics are computed from the recorded visits.

The model covers two things:

- The allocation and lookup engine (`src/lib.rs`). It runs over an abstract
  store, the class `Engine.Store`, which holds:
  - the canonical table (`canonical: map<string, string>`, name to target);
  - the custom table (`custom`, name to target);
  - the append-only visit log (`visits: seq<Visit>`);
  - the creation timestamps read by the stats query (`createdOn`).
- The HTTP handlers (`src/server.rs`), modelled as pure functions from engine
  results to responses, plus thin handler methods that call the engine.

Files and modules:

- `wrappers.dfy` (`Wrappers`): `Option` and `Result`.
- `models.dfy` (`Models`): rows and values: `Shortlink`, `Visit`, abstract
  dates and timestamps, and the rows of the aggregate query.
- `stats.dfy` (`Stats`): the pure aggregation of `get_stats` and its lemmas.
- `engine.dfy` (`Engine`): the name generator's output, the target
  constraint, and `Store` with the store operations: four methods
  (`CreateShortlink`, `CreateCustomShortlink`, `FindTarget`,
  `IncrementVisit`) and the read-only function `GetStats`.
- `server.dfy` (`Server`): status codes, response bodies, the
  conflict-error body, and the `create`, `load` and `stats` handlers.
- `scenarios.dfy` (`Scenarios`): the creation tests of `src/lib.rs`, written
  as client methods. `CreateCustomFailCustomName` is a variant of the test
  that posts `"foo"` twice: it reuses one name with two different targets. Each one checks its assertions using only the
  contracts. Two more scenarios cover canonical names shadowing custom ones
  and repeat visits from one address.

How the random name generator is modelled: `random_name` becomes a supplied
sequence of draws. `Store.CreateShortlink` requires three things:

- there is at least one draw;
- every draw is seven characters from `[A-Za-z0-9]`;
- when the target is new, some draw is not already a canonical name.

The source retries without a cap, so it returns only in that last case.
Under these conditions the model, like the source, always returns a
shortlink. That is why the `unwrap` in the `create` handler cannot fail
(`Server.CreateOutcome`'s precondition, discharged in `Server.Create`).

Behaviours of the code worth knowing:

- **Canonical names can shadow custom names.** Canonical allocation checks
  only canonical names. So a draw equal to an existing custom name is
  accepted, and from then on lookups of that name return the canonical
  target. The model does not claim that the two tables have disjoint names.
  `Scenarios.CanonicalNameShadowsCustomName` shows the shadowing.
  `Store.CreateCustomShortlink` does keep the tables disjoint when they
  already were.
- **Visits without an address count as one visitor.** The unique-visitor
  count is `COUNT(*)` over `SELECT DISTINCT ip_addr`. A NULL address is one
  of the distinct values, so all such visits together count as one visitor
  (`Stats.AnonymousVisitsCountOnce`).
- **The allocation loop has no retry cap.**
- **Stats come from the timestamp table.** They are served for any name that
  has a creation timestamp, whichever shortlink table holds it.

## Model

| member | source | states |
|---|---|---|
| `Engine.FirstFresh` | src/lib.rs:81-108 | the draw on which the retry loop stops is a name not yet taken, and every earlier draw was taken |
| `Engine.Store.constructor` | src/lib.rs:272-283 | a fresh store has empty shortlink tables and no visits, and satisfies the table constraints |
| `Engine.Store.CreateShortlink` | src/lib.rs:73-113 | a target that already has a canonical row gets that row back, and neither table changes; otherwise exactly one canonical row is added, under the first draw that is not a canonical name, and that row is returned; canonical targets stay unique; custom names are not consulted; custom rows, visits and timestamps are unchanged |
| `Engine.Store.CreateCustomShortlink` | src/lib.rs:115-152 | fails, changing nothing, exactly when the name is a canonical or a custom name; otherwise adds exactly (name, target) to the custom table and returns it; no constraint on custom targets; tables that were name-disjoint stay so |
| `Engine.Store.FindTarget` | src/lib.rs:154-177 | the canonical target if the name is canonical, else the custom target, else nothing; exactly one visit (name, address) is appended when and only when a target is found; the tables are unchanged |
| `Engine.Store.IncrementVisit` | src/lib.rs:247-257 | appends exactly one visit row (name, address) and changes nothing else |
| `Engine.Store.GetStats` | src/lib.rs:188-241 | nothing when the name has no creation timestamp; otherwise the name, its timestamp, the sum of the aggregate counts, the per-day map collected from the aggregate rows, and the number of distinct addresses among the name's visits |
| `Stats.TotalVisitsAppend` | src/lib.rs:211 | the total over two batches of aggregate rows is the sum of their totals |
| `Stats.TotalVisitsNonNegative` | src/lib.rs:211 | counts that are never negative give a total that is never negative |
| `Stats.TotalVisitsBoundsEachRow` | src/lib.rs:211 | with non-negative counts, every row's count is at most the total |
| `Stats.VisitsPerDayKeys` | src/lib.rs:213-216 | the per-day map's keys are exactly the dates of the aggregate rows |
| `Stats.VisitsPerDayLastWins` | src/lib.rs:213-216 | a date maps to the count of the last row with that date, as collecting into a hash map does |
| `Stats.DistinctIpsMembers` | src/lib.rs:224-231 | an address (or the absent address) is counted exactly when some visit of the name came from it |
| `Stats.UniqueVisitorsAfterVisit` | src/lib.rs:224-231 | one more visit leaves other names' counts alone, leaves the count unchanged for a repeat address, and adds exactly one for a new address |
| `Stats.UniqueVisitorsAtMostVisits` | src/lib.rs:224-231 | there are never more unique visitors than visit rows for the name |
| `Stats.AnonymousVisitsCountOnce` | src/lib.rs:224-231 | when no visit of the name carries an address, the name has one unique visitor if it was visited at all, and none otherwise |
| `Stats.AnonymousDistinctIps` | src/lib.rs:224-231 | visits without an address contribute only the absent address to the distinct set |
| `Server.AlreadyExistsMessageQuotesName` | src/server.rs:45 | the conflict message is the fixed prefix, the name verbatim, then a closing double quote |
| `Server.AlreadyExistsMessageInjective` | src/server.rs:45 | different names give different conflict messages |
| `Server.CreateError.StatusCode` | src/server.rs:36-38 | a taken name is reported with status 409 Conflict |
| `Server.CreateError.ErrorResponse` | src/server.rs:40-49 | the error response is 409 with body code 409, the carried name, and the message quoting that name |
| `Server.CreateOutcome` | src/server.rs:61-70 | success exactly when the engine returned a shortlink, carrying its name and target unchanged; otherwise ShortlinkAlreadyExists with the requested name; an unnamed request cannot fail |
| `Server.CreateReply` | src/server.rs:53-70 | a success is sent as 200 with the created JSON; an error is sent as exactly the error's own response (409, body code 409, the quoting message and the name) |
| `Server.Create` | src/server.rs:52-71 | a named request goes to custom creation and fails exactly when the name is taken in either table, with the error naming it; an unnamed request goes to canonical allocation and always succeeds, with the dedup-by-target and first-fresh-draw behaviour; the echoed target is the requested one; visits are unchanged |
| `Server.LoadResponse` | src/server.rs:81-87 | a found target gives 303 See Other with Location set to it; a miss gives 404 |
| `Server.Load` | src/server.rs:73-88 | redirects exactly when the name is in either table, to the canonical target first, and records one visit with the peer address exactly on a redirect |
| `Server.StatsResponse` | src/server.rs:94-98 | a summary is served as 200 JSON; no summary gives 404 |
| `Server.StatsHandler` | src/server.rs:90-99 | 200 exactly when the name has a creation timestamp, with the body being exactly the summary `get_stats` builds; 404 otherwise |

## Left out

- The database engine, the connection pool, `establish_connection` and `database_url` (src/lib.rs:50-71) are not modelled. Each operation is one atomic method on the store, so the transaction around custom creation becomes plain atomicity.
- Concurrency between request handlers is not modelled. The transaction and the unique constraint exist to serialise concurrent callers; the model covers only one caller at a time.
- Storage failures (`expect("Database error")`, `unwrap` and `panic!` on other database errors) are not modelled; storage is treated as infallible.
- Column widths are not modelled: VARCHAR(10) canonical names, VARCHAR(128) custom names and VARCHAR(2048) targets. A database that enforces them would reject longer values with an error, which falls under the storage failures above.
- Randomness is not modelled. `thread_rng` is replaced by a supplied sequence of draws.
- Engine.Store.CreateShortlink: requires that some draw be a new name when the target is new. The source's loop has no cap, so with a source that never yields a fresh name it would not terminate; the model does not represent that non-termination.
- The `get_stat` stored SQL function is not modelled (src/lib.rs:36-38, 206). Its result rows are a parameter of `GetStats` and are not related to the visit log, because the function's body is not in the repository. The visit timestamps it groups by are assigned by the database.
- Nothing in the model writes the `stats.created_on` table, because no code in the repository writes it; `createdOn` is an input to the store.
- Engine.Store.GetStats: the total and the counts are unbounded integers; the source's `i64` sum could overflow, which is not modelled.
- Date arithmetic (`NaiveDateTime::date`) is reduced to a field projection on an abstract timestamp.
- Server.LoadResponse: promises 303 See Other for every found target. The source sets the Location header with `header()` (src/server.rs:82-84). A target that is not a valid header value, for example one containing a control character, makes `finish()` return an error response instead. Header-value validation is not modelled, and nothing at creation checks targets. In that case `find_target` has still recorded the visit.
- Server.Load: the same gap as `LoadResponse`. A found target that is not a valid header value gets a redirect in the model but an error response in the source.
- IP address formatting (src/lib.rs:250) is not modelled: the address arrives already as text.
- JSON serialisation is not modelled, and neither is the `Display` implementation of `CreateError` (src/server.rs:28-33). Response bodies are datatypes with the fields the JSON carries.
- `src/main.rs` (server start-up and migrations) is not part of this model.
- `Stat` and `Visit` in `src/models.rs` are not used by the core. `Visit` there has no address column, unlike the insert at src/lib.rs:253; the model's `Visit` row follows the insert.
