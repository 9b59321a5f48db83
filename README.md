# Expense dashboard: cached list and add-form draft

This project models the Dashboard page of the cashtrack expense-tracking client, with its network, dialogs and rendering taken out. The page keeps two pieces of state:

- the cached list of expense records, each with `{id, title, amount, category, date}` and every field but the id held as text;
- the add form's draft: four strings.

It has four handlers that change that state:

- **load** (on mount): replaces the list with the server's list.
- **add**: checks that every draft field is non-empty, posts the draft, appends the record the server returns and clears the draft.
- **delete**: asks for confirmation, sends the delete, then filters out every record with that id.
- **update**: prompts for four new values and checks each one. It sends them, then maps over the list and lays the new fields over the clicked record wherever the id matches.

A failed request is only logged. It leaves the list and the draft as they were.

Files:

- `wrappers.dfy`: module `Wrappers`, the `Option` type. A cancelled `prompt` is `None`.
- `expenses.dfy`: module `Expenses`. It holds the record and field types, the presence checks (JavaScript's `!s` is true of `''` and of a cancelled prompt) and the three pure list transformations: `Appended` (`[...expenses, res.data]`), `RemoveId` (`filter`) and `ReplaceId` with `Overlay` (`map` with `{...expense, ...updatedExpense}`). It also holds the lemmas about them: order, multiplicities, no-op on an absent id, idempotence, the exact effect when ids are unique, and preservation of unique ids.
- `dashboard.dfy`: module `Dashboard`, with the class `ExpenseDashboard`. Its fields are `expenses`, `title`, `amount`, `category` and `date`, and each handler is a method. Each handler takes the outside answers as parameters: the network reply or outcome, the `confirm` answer and the prompt answers. It returns the request it would send, or `None` when it sends nothing. Each method's `ensures` gives the whole new state in terms of the old state and the pure functions. Three client methods show what callers can prove from those contracts:
  - `UniqueIdsScenario`: ids stay unique through load, add, update and delete.
  - `LunchBusScenario` and `BusPassScenario`: the documented Lunch/Bus walk-through, split in two.

Where the design description and the code disagree, the model follows the code:

- The description says a failed create or update shows a blocking alert. In the code a failed request only calls `console.error`, and `alert` appears only on the presence checks.
- The description speaks of replacing "the element" matching an id and removing "the element". The code maps and filters, so it affects every record with that id. The model does the same. The single-element reading is proved as a consequence when ids are unique (`RemoveIdUnique`, `ReplaceIdUnique`).

## Model

| member | source | states |
|---|---|---|
| `Expenses.Collect` | src/pages/Dashboard.jsx:69-84 | the update fields exist exactly when all four prompts were answered with non-empty text; they are then those four answers, all present |
| `Expenses.Appended` | src/pages/Dashboard.jsx:43 | after a create the list is one longer, its prefix is the old list unchanged, and its last element is the server's record |
| `Expenses.AppendedUnique` | src/pages/Dashboard.jsx:43 | appending keeps ids unique if and only if the old list had unique ids and the new record's id is not among them |
| `Expenses.RemoveId` | src/pages/Dashboard.jsx:62 | a delete never makes the list longer |
| `Expenses.RemoveIdMembers` | src/pages/Dashboard.jsx:62 | a record survives a delete if and only if it was in the list and its id differs from the deleted id, so no record with that id remains |
| `Expenses.RemoveIdKeepsOrder` | src/pages/Dashboard.jsx:62 | the survivors of a delete are a subsequence of the old list, in their old relative order |
| `Expenses.RemoveIdMultiplicity` | src/pages/Dashboard.jsx:62 | a delete keeps each record with another id exactly as many times as it occurred and keeps no record with the deleted id |
| `Expenses.RemoveIdAbsent` | src/pages/Dashboard.jsx:62 | deleting an id that no record carries leaves the list unchanged |
| `Expenses.RemoveIdIdempotent` | src/pages/Dashboard.jsx:62 | deleting the same id twice gives the same list as deleting it once |
| `Expenses.RemoveIdUnique` | src/pages/Dashboard.jsx:62 | with unique ids, deleting the id of the record at position k yields the list without exactly that position |
| `Expenses.RemoveIdOnlyAt` | src/pages/Dashboard.jsx:62 | when the deleted id occurs only at position k, the delete yields the list without exactly that position |
| `Expenses.RemoveIdKeepsUnique` | src/pages/Dashboard.jsx:62 | a delete keeps the ids of a list unique |
| `Expenses.ReplaceId` | src/pages/Dashboard.jsx:90 | an update keeps the length of the list |
| `Expenses.ReplaceIdAt` | src/pages/Dashboard.jsx:90 | at every position an update stores the replacement exactly when the old record's id matches, and otherwise keeps the old record |
| `Expenses.ReplaceIdPointwise` | src/pages/Dashboard.jsx:90 | the same statement for all positions at once |
| `Expenses.UpdateOverlayAt` | src/pages/Dashboard.jsx:79-90 | a matching record becomes itself with title, amount, category and date replaced by the new values, keeping its id; every other record is untouched |
| `Expenses.UpdateKeepsIds` | src/pages/Dashboard.jsx:90 | an update whose replacement carries the matched id leaves the sequence of ids unchanged |
| `Expenses.ReplaceIdAbsent` | src/pages/Dashboard.jsx:90 | updating an id that no record carries leaves the list unchanged |
| `Expenses.ReplaceIdIdempotent` | src/pages/Dashboard.jsx:90 | repeating the same update gives the same list as doing it once |
| `Expenses.ReplaceIdUnique` | src/pages/Dashboard.jsx:90 | with unique ids, updating by the id of the record at position k changes that one position to the replacement and nothing else |
| `Expenses.ReplaceIdKeepsUnique` | src/pages/Dashboard.jsx:90 | an update keeps the ids of a list unique |
| `Dashboard.ExpenseDashboard.constructor` | src/pages/Dashboard.jsx:5-9 | a mounted page starts with no expenses and four empty draft fields |
| `Dashboard.ExpenseDashboard.SetTitle` | src/pages/Dashboard.jsx:108 | typing in the title input changes the draft's title and nothing else |
| `Dashboard.ExpenseDashboard.SetAmount` | src/pages/Dashboard.jsx:117 | typing in the amount input changes the draft's amount, kept as text, and nothing else |
| `Dashboard.ExpenseDashboard.SetCategory` | src/pages/Dashboard.jsx:125 | typing in the category input changes the draft's category and nothing else |
| `Dashboard.ExpenseDashboard.SetDate` | src/pages/Dashboard.jsx:134 | picking a date changes the draft's date and nothing else |
| `Dashboard.ExpenseDashboard.Load` | src/pages/Dashboard.jsx:12-21 | the list becomes the server's list on success and is unchanged on failure; the draft is never touched |
| `Dashboard.ExpenseDashboard.AddExpense` | src/pages/Dashboard.jsx:27-50 | with any draft field empty nothing is sent and nothing changes. Otherwise the draft is posted. On success the list is the old list plus the server's record and the draft is cleared; on failure the list and the draft are kept |
| `Dashboard.ExpenseDashboard.DeleteExpense` | src/pages/Dashboard.jsx:53-66 | without confirmation nothing is sent and nothing changes. Otherwise a delete of the id is sent. On success the list is the old list with that id filtered out; on failure it is unchanged. The draft is never touched |
| `Dashboard.ExpenseDashboard.UpdateExpense` | src/pages/Dashboard.jsx:68-94 | with any prompt cancelled or empty nothing is sent and nothing changes. Otherwise a put of the four answers under the clicked id is sent. On success every record with that id is replaced by the clicked record overlaid with the answers; on failure the list is unchanged. The draft is never touched |

## Left out

- HTTP is not modelled. The model leaves out the axios calls, the URLs, the bearer token read from `localStorage` and the `Authorization` header. Each request is an abstract reply (`Ok` with its payload, or `Failed`) or an outcome passed in, and the handler returns the `Request` it sends.
- `window.confirm`, `prompt` and `alert` are UI input and output. Their answers are parameters. The validation alert and the `console.error` logging leave no trace in the state, so they are not modelled.
- The default text each prompt is pre-filled with (the record's current value) is not modelled. Only the final answer matters to the handler.
- JSX rendering, the table layout, the "No expenses found." message and `e.preventDefault()` are presentation, not state.
- Load runs once per mount through `useEffect(..., [])`. The model exposes it as a method and does not limit how often it is called.
- Overlapping async handlers are not modelled: a stale `expenses` closure, a double-click, or a request resolving after another handler ran. Handlers run strictly one at a time, each from the current state.
- A record has exactly the five fields the page reads and writes. Any further fields a server might add are not modelled. As a result, overlaying the clicked record and overlaying the matching record in the list give the same result.
- Ids are integers compared by value. `===` and `!==` on ids of one type agree with that.
- Nothing reads `amount` as a number, and neither does the model.
- The register, forgot-password and reset-password pages, and the route table, are outside this model. Each page is a single request plus a token store or a flag; the route table is declarative.
