# Dashboard pending-request table, modelled in Dafny

This project models the settings broker of the RT backend's dashboard API
(`blueprints/api/dashboard.py`). A logged-in dashboard user submits a
settings change. The change is keyed by the user's client address and waits
in `bp.queues`. The bot's settings websocket drains the queue: it offers each
request to the bot, takes one acknowledgement, and moves the request to
`bp.doing`. The bot later posts its reply to `/reply/<ip>`, and the route
normalises it. As the code is written, the reply is never stored: the route
checks `bp.queues` but reads `bp.doing` (see "## Findings"). The model's
`PendingTable.Reply` is the corrected route, which stores the normalised reply
in the acknowledged request's event. `SettingReplyAsWritten` is the route as
written. Beside the table sits the settings catalogue
`bp.data`, which the bot replaces wholesale and the dashboard reads per
category.

Files:

- `json.dfy`: module `Json`. JSON values as the routes receive them, and
  Python's `str()` of a value inside an f-string.
- `dashboard.dfy`: module `Dashboard`. The blueprint's state as the class
  `PendingTable` (`data`, `queues`, the insertion order of `queues`, `doing`).
  The bot's connection as the class `SettingsWebSocket`. The pure reply
  formatter and catalogue lookup. The reply route as the code has it, for
  the finding below.
- `scenarios.dfy`: module `Scenarios`. Whole exchanges proved from the
  contracts alone: the ping/pong round trip, a dict reply, and a submission
  that arrives during a drain cycle.

Modelling choices:

- `PendingTable.Valid()` holds between every two awaits. It says three
  things. `order` lists the keys of `queues` exactly once each, in insertion
  order; this is the order in which `list(bp.queues.items())` lists them. No
  key is in both `queues` and `doing`. Every operation preserves it.
- An event's data is fixed when the event is created. The code stores the
  body and the address right after creating the event, with no await in
  between, so no other task can see the event first.
- A drain cycle is split into turns of its loop. `BeginCycle` takes the
  snapshot. `Step` handles one entry: it offers the entry (`send`), takes the
  acknowledgement (`recv`), and moves the entry. `EndCycle` sends
  `on_posted`. Other handlers may run between these methods.
  `Scenarios.LateSubmission` shows that a key submitted after the snapshot
  stays queued. `Step` covers two awaits, so a handler running between its
  `send` and its `recv` is folded into the point before or after the step.
  This loses nothing for the handlers modelled here. A submission for the
  entry's own key is refused with 423 because the key is still queued.
  Other submissions only append to the queue, and `Reply` changes no map.
- Errors are values: a status (423, 400, 404) or the Python exception the
  code would raise (KeyError, TypeError).
- No operation ever removes a key from `doing`, because the code never does.
  So a second request from the same address is refused with 423
  (`Scenarios.PingPong`).

The code has no validation of required fields. It does not drop entries
when a caller times out. It has no acknowledgement timeout and no mass
resolution when the bot disconnects. It does not remove the entry when a
reply arrives. The model keeps all of these as the code has them. It departs
from the code in one place: the reply route, as recorded under "## Findings".

## Model

| member | source | states |
|---|---|---|
| `Dashboard.PendingTable.constructor` | blueprints/api/dashboard.py:46-49 | The blueprint starts with an empty catalogue and two empty maps, and the table invariant holds. |
| `Dashboard.PendingTable.UpdateSettings` | blueprints/api/dashboard.py:53-58 | The catalogue becomes exactly the posted value; the request maps are untouched. |
| `Dashboard.GetCategory` | blueprints/api/dashboard.py:65-67 | Succeeds exactly when the catalogue is a dict holding the category, and then returns that entry. A dict without the category gives 400. Any other result is 400 or TypeError, following Python's `in` and indexing on lists, strings and scalars. |
| `Dashboard.PendingTable.GetSettings` | blueprints/api/dashboard.py:61-67 | Looks up the current catalogue and changes nothing. The answer is `GetCategory`'s for the current catalogue: found exactly when it is a dict holding the category, with that entry returned, 400 for a dict without it, and otherwise 400 or TypeError. |
| `Dashboard.StampCaller` | blueprints/api/dashboard.py:116 | The stored data has key "ip" set to the caller's address; every other submitted field is kept unchanged, and no other key is added. |
| `Dashboard.Event.constructor` | blueprints/api/dashboard.py:112-115 | A new event carries the given data and no payload yet. |
| `Dashboard.PendingTable.Submit` | blueprints/api/dashboard.py:103-121 | Refused with 423 exactly when the address is in `queues` or `doing`, and then nothing changes. Otherwise exactly one fresh event is added under the address, at the end of the insertion order, and `doing` and every other entry are unchanged. A dict body is stored with the address stamped in and the caller waits (`Ok`). Any other body raises TypeError after the event is already queued. The invariant is preserved. |
| `Dashboard.DistinctAppend` | blueprints/api/dashboard.py:112 | Adding a key that is not yet queued keeps the insertion order free of duplicates. |
| `Dashboard.FormatReply` | blueprints/api/dashboard.py:89-91 | A non-dict reply passes through unchanged. A dict reply succeeds exactly when it has both "title" and "description", giving `ReplyText` of `str(title)` and `str(description)`: "# ", the title, a line break, then the description. Whatever the title, the text starts with "# ". A missing key is a KeyError. `ReplyTextParses`, `ParseReplyInverse` and `FormatReplyRoundTrip` tie `ReplyText` to its parser. |
| `Dashboard.ReplyTextParses` | blueprints/api/dashboard.py:91 | `"# " + title + "\n" + description` with a one-line title is read back as exactly that title and description. |
| `Json.PyStr` | blueprints/api/dashboard.py:91 | Inside the f-string, a string stands for itself. Every other value renders as a non-empty text on one line. |
| `Json.DigitsRoundTrip` | blueprints/api/dashboard.py:91 | The digits rendered for a natural number read back as that number. |
| `Json.DecimalRoundTrip` | blueprints/api/dashboard.py:91 | Python's text for an integer, sign included, reads back as that integer. |
| `Dashboard.FormatReplyRoundTrip` | blueprints/api/dashboard.py:90-91 | A dict reply with both keys, whose title renders on one line, normalises to a text that parses back to `str(title)` and `str(description)`. Any value other than a string title meets the condition. |
| `Dashboard.ParseReplyInverse` | blueprints/api/dashboard.py:91 | Every text the parser accepts is exactly `"# " + title + "\n" + description` for the title and description it returns, and the title has no line break. |
| `Dashboard.PendingTable.Reply` | blueprints/api/dashboard.py:87-97 | The reply is normalised first, and a malformed dict is a KeyError whatever the address. For an acknowledged address, the normalised reply is stored in its event. Any other address gets NotFound with no change. The maps never change: removing the key from `queues` by key is a no-op, and the `doing` entry stays. |
| `Dashboard.SettingReplyAsWrittenNeverResolves` | blueprints/api/dashboard.py:92-97 | With the code's own guard and no key in both maps, the reply route never succeeds. A queued address fails the `bp.doing[ip]` lookup with KeyError. An acknowledged address, the one awaiting a reply, gets NotFound. |
| `Dashboard.Without` | blueprints/api/dashboard.py:81 | Removing one key by key leaves exactly the other keys and keeps the listing free of duplicates. A key that is absent leaves it unchanged. |
| `Dashboard.WithoutAt` | blueprints/api/dashboard.py:81 | In a duplicate-free listing, removing the key at a position keeps everything before it and everything after it in order. So `del` keeps the insertion order of the remaining keys. |
| `Dashboard.SettingReplyAsWritten` | blueprints/api/dashboard.py:87-97 | The reply route as written. A malformed dict reply raises the normalisation's KeyError first. A key that is not queued gets NotFound. A queued key that is not in `doing` raises KeyError. The route succeeds exactly when the reply normalises and the key is in both maps. |
| `Dashboard.Snapshot` | blueprints/api/dashboard.py:77 | A key appears in the point-in-time copy exactly when it is queued. The copy follows the insertion order, one entry per position, each key with its event. |
| `Dashboard.Posts` | blueprints/api/dashboard.py:78 | One `on_post` message per snapshot entry, carrying that entry's data, in snapshot order. |
| `Dashboard.PostsAppend` | blueprints/api/dashboard.py:77-78 | Offering one more entry appends exactly its `on_post` message. |
| `Dashboard.SettingsWebSocket.BeginCycle` | blueprints/api/dashboard.py:77 | The cycle's work list is the snapshot of the queue at that moment. |
| `Dashboard.SettingsWebSocket.Step` | blueprints/api/dashboard.py:77-81 | The next snapshot entry is offered and then leaves `queues`. It enters `doing` under its key with the same event object. The queue order loses its head, and the table invariant and the cycle invariant are kept. |
| `Dashboard.HeadsAppend` | blueprints/api/dashboard.py:112-113 | A submission during a cycle appends to the queue. The rest of the snapshot stays at the head of the queue with the same events. |
| `Dashboard.MovedListing` | blueprints/api/dashboard.py:80 | The entries moved by a run of turns are exactly the queue's entries for the keys processed. |
| `Dashboard.SettingsWebSocket.DrainRest` | blueprints/api/dashboard.py:77-81 | Every remaining snapshot key leaves `queues` and is added to `doing` with the event it had. Keys queued after the snapshot stay queued, in order. The offers sent are one per entry, in order. |
| `Dashboard.SettingsWebSocket.EndCycle` | blueprints/api/dashboard.py:82 | Exactly one `on_posted` closes the cycle. |
| `Dashboard.SettingsWebSocket.OnReady` | blueprints/api/dashboard.py:74-82 | Run without interleaving, a cycle empties `queues`. `doing` becomes the old `doing` plus the old `queues`. The bot receives the snapshot's offers in order, then one `on_posted`. |
| `Scenarios.PingPong` | blueprints/api/dashboard.py:103-121 | Submit, drain and reply with "pong": the caller's event holds "pong". The bot saw one offer with the caller's address and one end marker. A second request from the same address is refused with 423. |
| `Scenarios.DictReply` | blueprints/api/dashboard.py:87-97 | A dict reply reaches the waiting caller as a text that gives back its title and description. A reply for an address with nothing acknowledged gets 404. |
| `Scenarios.LateSubmission` | blueprints/api/dashboard.py:77-82 | A key submitted right after the snapshot is not drained. When the cycle ends it is the only queued key, and every snapshot key has moved to `doing`. |

## Findings

| source | as written | input that shows it | evidently intended | confidence | as-written member | corrected member |
|---|---|---|---|---|---|---|
| blueprints/api/dashboard.py:92-94 | The route guards on `ip in bp.queues` and then reads `bp.doing[ip]`. On success it runs `del bp.queues`, which deletes the whole attribute. | Any reachable table. After a drain, `doing = {"1.2.3.4": e}` and `queues = {}`, and a reply to "1.2.3.4" gets NotFound. A queued key raises KeyError instead. No key is in both maps, so the success branch never runs. | Look up the acknowledged request in `doing`, store the reply in its event, and remove by key only. | high (not executed) | `Dashboard.SettingReplyAsWrittenNeverResolves` (on `Dashboard.SettingReplyAsWritten`) | `Dashboard.PendingTable.Reply` |

## Left out

- The idle poll before a drain cycle (`while self.running == "ok" and not bp.queues: await asyncio.sleep(0.01)`, lines 75-76). `OnReady` models the cycle from the snapshot on. How the websocket framework calls `on_ready` is not part of this model.
- The bot's acknowledgement (`await self.recv()`, line 79). It is a point in `Step` where nothing changes. Its content is discarded by the code, and a closed connection raising there is not modelled.
- Waiting for the reply (`asyncio.wait_for(event.wait(), timeout=DEFAULT_TIMEOUT)`, lines 117-121, constant at line 13). This is timing. The timeout path changes no state in the code, so the model has no operation for it.
- `DataEvent` is not part of this model. Its `set` is modelled as storing the payload. Single resolution and waking waiters are not modelled.
- The login check and 403 (lines 105, 122-125), the `is_okip` and `cooldown` decorators, `require_login`, route registration and the `api(...)` response builder. All are framework glue.
- `try_loads` is not part of this model. The parsed body is a parameter of type `Json.Value`, and a body that fails to parse is not modelled.
- `DEFAULT_GET_REMOTE_ADDR` is not part of this model. The caller's address is a parameter, and both calls at lines 106 and 116 are taken to give the same address.
- The type declarations (lines 16-43): the `TypedDict` classes and the `NewTypedBlueprint` annotations. They are annotations that nothing checks at run time.
- `backend/rtc.py`. It only connects to an external module and forwards log calls.
- `FormatReply`: a list or dict title or description is rendered as a fixed marker ("[...]" or "{...}"), not as Python's repr. Strings, integers, booleans and `None` render as Python renders them (`Json.PyStr`; `Json.DecimalRoundTrip` proves the integer text spells the integer).
- JSON numbers are integers only; floats are not modelled. Key order inside JSON objects is not modelled.
- Interleavings are modelled at the granularity of the drain cycle's steps, with one cycle at a time. Submissions, replies and catalogue updates may run between any two steps. `Scenarios.LateSubmission` exercises one such interleaving; the others are not enumerated.
- Dashboard.SettingsWebSocket.Step: requires that its connection's cycle is the only drain cycle in progress (`InCycle`), so two overlapping cycles cannot be expressed. Nothing in the code limits the websocket route to one connection (lines 70-71). With two connections draining at once, both snapshots can hold the same key. The second cycle then sends `on_post` for it again, and its `del bp.queues[ip]` (line 81) raises KeyError because the first cycle has already removed the key. The model assumes a single bot connection.
