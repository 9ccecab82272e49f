# SenseLink data controllers, modelled in Dafny

SenseLink receives Home Assistant state changes over two connections and passes
them to its data sources. `DataController.py` holds both clients. This project
models and verifies the two parts of that file that carry logic rather than I/O:

- **The Home Assistant message dispatcher** (`HASSController.on_message` and
  `safekey`). It takes one decoded websocket message and decides what to do:
  - answer `auth_required` with an auth frame that carries the token;
  - do nothing on `auth_invalid`;
  - answer `auth_ok` with the `subscribe_events` request (id 1) and then the
    `get_states` request (id 2);
  - hand an incremental event to every data source;
  - hand every record of the bulk snapshot to every data source;
  - or ignore the message.

  The result is a trace of actions: `Send(frame)`, `Incremental(source, data)`
  and `Bulk(source, record)`. When the code would raise instead, the result is
  the Python exception (`KeyError` or `TypeError`).
- **The MQTT topic registry and task bookkeeping** (the assembly and
  task-creation loops of `MQTTController.listen`, and `cancel_tasks`). Each data
  source declares `(topic, handler)` registrations. The first declaration of a
  topic creates its entry; each later one appends one element to that entry's
  handler list. Then one running task is started per (topic, handler element).
  `cancel_tasks` cancels every task that is not done and leaves finished tasks
  alone.

Files:

- `wrappers.dfy`: `Option`, `Result` and the Python exceptions.
- `json.dfy`: decoded JSON values, and the Python operators the code applies to
  them: `in`, subscripting, `dict.get`, truthiness, `== 1`, iteration.
- `hass.dfy`: `safekey`, the reserved ids, the outbound frames, and the
  specification of `on_message`, split into `Classify` (which branch) and
  `Reply` (what that branch does). `HassController.OnMessage` is the if/elif
  cascade with its loops, proved equal to that specification. The lemmas state
  its properties.
- `mqtt.dfy`: the registry as spec functions (`Register`, `Assemble`,
  `TaskList`, `CancelAll`), and the `MqttController` class. Its fields are
  `topics: map<string, seq<Handler>>`, the dict's key insertion order
  `topicOrder`, and `tasks`. Its loop methods are proved against those
  functions. The file also models lines 183 and 165 as written.

Modelling decisions:

- A JSON object keeps its (key, value) pairs in document order. Lookup takes the
  last pair with a key, as `json.loads` does. Iterating a dict visits each key
  once, in first-occurrence order.
- Python's `True == 1` holds, so a message whose id is JSON `true` is treated
  as an incremental update (`Hass.TrueIdIsEventReply`).
- A top-level message that is not an object is modelled too:
  - a list or string that contains `"type"` raises `TypeError` on
    `message['type']`;
  - `in` on null, a bool or a number raises `TypeError`;
  - anything else is ignored.
- Tasks are kept in creation order and identified by position. Python keeps
  them in a set, but nothing in the code depends on that set's order.
- `topics` and `tasks` persist across `Listen` calls, because the code never
  clears them. A second session would therefore append to the existing
  entries, and start tasks again for every handler element in the registry.
  As written, the code never reaches a second session: leaving the first one
  raises TypeError (see "## Findings", line 165). `Listen` models lines
  172-196 only. For a second session to be reached, it assumes that line 165 is
  corrected. The teardown itself is `CancelTasks`, run after `Listen`; every
  task `Listen` starts is still Running.

Three behaviours of the code that the model follows:

- **Dispatch needs a `"type"` key.** The code tests `'type' in message` on every
  branch, including the two id branches. A reply without a `"type"` key is
  ignored, whatever its id. So the incremental frame
  `{"id": 1, "event": {"data": …}}`, which has no `"type"`, produces nothing
  (`Hass.UntypedEventIgnored`). The same frame with a type is delivered
  (`Hass.TypedEventDelivered`).
- **Malformed messages raise.** A non-auth message without an `"id"` raises
  `KeyError` at line 95. The exception is not turned into a reconnection: it
  escapes `client_handler`, which only catches connection errors. The model
  stops at the exception (`Hass.DispatcherRaises`).
- **The registry is never rebuilt.** Topic registrations are not cleared at
  the end of a session (see above).

## Model

| member | source | states |
|---|---|---|
| `Json.Lookup` | DataController.py:65 | A decoded dict has a key exactly when some pair has it. Its value comes from the last such pair. |
| `Json.Keys` | DataController.py:114 | Iterating a dict yields each of its keys exactly once, and nothing else. |
| `Json.KeysInFirstOccurrenceOrder` | DataController.py:114 | The keys are visited in the order of their first occurrence: every occurrence of a later key comes after some occurrence of each earlier one. This fixes the record order of the bulk trace for a dict-valued result. |
| `Json.Contains` | DataController.py:67 | `'type' in v` raises TypeError exactly where a `for` loop over `v` raises. On a dict it holds exactly when `v['type']` succeeds. On a list or a dict it agrees with membership in what the loop visits, and so does a one-character key on a string. On a string, the empty key and the whole string are always found, and a longer key never is. |
| `Json.Index` | DataController.py:95 | `v[k]` raises TypeError exactly on a non-dict. It raises KeyError(k) exactly on a dict without `k`. Otherwise it yields the value of the last pair carrying `k`. |
| `Json.Get` | DataController.py:108 | `message.get('result')` is None exactly when the key is absent or maps to null: the `is None` test at line 108 cannot tell these apart. Where `message['result']` succeeds, both give the same value. |
| `Json.Chars` | DataController.py:114 | Iterating a string visits one one-character string per character, and joining them gives the string back. |
| `Json.Iterate` | DataController.py:114 | A `for` loop raises TypeError exactly on null, bool and number. A string is visited character by character, and the pieces join back to it. A dict is visited once per key, each visited key is a key of the dict, and each can be subscripted. A list is visited item by item. |
| `Json.Truthy` | DataController.py:99 | Python truthiness, as `not` at line 99 tests it. No contract of its own; `Hass.EventDelivery` states what a truthy or falsy `event/data` does. |
| `Json.EqualsInt` | DataController.py:95-105 | Python's `message['id'] == n`, where a bool compares as 0 or 1. No contract of its own; `Hass.ReservedIdsDistinct`, `Hass.TrueIdIsEventReply`, `Hass.ClassifyEvent` and `Hass.ClassifyBulk` characterise it. |
| `Hass.Resolve` | DataController.py:20 | `dpath.util.get` over literal dict keys, with None where it raises KeyError. No contract of its own; `Hass.SafeKeyMatchesSubscripts` characterises it. |
| `Hass.SafeKey` | DataController.py:18-23 | `safekey`: the resolved value, or the default. No contract of its own; `Hass.SafeKeyMatchesSubscripts` and `Hass.TruthyEventDataIsSubscriptable` characterise it. |
| `Hass.SafeKeyMatchesSubscripts` | DataController.py:18-23 | `safekey` finds a two-key path exactly when the two subscripts succeed, and finds the same value. |
| `Hass.TruthyEventDataIsSubscriptable` | DataController.py:99-103 | Once the `event/data` check passes, `message['event']['data']` cannot raise and equals the checked value. |
| `Hass.IncrementalFanOut` | DataController.py:102-103 | Exactly one call per data source, in registration order, each with the same data. |
| `Hass.BulkFanOut` | DataController.py:116-117 | Exactly one call per data source, in registration order, each with the same record. |
| `Hass.BulkTrace` | DataController.py:114-117 | A bulk update makes exactly N × \|sources\| calls. |
| `Hass.BulkTraceAt` | DataController.py:114-117 | Call number `i·|sources| + j` hands record `i` to source `j`: record by record, then data source by data source. |
| `Hass.ReservedIdsDistinct` | DataController.py:28-29 | The two reserved ids differ, so no id matches both. |
| `Hass.AuthRequiredSendsToken` | DataController.py:67-70 | `auth_required` sends exactly one frame, `{"type":"auth","access_token":token}`, and calls no data source. |
| `Hass.AuthInvalidDoesNothing` | DataController.py:72-73 | `auth_invalid` does nothing. |
| `Hass.AuthOkSendsRequests` | DataController.py:75-93 | `auth_ok` sends exactly the subscribe_events request with id 1, then the get_states request with id 2. |
| `Hass.Handshake` | DataController.py:67-93 | `auth_required` followed by `auth_ok` sends the auth frame and then the two requests, in order. |
| `Hass.Classify` | DataController.py:67-105 | Which branch of the if/elif cascade a message takes, or the exception raised while choosing. No contract of its own; see `Hass.ClassifyRaises`, `Hass.ClassifyEvent`, `Hass.ClassifyBulk` and `Hass.ClassifyIgnored`. |
| `Hass.Reply` | DataController.py:67-119 | What each branch does. No contract of its own; see the lemmas for each branch and `Hass.OnlyRegisteredSourcesCalled`. |
| `Hass.Respond` | DataController.py:63-119 | The whole of `on_message` on a decoded message. No contract of its own; see `Hass.DispatcherRaises`, `Hass.EventDelivery`, `Hass.BulkDelivery` and the auth lemmas. `Hass.HassController.OnMessage` is proved equal to it. |
| `Hass.ClassifyRaises` | DataController.py:67-105 | Branch selection raises in exactly these cases: `in` fails; `message['type']` is applied to a non-dict; or a dict with a non-auth type has no id. |
| `Hass.DispatcherRaises` | DataController.py:67-117 | The whole of `on_message` raises in exactly these cases: branch selection raises, or the bulk branch meets a result that is a bool or a number. |
| `Hass.MissingIdRaises` | DataController.py:95 | A non-auth typed message without an id raises KeyError('id'). |
| `Hass.ClassifyEvent` | DataController.py:95 | The incremental branch is taken exactly for a typed, non-auth message whose id equals 1. |
| `Hass.ClassifyBulk` | DataController.py:105 | The bulk branch is taken exactly for a typed, non-auth message whose id equals 2. |
| `Hass.ClassifyIgnored` | DataController.py:118-119 | The final else is reached exactly for an untyped message, or for a typed, non-auth message whose id is neither reserved id. |
| `Hass.UntypedIgnored` | DataController.py:67-119 | A dict without a "type" key produces no action, whatever its id. |
| `Hass.TrueIdIsEventReply` | DataController.py:95 | An id of JSON `true` matches event_rq_id, because Python has `True == 1`. |
| `Hass.EventDelivery` | DataController.py:95-103 | If `event/data` is truthy, each data source receives it once, in order. If it is missing or falsy, nothing happens. |
| `Hass.BulkNullResultIgnored` | DataController.py:108-109 | An absent or null result produces no call. |
| `Hass.BulkReplyTrace` | DataController.py:110-117 | A list result produces the record-by-record trace of bulk calls. |
| `Hass.BulkDelivery` | DataController.py:105-117 | For every list result, including an empty one and with no data sources, N records give exactly N × \|sources\| calls. For every record `i` and source `j`, call `i·|sources| + j` hands record `i` to source `j`. |
| `Hass.BulkTraceLayout` | DataController.py:114-117 | Every position of the bulk trace, for every record and source: record by record, then source by source. |
| `Hass.BulkScalarResultRaises` | DataController.py:114 | A bool or number result raises TypeError before any call. |
| `Hass.BulkTraceMembers` | DataController.py:114-117 | Every bulk call goes to a registered source and carries one of the records. |
| `Hass.OnlyRegisteredSourcesCalled` | DataController.py:63-119 | Only registered sources are called. Only auth_required and auth_ok send. Incremental calls carry `event/data`; bulk calls happen only for id 2. |
| `Hass.UntypedEventIgnored` | DataController.py:95 | The incremental frame `{"id":1,"event":{"data":…}}` without a type is ignored. |
| `Hass.TypedEventDelivered` | DataController.py:95-103 | The same frame with a type is delivered to every data source. |
| `Hass.HassController.constructor` | DataController.py:32-34 | The controller keeps the token and the data sources. |
| `Hass.HassController.OnMessage` | DataController.py:63-119 | The cascade, tested in source order, yields exactly `Respond`: the actions, or the exception raised. |
| `Hass.HassController.OnReply` | DataController.py:95-117 | For a dict whose type is not an auth type, the two id branches and the final else yield exactly `Respond`, including the KeyError for a missing id and the TypeError for a scalar result. |
| `Hass.HassController.NotifyIncremental` | DataController.py:102-103 | The loop over the data sources yields the incremental fan-out. |
| `Hass.HassController.NotifyBulk` | DataController.py:114-117 | The nested loops, records outer and data sources inner, yield the bulk trace. |
| `Mqtt.Register` | DataController.py:180-186 | One declaration, with line 183 corrected. No contract of its own; see `Mqtt.RepeatGrowsByOne` and `Mqtt.AssembleAt`. |
| `Mqtt.RegisterOrder` | DataController.py:186 | The dict's key order after one declaration. No contract of its own; see `Mqtt.AssembleKeepsSync`. |
| `Mqtt.Flatten` | DataController.py:172-179 | All declarations, data source by data source. No contract of its own; `Mqtt.MqttController.RegisterAll` is proved against it. |
| `Mqtt.Assemble` | DataController.py:172-186 | The registry after all declarations. No contract of its own; see `Mqtt.AssembleAt`, `Mqtt.AssembleExtends` and `Mqtt.AssembledHandlerTotal`. |
| `Mqtt.AssembleOrder` | DataController.py:172-186 | The key order after all declarations. No contract of its own; see `Mqtt.AssembleKeepsSync`. |
| `Mqtt.HandlersFor` | DataController.py:172-186 | The handlers declared for a topic are empty exactly when it is not declared. Each one comes from a declaration of that topic. |
| `Mqtt.AssembleAt` | DataController.py:172-186 | After assembly a topic is registered exactly when it was before or is declared. Its list is the old list followed by every handler declared for it, in declaration order. |
| `Mqtt.AssembleExtends` | DataController.py:180-186 | The new key set is the old keys plus every declared topic. No entry is replaced: each old list is a prefix of the new one. |
| `Mqtt.RepeatGrowsByOne` | DataController.py:180-183 | A repeat declaration makes its topic's list exactly one element longer and leaves the other entries alone. |
| `Mqtt.AssembleKeepsSync` | DataController.py:180-186 | The key order stays in step with the registry, without duplicates. New topics are only appended; every entry is non-empty. |
| `Mqtt.AssembledHandlerTotal` | DataController.py:172-186 | Each declaration adds exactly one handler element to the registry. |
| `Mqtt.Listeners` | DataController.py:194-196 | A topic gets one running task per handler element, in list order. |
| `Mqtt.TaskList` | DataController.py:189-196 | The tasks started for the whole registry, topic by topic in key order. No contract of its own; see `Mqtt.TaskCount`, `Mqtt.TasksPerTopic` and `Mqtt.SessionTaskCount`. |
| `Mqtt.TaskCount` | DataController.py:189-196 | The number of tasks created equals the sum of the handler-list lengths. |
| `Mqtt.TasksPerTopic` | DataController.py:189-196 | The tasks on each topic run exactly that topic's handler list, in order. Every new task is Running. |
| `Mqtt.SessionTaskCount` | DataController.py:172-196 | A session starts one task per old handler element plus one per new declaration. |
| `Mqtt.IsDone` | DataController.py:206 | `task.done()`: finished or cancelled. Used by the contract of `Mqtt.CancelAll`. |
| `Mqtt.Cancel` | DataController.py:206-208 | One step of the loop: skip a done task, otherwise cancel it. No contract of its own; `Mqtt.CancelAll` characterises it. |
| `Mqtt.CancelAll` | DataController.py:204-212 | Afterwards no task is Running. Running tasks become Cancelled. Done and Cancelled tasks are unchanged. Topics and handlers are kept. |
| `Mqtt.CancelAllIdempotent` | DataController.py:204-212 | Cancelling a second time changes nothing. |
| `Mqtt.MqttController.constructor` | DataController.py:133-145 | A new controller has an empty registry and no tasks. |
| `Mqtt.MqttController.Listen` | DataController.py:172-196 | `topics` becomes the assembly of all declarations onto the old registry. The key order is extended. The new tasks are exactly `TaskList` over the whole registry. The invariant is kept. |
| `Mqtt.MqttController.RegisterAll` | DataController.py:172-186 | The loop over the data sources folds every declaration, in order, into `topics`. |
| `Mqtt.MqttController.RegisterSource` | DataController.py:179-186 | The loop over one data source's declarations folds them in order. |
| `Mqtt.MqttController.AddRegistration` | DataController.py:180-186 | One declaration: append to the existing entry, or insert a new one with its key last in the order. |
| `Mqtt.MqttController.StartListeners` | DataController.py:189-196 | One running task per (topic, handler element), topics in insertion order. Every task runs a registered handler. |
| `Mqtt.MqttController.StartTopicListeners` | DataController.py:194-196 | The tasks of one topic, one per element of its list. |
| `Mqtt.MqttController.CancelTasks` | DataController.py:204-212 | The task sequence becomes `CancelAll` of the old one. The registry is unchanged. |
| `Mqtt.RegisterAsWritten` | DataController.py:180-186 | One declaration as written: a repeat appends the registration's handler list as one element. No contract of its own; see `Mqtt.RepeatedTopicFailsAsWritten`. |
| `Mqtt.AssembleAsWritten` | DataController.py:172-186 | All declarations as written. No contract of its own; see `Mqtt.RepeatedTopicFailsAsWritten`. |
| `Mqtt.ListenersAsWritten` | DataController.py:194-196 | Task creation as written succeeds exactly when every element of the list is callable. |
| `Mqtt.RepeatedTopicFailsAsWritten` | DataController.py:180-196 | As written, two sources declaring one topic leave a list inside its handler list. Starting the listeners then raises TypeError after the first task. |
| `Mqtt.RepeatedTopicTwoListeners` | DataController.py:180-196 | With the handler appended, two sources declaring one topic yield one entry with both handlers and two running tasks. |
| `Mqtt.RunTeardown` | DataController.py:163-165 | The callback runs, with no error, exactly when it is pushed with as many arguments as it takes. A mismatched call raises TypeError and leaves the tasks as they were. |
| `Mqtt.TeardownFailsAsWritten` | DataController.py:165 | As written, leaving `listen` raises TypeError. Every task that was running is still running. |
| `Mqtt.TeardownCancelsAll` | DataController.py:165 | With `cancel_tasks` pushed without the argument, leaving `listen` raises nothing, gives `CancelAll` of the tasks, and leaves no task running. |

## Findings

| source | as written | input that shows it | evidently intended | confidence | as-written member | corrected member |
|---|---|---|---|---|---|---|
| DataController.py:183 | A repeat declaration appends the other registration's whole handler list to the entry as a single element. Line 195 then calls that list as a handler, which raises TypeError. | Two data sources that each declare topic "T". | Append that registration's handler, so that "T" gets two listener tasks over one stream. The comments at lines 176-178 and 181 say this. | high; not executed | `Mqtt.RepeatedTopicFailsAsWritten` | `Mqtt.RepeatedTopicTwoListeners` |
| DataController.py:165 | `cancel_tasks` is pushed on the exit stack together with `self.tasks`, but it takes no argument besides `self` (line 204). So leaving `listen`, for whatever reason, raises TypeError and cancels no task. That TypeError is not an `MqttError`, so it passes the handler at line 157 and ends `client_handler`. | Any exit from `listen` while a task is running, such as the broker disconnecting. | Push `cancel_tasks` without the argument, so that every unfinished task is cancelled and `client_handler` gets to its next iteration. (That next session may still fail early, because `self.tasks` keeps the earlier tasks; see "## Left out".) | high; not executed | `Mqtt.TeardownFailsAsWritten` | `Mqtt.TeardownCancelsAll` |

`MqttController` uses the corrected `Register`. `RegisterAsWritten`,
`AssembleAsWritten` and `ListenersAsWritten` model line 183 as written.
`MqttController.CancelTasks` is the corrected teardown. `RunTeardown` with
`TeardownAsWritten` models line 165 as written.

## Left out

- Websocket connect, receive loop and the 10-second reconnect (DataController.py:36-61). These are network I/O and scheduling.
- What happens after `on_message` raises. The model returns the exception and stops there.
- The MQTT reconnect loop with its 5-second delay (DataController.py:147-160). This is broker I/O and scheduling.
- The broker `Client`, `filtered_messages`, the `all_topics` list, `subscribe` and `asyncio.gather` (DataController.py:163-169, 189-193, 198-202). These are broker I/O and concurrency. Only the dict and task bookkeeping is modelled.
- The exit stack itself (DataController.py:163-169). Only the one callback pushed at line 165 is modelled (see "## Findings"). The broker context it also holds is not.
- The `MqttError` raised by a disconnect, and how line 157 tells it apart from the TypeError of line 165. The model's errors are only `KeyError` and `TypeError`.
- `asyncio.gather(*self.tasks)` (DataController.py:202) also awaits the tasks of earlier sessions, because `self.tasks` is never cleared. So a later session would re-raise a CancelledError or an earlier task's stored exception as soon as it gathers. The model keeps the old tasks in `tasks` but does not model what awaiting them does. This comes from asyncio's documented behaviour.
- Real cancellation and awaiting (DataController.py:208-212). Only the status change is modelled. A task that suppresses its cancellation, or raises something else when awaited, is not covered.
- `json.loads` and `json.dumps` (DataController.py:65, 70). Messages are taken already decoded, and frames are modelled as values. JSON numbers with a fraction or an exponent are not modelled, so `1.0 == 1` is not covered.
- The `dpath` library (DataController.py:7, 20). `Resolve` only follows literal dict keys. It does not cover list indices or glob characters in a path, and it resolves an empty path to the document itself. dpath's own validation of key names is not modelled either; by its documented behaviour it rejects an empty-string key with an exception other than `KeyError`. `safekey` catches only `KeyError` (line 22), so if the version in use does this, a message with a `""` key could make `safekey` raise rather than return the default. The model returns the default.
- Logging throughout.
- `ws.send` raising. Each send is recorded as a `Send` action.
- The data sources' behaviour (`parse_incremental_update`, `parse_bulk_update`, `handlers()`). Data sources and handlers are opaque identifiers. What `handlers()` returns is an input of `Listen`, and an exception raised by a data source is not covered.
- Class-attribute aliasing (DataController.py:30, 123, 134, 138-139). In the code, one `handlers` list is shared by every `MQTTTopic`, and `data_sources`, `topics` and `tasks` are shared by every instance. In the model, each registration has its own handler list, and each controller owns its fields.
- The url, host, port, username and password (DataController.py:32-34, 141-145). They are only used to open connections.
