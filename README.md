# spanky.py worker and selector, modelled in Dafny

This project models three parts of the spanky.py chat bot.

- **The paginated reaction selector** (`plugins/selector.py`).
  - A `Selector` cuts an ordered label-to-callback mapping into pages of at most ten items. Each item is labelled with a keycap marker, and the markers restart on every page.
  - Pages are titled `"<title> (part k/N)"`, or with the plain title for a lone short page.
  - Left and right arrow reactions step through the pages, wrapping at both ends. Any other reaction picks the item of the shown page that carries it.
  - A `RoleSelector` fills a selector with server roles and turns picks into role changes: a per-user rate limit, toggling a held role off, and evicting the first-listed held roles to stay within a cap.
  - The plugin's module state is modelled too: permanently watched selectors, the deque of the last 50 posted ones, and the time of each user's last pick.
- **The worker's dispatch loop** (`worker/main.py`).
  - A chat message starting with `.` is split with Python's `str.split(maxsplit=1)`.
  - The first word is looked up in the command table. A known command's hook is launched with the rest of the line.
  - The loop hands each message to a thread, runs the ready work inline on a ready event, and ignores every other event.
- **The per-event resource scope** (`worker/core/event.py`).
  - An event copies the bot's database handle.
  - `prepare` opens a session when the hook asks for `"db"`, and `close` releases it and clears the field. Both reject a missing hook.

Modules:

| file | module | contents |
|---|---|---|
| `common.dfy` | `Common` | Python exception kinds, `Option`/`Result`/`Outcome`, `%d` rendering |
| `selector_spec.dfy` | `SelectorSpec` | the selector's pages, paging, role decisions and label order, as functions, with lemmas |
| `selector.dfy` | `Selector` | classes `Selector`, `RoleSelector` and `PluginState`, proved against `SelectorSpec` |
| `event.dfy` | `Events` | class `BaseEvent`, with one named constructor per event kind, plus `Prepare`/`Close` |
| `worker.dfy` | `Worker` | message parsing, `HandleMessage`, the loop as a trace, and class `PythonWorker` |

Calls to the chat service are recorded as effects or actions: sending, editing, reacting, offloading to a thread, adding a server, launching hooks and arming the timer. The current time is a parameter. Whatever the server answers is an input: the roles of a selector, the roles a user holds, and the list of servers.

Three behaviours of the code are worth knowing; the model follows the code in all three:

- **Readiness guard.** `run_on_ready_work` raises `ValueError("Manager already marked as ready")` when `_is_ready` is set (`worker/main.py:40-41`). That guard is evidently meant to let the ready work run once. But the ready work sets a different flag, `_on_ready` (line 43), and nothing sets `_is_ready` after construction (line 21).
  - `Worker.GuardNeverFires` proves the guard never fires.
  - `Worker.ReadyWorkRepeats` proves the ready hooks are launched once per ready event, not once in all.
  - "## Findings" gives the corrected guard, `Worker.GuardedRun`, and proves it runs the ready work once.
  - `Worker.PythonWorker` keeps the code as written.
- **Double close.** A second `close` fails only for a hook that requires `"db"`, because `db` is then None and None has no `close` (`worker/core/event.py:39-43`).
  - For any other hook, `close` succeeds as often as it is called.
  - `Events.CloseTwice` shows both cases.
- **Error kinds.** A missing hook makes `prepare` and `close` raise `ValueError`, with the messages modelled here (`worker/core/event.py:18-19` and `36-37`).

The selector's markers are also defined by a computed function, `SelectorSpec.Marker`. `SelectorSpec.MarkersListed` proves it agrees with the 36-entry `SITEMS` list.

## Model

| member | source | states |
|---|---|---|
| Common.IntToString | plugins/selector.py:317 | `%d` writes a '-' exactly for a negative number, then decimal digits without leading zeros, and reading the text back gives the number |
| Common.NatToStringRoundTrip | plugins/selector.py:98-99 | the `%d` rendering of a page number loses nothing: reading its digits back gives the number |
| SelectorSpec.MarkersListed | plugins/selector.py:18-55 | marker i is entry i of SITEMS, for all 36 entries |
| SelectorSpec.MarkersDistinct | plugins/selector.py:18-55 | the 36 markers are pairwise distinct, so a page's emoji dictionary keeps every item |
| SelectorSpec.TotalPages | plugins/selector.py:71-73 | the page count is n/10 rounded up: the pages hold at least n rows and less than n+10 |
| SelectorSpec.Description | plugins/selector.py:89 | a page description is empty exactly when the page has no entries, which is the `emb_str != ""` test |
| SelectorSpec.LabelAt | plugins/selector.py:84-91 | entry j of a labelled chunk carries marker j and the callback and label of item j |
| SelectorSpec.PagingStep | plugins/selector.py:84-109 | each loop step adds the item's entry to the page in progress, under marker `crt_idx`; on the tenth item that page is closed as page `part_cnt` with the part title, and a fresh page starts |
| SelectorSpec.PagingDone | plugins/selector.py:111-135 | after the loop, the pages are the full pages plus the non-empty remainder, titled with the part title after a full page and with the plain title otherwise |
| SelectorSpec.PageSizes | plugins/selector.py:70-135 | there are TotalPages pages; each holds 1 to 10 entries, and every page but the last holds exactly 10 |
| SelectorSpec.PageEntry | plugins/selector.py:79-91 | entry j of page k is item 10k+j of the mapping, keyed by SITEMS[j] with j < 10 |
| SelectorSpec.PageTitles | plugins/selector.py:94-135 | a full page always gets "(part k/N)", even when N = 1; a short page gets it exactly when it is not the first page, and otherwise keeps the plain title |
| SelectorSpec.UnlabelPrefix | plugins/selector.py:84-135 | the first m pages hold exactly the first 10m items, in order |
| SelectorSpec.PagesKeepItems | plugins/selector.py:84-135 | reading all pages' entries in order gives back the mapping, item for item and in its iteration order |
| SelectorSpec.Lookup | plugins/selector.py:203-208 | a reaction picks an entry only if that entry carries the emoji, and none when no entry on the page does |
| SelectorSpec.MarkerPicksItem | plugins/selector.py:84-91 | on page k, marker SITEMS[j] picks the callback and label of item 10k+j of the mapping, since no earlier entry of the page carries that marker |
| SelectorSpec.RolePickFiresDoStuff | plugins/selector.py:255-257 | on a role selector, marker j of page k fires `do_stuff` with the label of role 10k+j |
| SelectorSpec.NextPage | plugins/selector.py:186-198 | with pages present, the new page is in range; a step that lands at or past the end resets to page 0 and one that lands before the start resets to the last page, whatever page it came from, including a stale one; from an in-range page this is one step left or right modulo the count, or the same page for other emojis; with no pages it is 0, or -1 after a step left from 0 |
| SelectorSpec.ArrowsUndoEachOther | plugins/selector.py:186-198 | a right step followed by a left step returns to the same page, and so does a left step followed by a right step |
| SelectorSpec.PickToggles | plugins/selector.py:286-305 | after a pick that is not rate limited, the user holds the role exactly when they did not before |
| SelectorSpec.RemovingKeepsOthers | plugins/selector.py:286-295 | picking a held role removes that role only; every other held role stays |
| SelectorSpec.EvictionKeepsCap | plugins/selector.py:297-305 | at or over the cap, the first count-max+1 held roles are removed and the pick is added, leaving exactly max roles of the list |
| SelectorSpec.PickRespectsCap | plugins/selector.py:297-305 | a user within the cap stays within it; with no cap (max <= 0), nothing is evicted |
| SelectorSpec.SortByLowerSpec | plugins/selector.py:253 | the role labels are ordered case-insensitively, and are a permutation of the labels fetched |
| SelectorSpec.Dedup | plugins/selector.py:338-341 | the interval selector's labels are distinct and are exactly the fetched names |
| SelectorSpec.DedupFirstSeen | plugins/selector.py:338-341 | the labels appear in the order of each name's first occurrence among the fetched roles, as an OrderedDict keeps them |
| SelectorSpec.NameMap | plugins/selector.py:337-340 | name_to_role has a key for each fetched name, mapped to a fetched role of that name |
| SelectorSpec.NameMapLast | plugins/selector.py:339-340 | a name maps to the last fetched role with that name |
| SelectorSpec.PairMap | plugins/selector.py:247-250 | name_to_role has exactly the keys of the fetched pairs |
| SelectorSpec.PairMapValue | plugins/selector.py:249-250 | each fetched name maps to the role fetched under it |
| SelectorSpec.RoleListKeys | plugins/selector.py:247-251 | role_list names exactly the keys of name_to_role, in fetch order, and the j-th name maps to the j-th role fetched |
| Selector.PyIndex | plugins/selector.py:153 | a list index is valid exactly in [-len, len); a negative index counts from the end |
| Selector.PageReactions | plugins/selector.py:172-174 | the reactions added for a page are its markers SITEMS[0], SITEMS[1], ..., in order, between one and ten of them |
| Selector.Paginate | plugins/selector.py:70-135 | the loop of `set_items` computes the page count and exactly the pages of `SelectorSpec.Pages` |
| Selector.Selector.constructor | plugins/selector.py:62-68 | a new selector shows page 0, has no message and holds the pages of its mapping |
| Selector.Selector.SetItems | plugins/selector.py:70-135 | the stored pages and page count are those of the new mapping |
| Selector.Selector.HasMsgId | plugins/selector.py:137-150 | a selector has a message id exactly when it was posted, and that id is the posted message's |
| Selector.Selector.SendOnePage | plugins/selector.py:152-174 | an out-of-range page is an IndexError; otherwise the first call sends the page, adds the arrows when there are several pages, then adds one reaction per entry; later calls edit the message; the page's entries become the live ones |
| Selector.Selector.HandleEmoji | plugins/selector.py:182-217 | no message is an AttributeError; another message is ignored; else the page steps and wraps, is redrawn, and the reacted marker picks an entry of the new page; with no pages it is an IndexError |
| Selector.IndexRoles | plugins/selector.py:247-251 | the first loop of `update_role_list` builds the name map and the name list of the fetched roles |
| Selector.RoleEntries | plugins/selector.py:255-257 | the second loop gives one `do_stuff` item per sorted name |
| Selector.IndexRoleRange | plugins/selector.py:337-341 | the interval loop builds the name map, with the later role winning, and one item per name in first-seen order |
| Selector.RoleSelector.constructor | plugins/selector.py:224-235 | the footer reads "Max selectable: N", or "Unlimited" when N <= 0, and the role list is loaded when the interval allows; the new selector shows page 0 and has sent nothing |
| Selector.RoleSelector.Interval | plugins/selector.py:316-326 | the footer reads "Max selectable: %d", and the role range is loaded when the interval allows; the new selector shows page 0 and has sent nothing |
| Selector.RoleSelector.UpdateRoleList | plugins/selector.py:237-263 | at most once per 60 seconds, the roles are reloaded, listed case-insensitively sorted and the time recorded; otherwise nothing changes |
| Selector.RoleSelector.UpdateRoleListInterval | plugins/selector.py:328-347 | at most once per 60 seconds, the roles are reloaded in server order, each name once; otherwise nothing changes |
| Selector.RoleSelector.DoStuff | plugins/selector.py:265-313 | a pick within 3 seconds of the user's last one only refreshes their time; an unknown label is a KeyError that changes nothing; otherwise the time is recorded and the pick is decided by toggle and cap |
| Selector.RoleSelector.HandleEmoji | plugins/selector.py:349-353 | an interval selector reloads its roles (and records the time) when 60 seconds have passed, and the other selector reloads nothing; then the page logic runs on the pages now held: no message is an AttributeError, another message is ignored, else the page steps and wraps, is redrawn by an edit, and the reacted marker picks an entry; with no pages it is an IndexError |
| Selector.PluginState.constructor | plugins/selector.py:57-58 | no selectors are watched and no picks are recorded at start |
| Selector.PluginState.Post | plugins/selector.py:58 | appending to the deque keeps its newest 50 selectors |
| Selector.PluginState.Unpost | plugins/selector.py:479 | `remove` drops the first occurrence, or raises ValueError when there is none |
| Selector.PluginState.DoSend | plugins/selector.py:176-180 | the selector is remembered in the deque, then its current page is shown: an IndexError for an out-of-range page, else the first send posts the page with its arrows and reactions and later ones edit it, and the page's entries become the live ones |
| Selector.PluginState.ParseReact | plugins/selector.py:421-438 | the first permanent selector posted as the message wins, then the first recently posted one, else none |
| Selector.Newest | plugins/selector.py:58 | a deque of maxlen 50 keeps the last 50 appended elements |
| Selector.FirstWithMsg | plugins/selector.py:426-435 | the index found is the first selector posted as the message; none means no selector was |
| Events.HookRequired | worker/core/event.py:18-19 | neither prepare nor close runs without a hook; a None hook makes both raise ValueError |
| Events.SessionScoped | worker/core/event.py:21-43 | with a hook requiring "db", prepare swaps the database for a session, close releases it and leaves None, and closing again fails |
| Events.OtherHooksKeepDb | worker/core/event.py:21-25 | with any other hook, prepare and close leave `db` untouched |
| Events.BaseEvent.constructor | worker/core/event.py:9-11 | an event copies its bot's database handle |
| Events.BaseEvent.TextEvent | worker/core/event.py:50-59 | the arguments are stored unchanged, and `doc` is the hook's docstring |
| Events.BaseEvent.OnStartEvent | worker/core/event.py:68-71 | the bot and hook are stored |
| Events.BaseEvent.OnReadyEvent | worker/core/event.py:74-80 | the hook, permission manager and server are stored, and the event is None |
| Events.BaseEvent.OnConnReadyEvent | worker/core/event.py:83-87 | the hook is stored, and the event is None |
| Events.BaseEvent.TimeEvent | worker/core/event.py:90-94 | the hook and event are stored |
| Events.BaseEvent.HookEvent | worker/core/event.py:97-102 | the hook, event and permission manager are stored |
| Events.BaseEvent.RegexEvent | worker/core/event.py:111-119 | the hook, event and match are stored |
| Events.BaseEvent.Prepare | worker/core/event.py:13-25 | prepare fails without a hook, or with a "db" hook whose `db` is not a database, and then changes nothing; otherwise it binds the session and keeps the scope invariant |
| Events.BaseEvent.Close | worker/core/event.py:27-43 | close fails without a hook, or with a "db" hook whose `db` is not a session, and then changes nothing; otherwise it releases the session |
| Events.CloseTwice | worker/core/event.py:27-43 | prepare, close, close on a "db" hook: the second close fails and `db` is None; on any other hook all three succeed |
| Worker.SkipSpace | worker/main.py:75 | whitespace skipping removes exactly a leading run of whitespace |
| Worker.Token | worker/main.py:75 | the first word is the longest whitespace-free prefix |
| Worker.SplitOnce | worker/main.py:75 | `split(maxsplit=1)` gives at most two parts, none exactly for an all-whitespace string, a whitespace-free first word, and a rest that starts with a non-space |
| Worker.SplitOnceOf | worker/main.py:75 | leading space, a word, a gap and a rest split into the word and, when non-empty, the rest with its trailing space kept |
| Worker.HandleMessage | worker/main.py:68-90 | a message not starting with '.' is ignored; '.' followed by only whitespace raises IndexError; a launch carries the message and a registered hook |
| Worker.CommandLaunch | worker/main.py:75-90 | ".name text" launches exactly once, with `commands[name]` and the text (or ""), iff `name` is registered; otherwise nothing happens |
| Worker.BareCommand | worker/main.py:83-86 | a command with no text is launched with "" |
| Worker.ReadyWork | worker/main.py:36-54 | the ready work raises exactly when `_is_ready` holds; otherwise it is one action per server plus two |
| Worker.ReadyWorkOrder | worker/main.py:45-54 | every server is added, in order, before the ready hooks run, and the timer is armed last, only once |
| Worker.GuardNeverFires | worker/main.py:40-43 | with `_is_ready` never set, no ready event ever stops the loop |
| Worker.OffloadsInOrder | worker/main.py:56-66 | every message is handed to a thread once, in arrival order, and nothing else is |
| Worker.ReadyWorkRepeats | worker/main.py:36-43 | the ready hooks are launched once per ready event |
| Worker.ScenarioPing | worker/main.py:68-90 | with {"ping": h}, ".ping" launches h once with no text |
| Worker.ScenarioPong | worker/main.py:68-90 | with {"ping": h}, ".pong" launches nothing |
| Worker.ScenarioTrace | worker/main.py:56-66 | two messages and two ready events give both offloads in order, then the full ready work twice |
| Worker.RunStops | worker/main.py:56-66 | once a ready event raises, later events add nothing |
| Worker.PythonWorker.constructor | worker/main.py:11-21 | a new worker is not ready and has taken no action |
| Worker.PythonWorker.RunOnReadyWork | worker/main.py:36-54 | the method raises and changes nothing when `_is_ready` holds; otherwise it sets `_on_ready` and performs exactly `ReadyWork` |
| Worker.PythonWorker.Run | worker/main.py:56-66 | the loop performs exactly the actions of `RunTrace` over the events, and fails only with the error that ended the trace; `_on_ready` ends set exactly when it was set before or, with `_is_ready` false, a ready event arrived |

## Findings

| source | as written | input that shows it | evidently intended | confidence | as-written member | corrected member |
|---|---|---|---|---|---|---|
| worker/main.py:40-43 | the guard tests `_is_ready` but the ready work sets `_on_ready`, so the guard never fires | two ready events: the ready hooks are launched twice (`Worker.ScenarioTrace`) | the ready work sets the flag its guard tests, so the ready hooks run once and a second ready event raises ValueError | high; not executed | Worker.ReadyWorkRepeats | Worker.GuardedReadyOnce |

## Left out

- Chat-service calls are not executed. `prepare_embed` becomes the `Embed` record. Sending, editing and reacting become `Effect` values.
- The reaction removal after `parse_react` is not modelled.
- The confirmation messages and private messages of `do_stuff` are not modelled.
- The role additions and removals of `do_stuff` become its `Assignment` result.
- Selector.Selector.HandleEmoji: returns the picked callback and its label rather than calling it. Awaiting a coroutine and swallowing the callback's exceptions are not modelled.
- `get_roles_from_ids`, `get_roles_between_including` and `user_roles_from_list` are not modelled. Their answers are inputs: `fetched` and `held`.
- `tnow()` is not modelled. The time is the `now` parameter.
- Selector.RoleSelector.constructor: when no role fetch happens at construction, the model starts with an empty name map. The source leaves `name_to_role` unset, so a later pick raises AttributeError instead of KeyError.
- Selector.RoleSelector.Interval: makes the same choice when no role fetch happens at construction: an empty name map where the source leaves `name_to_role` unset (plugins/selector.py:316-326).
- SelectorSpec.SortByLowerSpec: proves order and permutation only. It does not prove the stability of `sorted`, which keeps equal keys in input order; the insertion sort here is stable but that is not stated.
- `LowerChar` folds ASCII letters only. `str.lower` also folds other Unicode letters.
- `serialize`, `deserialize`, `permanent_selector`, `list_permanent_selectors` and `rebuild_selectors` are not modelled. They rely on server and channel lookups, message fetches and storage; only the deque removal of `permanent_selector` is modelled, by `Unpost`.
  - `permanent_selector` serialises the loop variable `selector` instead of `found_sel` (plugins/selector.py:474).
- `MSG_TIMEOUT` and message expiry are not modelled.
- `PythonWorker.__init__` reading the config file, `connect` and the RPC client are not modelled.
- `timer_loop`'s endless sleep-and-launch loop is not modelled. Arming it is the `ScheduleTimer` action.
- Worker.PythonWorker.Run: runs over a finite list of events, not an endless `get_event` stream.
- The thread offload (`run_in_thread`) and asyncio scheduling are not modelled. The offload is the `Offload` action; what the thread then does is `HandleMessage`.
- `get_servers` is not called. Its answer travels with the ready event.
- `PluginManager.add_new_server`, `launch_hooks_by_event` and `launch_command` are outside this model. They appear as actions or as the `Launched` result.
- A message whose `content` is None is not modelled: content is a string.
- `BaseEvent.reply`, `TextEvent.notice_doc` and logging are not modelled.
- Events.BaseEvent.TextEvent: takes a hook. The source raises AttributeError at `hook.doc` when the hook is None.
- Events.BaseEvent.RegexEvent: takes a bot. The source's default `bot=None` raises AttributeError at `bot.db`.
- The database object is abstract. Only a database can open a session and only a session can be closed; anything else raises AttributeError.
- plugins/magik.py and spanky/utils/storage.py are not part of this model. They do image processing and file I/O.
