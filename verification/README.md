# Process launcher connection model

This project models the per-connection core of the zircon process launcher service
(`LauncherImpl` in `system/ulib/process-launcher/launcher.cpp`). A client sends a stream of
`fuchsia.process.Launcher` requests over a channel:

- `AddArgs` and `AddEnvirons` append strings to `args_` and `environs_`;
- `AddNames` appends namespace entries: each path goes onto `nametable_`, its directory
  handle onto `handles_`, and the id `PA_HND(PA_NS_DIR, k)` onto `ids_`, where `k` is the
  size of `nametable_` at the moment of the push;
- `AddHandles` appends (id, handle) pairs to `ids_` / `handles_`, except that an entry whose
  id is `PA_SVC_LOADER` replaces the loader-service handle `ldsvc_` instead;
- `Launch` hands all of that to the launchpad builder, commits, builds a `LaunchResult`,
  clears the state (`Reset`) and writes one reply.

A readiness callback (`OnHandleReady`) drains at most `signal->count` messages, stops early
when a read would block, and on any other failure calls `NotifyError`, which resets the
state, drops the channel and reports the status once to the error handler.

The model is functional. The state is an immutable record (`LauncherState.State`). Each
handler is a pure function from state and decoded request to new state and status. Pure
recursive functions follow the source's loops entry by entry. Each one is proved equal to a
closed-form reference: `NamesAppended`, `HandlesRouted`, `CStrs`, and `target + input`. The
readiness loop is a method with a `while` loop (`Dispatch.DrainLoop`). It is proved equal to
the recursive reference `Dispatch.Drain`. The loop and the callback are written over any
message handler of `ReadAndDispatchMessage`'s shape; the properties of the launcher itself
use its own handler, `Dispatch.ReadAndDispatch`. `Dispatch.Replay` is the independent
reference for the loop: every read dispatched in turn, with no early exit.

Modules, in dependency order:

- `Zx` (zx.dfy): status codes, handles, `Option`.
- `Protocol` (protocol.dfy): requests, decode outcomes, the builder's outcomes, replies.
- `LauncherState` (state.dfy): the accumulation state, `Empty` (what `Reset` leaves), and
  the invariant `Valid`. `Valid` says three things:
  - `ids_` and `handles_` have the same length;
  - the loader id never appears in `ids_`;
  - the namespace slots in `ids_` are exactly 0, 1, …, |nametable_| − 1, in order.
- `Accumulate` (accumulate.dfy): `PushStrings` and the four Add handlers.
- `LaunchCommit` (launch.dfy): `PushCStrs`, the builder (`launchpad_abort` / `launchpad_go`),
  `ResultFor` and `Launch`. `Launch` is the corrected handler of the finding below, and
  `ReadAndDispatch` routes to it; `LaunchAsWritten` is the handler as written, which differs
  only in the handles that `Reset` closes.
- `Dispatch` (dispatch.dfy): `ReadAndDispatch`, `NotifyError`, the draining loop and
  `OnHandleReady`.
- `Cycles` (cycles.dfy): properties of whole accumulate-then-launch cycles.

Things outside the model are inputs:

- Decoding is a `Decoding<T>` value: either the decoded payload or the decoder's error status.
- The channel is a sequence of `Inbound` reads. Once it is exhausted, a read gives
  `ZX_ERR_SHOULD_WAIT`.
- Calls into foreign code are an `Effects` record attached to each message. It holds the
  failure of `launchpad_create_with_jobs` (if any), the first failure among
  `launchpad_load_from_vmo` and the set/add calls (if any), the
  root-VMAR duplication outcome, the outcome of `launchpad_go` on a builder that was not
  aborted, and the encode and write statuses.

Status values are zircon's: `ZX_OK` 0, `ZX_ERR_NOT_SUPPORTED` −2,
`ZX_ERR_INVALID_ARGS` −10, `ZX_ERR_SHOULD_WAIT` −22, `ZX_ERR_PEER_CLOSED` −24.

Two behaviours of the code are worth stating:

- The code does not restore the displaced loader service: lines 139-143 capture it in
  `old_ldsvc` and drop it. The model has no install/restore step.
- The code drains every ready message in one callback, so pipelined launches on one
  connection are allowed. The model allows them too.

## Model

| member | source | states |
|---|---|---|
| Accumulate.PushStrings | system/ulib/process-launcher/launcher.cpp:26-31 | the target grows by exactly the input strings, in input order; the old contents stay as a prefix |
| Accumulate.AddArgs | system/ulib/process-launcher/launcher.cpp:186-195 | a decode failure returns its status and changes nothing; otherwise args_ gets the payload appended in order, every other field is unchanged, and the status is ZX_OK |
| Accumulate.AddEnvirons | system/ulib/process-launcher/launcher.cpp:197-206 | the same for environs_: a decode failure changes nothing; otherwise the payload is appended in order and nothing else changes |
| Accumulate.PushNames | system/ulib/process-launcher/launcher.cpp:217-221 | the entry-by-entry loop equals the closed form NamesAppended: entry k gets id PA_HND(PA_NS_DIR, \|nametable_\| + k), its directory goes to the matching position of handles_, and its path to the end of nametable_ |
| Accumulate.AddNames | system/ulib/process-launcher/launcher.cpp:208-223 | a decode failure changes nothing; otherwise nametable_, handles_ and ids_ grow as above, and args_, environs_ and ldsvc_ are untouched |
| Accumulate.AddNamesKeepsValid | system/ulib/process-launcher/launcher.cpp:215-221 | namespace slots stay consecutive across calls: after AddNames the slots in ids_ are still exactly 0 … \|nametable_\| − 1 in order, and ids_ and handles_ still have the same length |
| Accumulate.PushHandles | system/ulib/process-launcher/launcher.cpp:234-242 | the entry-by-entry loop equals the closed form HandlesRouted: non-loader entries are appended in payload order, and ldsvc_ ends as the last loader entry's handle, or as before if there was none |
| Accumulate.AddHandles | system/ulib/process-launcher/launcher.cpp:225-244 | a decode failure changes nothing; otherwise ids_ and handles_ grow by the non-loader entries, ldsvc_ follows the last loader entry, and args_, environs_ and nametable_ are untouched |
| Accumulate.LastLoaderFront | system/ulib/process-launcher/launcher.cpp:235-237 | the last-loader value seen from the front of the payload (each loader entry overwrites the slot) equals the one defined from the back |
| Accumulate.UnreservedMembers | system/ulib/process-launcher/launcher.cpp:235-241 | an entry reaches the generic table if and only if it is in the payload and its id is not PA_SVC_LOADER |
| Accumulate.UnreservedAppend | system/ulib/process-launcher/launcher.cpp:234-241 | routing keeps payload order: the entries kept from a concatenated payload are those kept from each part, in order |
| Accumulate.LoaderLastWriteWins | system/ulib/process-launcher/launcher.cpp:235-237 | with several loader entries, ldsvc_ holds the last one's handle, whatever came before it |
| Accumulate.NoLoaderKeepsPrior | system/ulib/process-launcher/launcher.cpp:234-242 | a payload with no loader entry leaves ldsvc_ as it was |
| Accumulate.AddHandlesKeepsValid | system/ulib/process-launcher/launcher.cpp:234-242 | AddHandles never puts PA_SVC_LOADER into ids_, keeps ids_ and handles_ the same length, and adds no namespace slot |
| LauncherState.NsSlotsAppend | system/ulib/process-launcher/launcher.cpp:218 | the namespace slots of a concatenated id table are those of each part, in order |
| Accumulate.NsSlotsOfNsDirIds | system/ulib/process-launcher/launcher.cpp:217-218 | the ids pushed for n names starting at slot f carry exactly the slots f … f + n − 1 |
| LaunchCommit.PushCStrs | system/ulib/process-launcher/launcher.cpp:33-38 | the pointer array grows by one C string per source string, in order, each read up to its first NUL; the old contents stay as a prefix |
| LaunchCommit.CPrefix | system/ulib/process-launcher/launcher.cpp:22-38 | what `c_str()` shows of a string: its longest prefix without a NUL, ending where the first NUL stands; the whole string when it has no NUL |
| LaunchCommit.CStrsWithoutNul | system/ulib/process-launcher/launcher.cpp:33-38 | strings without an embedded NUL reach the builder whole, one per source string |
| LaunchCommit.SetupFor | system/ulib/process-launcher/launcher.cpp:121-149 | the builder gets the job, image and loader from the request and state, and the C string of the name (up to its first NUL, as `name.c_str()` at line 133 is read); it gets argv holding the C strings of args_ in order, environ holding those of environs_ plus a final null, the C strings of nametable_ in order, and ids_ / handles_ unchanged |
| LaunchCommit.NameWithoutNul | system/ulib/process-launcher/launcher.cpp:124-133 | the builder sees the process name unchanged if and only if the name has no embedded NUL |
| LaunchCommit.SetupTablesParallel | system/ulib/process-launcher/launcher.cpp:149 | in a valid state, launchpad_add_handles gets one handle per id, and the loader id is not among them |
| LaunchCommit.ResultFor | system/ulib/process-launcher/launcher.cpp:132-173 | status is ZX_OK exactly when launchpad creation succeeded, a loader was supplied, the load and set/add calls all succeeded, the root VMAR was duplicated and the commit started the process; root_vmar and process are present only then; otherwise the first failure in call order wins: a creation failure (its status unchecked at line 133) gives its own status and message, then a missing loader gives ZX_ERR_INVALID_ARGS with the "need ldsvc" message, then a failed load/set/add call gives its own status and message, then a failed duplication gives its status with the root-vmar message, and otherwise the commit's status and message are returned |
| LaunchCommit.Launch | system/ulib/process-launcher/launcher.cpp:108-184 | the corrected handler (every handle released from handles_ as it is handed over; otherwise as written, see LaunchAsWritten): a decode failure returns its status and changes nothing; otherwise the state is empty afterwards whatever the outcome, the status is the encode status or else the write status, and a reply echoing the txid is written exactly when encode and write succeed |
| LaunchCommit.LaunchHandsOverOnce | system/ulib/process-launcher/launcher.cpp:149-176 | corrected launch: the builder gets every handle of handles_, and Reset closes none of them, so each handle has one owner |
| LaunchCommit.LaunchAsWritten | system/ulib/process-launcher/launcher.cpp:149-176 | the launch as written behaves like the corrected one in every respect except that Reset closes every handle of handles_ |
| LaunchCommit.LaunchAsWrittenClosesHandedOver | system/ulib/process-launcher/launcher.cpp:149-176 | as written, a non-empty handles_ leaves its first handle owned twice: it is handed to the builder and also closed by Reset |
| Dispatch.ReadAndDispatch | system/ulib/process-launcher/launcher.cpp:84-106 | a failed read returns its status; a message with no header gives ZX_ERR_INVALID_ARGS and an unknown ordinal ZX_ERR_NOT_SUPPORTED, both with no change; a decode failure in any handler returns its status with no change; only a Launch writes a reply, echoing its txid; a failing dispatch either leaves the state as it was or empties it |
| Dispatch.DispatchRoutes | system/ulib/process-launcher/launcher.cpp:91-101 | a framed request with a known ordinal reaches its own handler: Launch, AddArgs, AddEnvirons, AddNames or AddHandles, and the handler's state, status and reply are the dispatch's |
| Dispatch.DispatchKeepsValid | system/ulib/process-launcher/launcher.cpp:84-106 | every message, whatever its kind or outcome, keeps the state invariant |
| Dispatch.NotifyError | system/ulib/process-launcher/launcher.cpp:255-261 | the state is emptied, the channel dropped, and the status reported once exactly when an error handler is installed; replies already written are kept |
| Dispatch.Drain | system/ulib/process-launcher/launcher.cpp:62-70 | at most budget messages are dispatched; spending the whole budget is the only way to stop without a blocking read or an error; a fatal stop carries a status other than ZX_OK and ZX_ERR_SHOULD_WAIT |
| Dispatch.DrainIsReplay | system/ulib/process-launcher/launcher.cpp:62-70 | the connection the loop leaves equals the run without early exits, cut after the messages the loop dispatched |
| Dispatch.DrainStopsAtFirstFailure | system/ulib/process-launcher/launcher.cpp:62-70 | every dispatch before the last one returned ZX_OK; when the loop stops early, the last dispatch returned something other than ZX_OK, and it stopped on a blocking read exactly when that status is ZX_ERR_SHOULD_WAIT, otherwise with that status as the error; when no dispatch failed the whole budget was spent |
| Dispatch.DrainLoop | system/ulib/process-launcher/launcher.cpp:62-70 | the for-loop with its early exits computes exactly what the recursive Drain describes |
| Dispatch.HandleReady | system/ulib/process-launcher/launcher.cpp:53-82 | a failed wait is reported at once with no dispatch; a readable signal drains the channel, then a fatal drain status is reported, else a failed Begin status is reported, else the wait is registered again with nothing reported; with no readable signal the status is ZX_ERR_PEER_CLOSED and nothing is dispatched; a teardown always empties the state and drops the channel |
| Dispatch.CallbackOutcome | system/ulib/process-launcher/launcher.cpp:60-75 | on a readable channel the callback dispatches messages in order until the first failure; it registers the wait again exactly when no dispatch failed with a status other than ZX_ERR_SHOULD_WAIT and Begin succeeded; otherwise it tears down and reports the first such failure, or else Begin's status |
| Dispatch.DrainKeepsChannel | system/ulib/process-launcher/launcher.cpp:62-70 | the draining loop itself neither drops the channel nor reports to the error handler |
| Dispatch.OnHandleReady | system/ulib/process-launcher/launcher.cpp:53-82 | the callback as written, with its loop, computes exactly what HandleReady describes |
| Dispatch.DrainKeepsValid | system/ulib/process-launcher/launcher.cpp:62-70 | with a handler that keeps the state invariant, as the launcher's does, the draining loop keeps it too |
| Dispatch.HandleReadyKeepsValid | system/ulib/process-launcher/launcher.cpp:53-82 | a readiness callback keeps the state invariant, including on teardown |
| Dispatch.DrainKeepsSent | system/ulib/process-launcher/launcher.cpp:62-70 | replies already written stay written, in order |
| Dispatch.DrainAnswersLaunch | system/ulib/process-launcher/launcher.cpp:62-70 | a decodable Launch at the head of the queue, whose reply can be written, is answered by the draining loop, and the reply carries its txid and the result of the accumulated state |
| Dispatch.PendingLaunchAnswered | system/ulib/process-launcher/launcher.cpp:60-81 | a queued, decodable Launch whose reply can be written is answered in the same callback, because the callback dispatches readable messages before it looks at peer closure |
| Dispatch.PeerClosedLaunchTearsDown | system/ulib/process-launcher/launcher.cpp:60-69 | a decodable Launch read after the peer closed is still dispatched and empties the state (Reset, line 176), but its reply write (line 183) fails with ZX_ERR_PEER_CLOSED: nothing is sent, that status is reported once, and the wait is not registered again |
| Dispatch.MalformedLaunchTearsDown | system/ulib/process-launcher/launcher.cpp:62-69 | a Launch that fails to decode is the last message dispatched: no reply, state emptied, wait not registered again, its status reported once |
| Cycles.LastLoaderAppend | system/ulib/process-launcher/launcher.cpp:234-242 | the loader slot after two payloads is the slot after the second, starting from the slot left by the first |
| Cycles.DispatchAccumulation | system/ulib/process-launcher/launcher.cpp:186-244 | a decodable Add message succeeds, writes nothing, and grows args_, environs_ and nametable_ by its own payload, with ldsvc_ following its loader entries |
| Cycles.DrainAccumulates | system/ulib/process-launcher/launcher.cpp:62-70 | a queue of decodable Add messages, with budget to spare, is dispatched in full and the loop stops at the empty channel; args_, environs_ and nametable_ grow by the payloads concatenated in arrival order, and ldsvc_ holds the last loader entry sent |
| Cycles.LaunchSeesWholeCycle | system/ulib/process-launcher/launcher.cpp:126-130 | starting from an empty state, the launch after a cycle hands the builder the C strings of the concatenated arguments, environment (plus the null) and namespace paths, in call order, and leaves the state empty for the next cycle |
| Cycles.LaunchWithoutLoaderFails | system/ulib/process-launcher/launcher.cpp:135-137 | a cycle that never sends the loader id gets the reply ZX_ERR_INVALID_ARGS with the "need ldsvc" message (or the creation failure, which is recorded first), and no process or root VMAR |
| Cycles.SuccessfulSession | system/ulib/process-launcher/launcher.cpp:108-184 | a session of AddArgs, AddEnvirons and a loader handle (for instance ["/bin/sh", "-c", "echo hi"], ["HOME=/"]) followed by a launch whose builder succeeds produces exactly one reply: ZX_OK, the process, the root VMAR, no message; the state is empty afterwards |

## Findings

| source | as written | input that shows it | evidently intended | confidence | as-written member | corrected member |
|---|---|---|---|---|---|---|
| system/ulib/process-launcher/launcher.cpp:149 | the raw values in `handles_` go to `launchpad_add_handles`, which takes ownership of them, but they are not released from `handles_`; `Reset` (lines 250-251) then destroys `handles_` and closes the same values again | one AddNames or AddHandles entry (with an id other than PA_SVC_LOADER), then a Launch | each handle is released from `handles_` as it is handed over, so it has exactly one owner | medium, not executed (this rests on `launchpad_add_handles` taking ownership, and that library is not part of this model) | LaunchCommit.LaunchAsWrittenClosesHandedOver | LaunchCommit.LaunchHandsOverOnce |

## Left out

- FIDL decoding and encoding (`Decode`, `Encode`, `GetPayloadAs`): a request is already
  structured, and decoding is a success-or-status input. The same holds for the encode
  status of a reply. `GetString` is the identity on strings, embedded NULs included.
- Channel I/O and the reactor. Reads come from an input sequence, and the write status of a
  reply is an input. `Begin` (lines 49-51) and the constructor only forward to the reactor.
  In `OnHandleReady` the status of re-registering the wait is an input.
- The launchpad library is foreign code. The model assumes it records only the first
  failure (`launchpad_abort`), and that `launchpad_go` on an aborted builder reports that
  failure and starts nothing. On a builder that was not aborted, the outcome of
  `launchpad_go` is an input. The first failure among `launchpad_load_from_vmo` and the
  `set`/`add` calls is an input too, recorded after the missing-loader abort and before the
  duplication abort. A failure of `launchpad_create_with_jobs` is an input as well, and the
  builder starts out carrying it.
- The loader-service swap (`launchpad_use_loader_service`, lines 139-143): the handle it
  displaces is only captured and dropped, so the model has no such step.
- Handle semantics: handles are opaque naturals. Closing is modelled only for the handles
  that `Reset` closes through `handles_` after a launch (the finding above). The job handle
  closed at the end of `Launch` is not modelled. Duplication of the root VMAR is a call that
  may fail.
- `PA_HND` and the `PA_*` constants come from a header that is not part of this model.
  Packed namespace ids are kept symbolic as `NsDir(k)`, which is injective in `k`. A
  client-chosen numeric id that happens to equal a packed namespace id is a different value
  here. Any truncation of the slot argument inside `PA_HND` is not modelled.
  `PA_SVC_LOADER` is the constant 0x10, and only its identity with client ids matters.
- Diagnostics: the `fprintf` logging and the `strncpy` copy of the error message (the
  message is carried as a string).
- The error handler is a log of reported statuses. The object deleting itself after
  `NotifyError` is not modelled, and neither is `ZX_DEBUG_ASSERT` (line 78).
- Integer widths: `signal->count` is a `nat`, and `static_cast<int>(args.size())` is not
  modelled. Statuses are mathematical integers, with errors negative.
