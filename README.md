# A verified model of the autograd profiler's bookkeeping

This project models the sequential bookkeeping of the PyTorch autograd profiler, torch/csrc/autograd/profiler.cpp. It covers five parts.

- **Profiling sessions** (`ProfilerThreadLocalState`; module `Session`):
  - A session holds a configuration (`Disabled`, `CPU`, `CUDA` or `NVTX`, plus the report-input-shapes flag) and a map from thread key to that thread's event list.
  - `mark`, `pushRange` and `popRange` do one of three things: nothing when the session is Disabled, a call into the NVTX range API in NVTX mode, or one event appended to the calling thread's list, which is created on first use.
  - The map is keyed by the thread id truncated to 16 bits, so two threads whose ids agree modulo 65536 share one list.
  - `consolidate` returns one list per map entry.
- **Nesting state of a thread** (module `Nesting`, and the class `Profiler.ProfilerThread`):
  - The thread's state is the stack of sessions in the PROFILER_STATE debug-info slot, `profiler_nested_depth_`, whether the profiler's callback pair is pushed (and whether it captures inputs), and whether the Profiler dispatch key is included.
  - The operations on it are `enableProfiler`, `disableProfiler`, `profilerEnabled`, the getter and setter of the setting propagated to child tasks, and the enter and exit callbacks.
- **NVTX range messages** (module `Nvtx`): the text pushed for a scope in NVTX mode. It holds the scope name, the `, seq = ` text and the sequence number, and then the input shapes as bracketed, comma-separated lists. The numbers are rendered as decimal text.
- **The trace exporter** (`RecordProfile`; module `Export`):
  - The consolidated lists are flattened and the `__start_profile` mark is looked up.
  - Every pop is paired with the push it closes, using an explicit stack.
  - One record is emitted per pop, between `[` and `]` and separated by `,`.
- **Device-elapsed checks** (`Event::cuda_elapsed_us`; module `Events`): both events must carry a device stamp, and both stamps must be on the same device.

State that the source changes in place is modelled as classes:
- `Session.ProfilerSession` holds the event-list map.
- `Session.DeviceStubs` holds the NVTX call log.
- `Profiler.ProfilerThread` holds the slot stack, the depth and the flags.

Each method of these classes states its new state through a specification function. The pure rules are proved about those functions:
- `Events.Recorded`;
- `Nesting.Enter` and `Nesting.Exit`;
- `Nvtx.NvtxMessage`;
- `Export.Pairs` and `Export.Framed`.

Time is abstract. An event carries no clock reading. A trace record names the positions, in the flattened list, of the session start, the push and the pop. Its `ts` is the time from the start to the push, and its `dur` is the time from the push to the pop. The device backend (`CUDAStubs`) is reduced to three things:
- whether it is available;
- its device count;
- a log of the NVTX calls made.

The thread id and the current device are parameters.

torch/csrc/autograd/profiler.h (`Event`, `RangeEventList`, `ProfilerConfig`) is not part of this model. The event layout used here is: kind, name, thread id, optional device stamp and input shapes. An event is stamped with a device exactly when the source asks the backend to record CUDA timing for it.

## Model

| member | source | states |
|---|---|---|
| `Events.ListKey` | torch/csrc/autograd/profiler.cpp:250-252 | the event-list key is the thread id truncated to 16 bits: it is below 2^16, differs from the id by a multiple of 2^16, and equals the id for ids below 2^16 |
| `Events.Recorded` | torch/csrc/autograd/profiler.cpp:239-249 | after a thread records an event, the map gains that thread's key if it was missing, that key's list is the old list (or the empty list) with the event appended at the end, and every other thread's list is unchanged |
| `Events.InputSizes` | torch/csrc/autograd/profiler.cpp:267-281 | one shape per input, in input order: a defined tensor's sizes, otherwise the empty shape |
| `Events.CudaElapsed` | torch/csrc/autograd/profiler.cpp:412-420 | succeeds iff both events carry a device stamp on the same device; a missing stamp on either event gives "not recorded for CUDA"; stamps on different devices give "not on the same device" |
| `Session.DeviceStubs.constructor` | torch/csrc/autograd/profiler.cpp:22-26 | a backend with the given availability and device count, and no NVTX calls yet |
| `Session.ProfilerSession.constructor` | torch/csrc/autograd/profiler.cpp:128-135 | a session with the given configuration and no event lists |
| `Session.ProfilerSession.GetEventList` | torch/csrc/autograd/profiler.cpp:239-249 | afterwards the calling thread's key is present; the map is unchanged if it already was, otherwise it gains exactly that key with an empty list |
| `Session.ProfilerSession.Append` | torch/csrc/autograd/profiler.cpp:159-165 | recording an event appends it to the end of the calling thread's list (created if missing) and leaves every other thread's list as it was |
| `Session.ProfilerSession.Mark` | torch/csrc/autograd/profiler.cpp:150-167 | Disabled: nothing changes. NVTX: one NVTX mark of the name is logged and the map is unchanged. CPU and CUDA: exactly one Mark event is appended to the calling thread's list and nothing is logged; the event has a device stamp iff CUDA timing is asked for and the session is in CUDA mode |
| `Session.ProfilerSession.PushRange` | torch/csrc/autograd/profiler.cpp:169-218 | Disabled: nothing changes. NVTX: one range push whose text is `Nvtx.NvtxMessage` of the name, the message, the sequence number and the shapes, and the map is unchanged. CPU and CUDA: exactly one PushRange event with the name and the shapes is appended to the calling thread's list, stamped iff the session is in CUDA mode |
| `Session.ProfilerSession.PopRange` | torch/csrc/autograd/profiler.cpp:220-235 | Disabled: nothing changes. NVTX: one range pop is logged. CPU and CUDA: exactly one nameless PopRange event is appended to the calling thread's list, stamped iff the session is in CUDA mode |
| `Session.ProfilerSession.Consolidate` | torch/csrc/autograd/profiler.cpp:140-148 | returns exactly one list per map entry, each equal to that entry's list (recording order kept), with no entry twice and none missing |
| `Nesting.Enter` | torch/csrc/autograd/profiler.cpp:357-361 | depth rises by exactly one; at depth 0 the callbacks are pushed, capturing inputs iff the new session reports shapes, and the dispatch key is included; at any other depth nothing but the depth changes; "callbacks pushed iff depth > 0" is preserved |
| `Nesting.Exit` | torch/csrc/autograd/profiler.cpp:389-393 | depth falls by exactly one; on reaching 0 the callbacks are removed and the dispatch key is excluded; otherwise nothing but the depth changes; "callbacks pushed iff depth > 0" is preserved |
| `Nesting.ApplySettingAsWritten` | torch/csrc/autograd/profiler.cpp:313-329 | the setter as written: `true` raises the depth by one, `false` lowers it by one whatever it was; the dispatch key is never touched |
| `Nesting.SetterAsWrittenLosesCallbacks` | torch/csrc/autograd/profiler.cpp:323-328 | from an idle thread, `false` drives the depth to -1, and a following `true` then leaves the callbacks unpushed while the getter reports no profiling |
| `Nesting.ApplySetting` | torch/csrc/autograd/profiler.cpp:313-329 | corrected setter: a non-negative depth stays non-negative; "callbacks pushed iff depth > 0" is preserved; `true` raises the depth by one and from a consistent state leaves the callbacks pushed; `false` lowers a positive depth by one and leaves depth 0 alone; the dispatch key is never touched |
| `Nesting.SettingsKeepCallbacks` | torch/csrc/autograd/profiler.cpp:308-329 | with the corrected setter, any series of settings applied to an idle thread keeps the depth non-negative and the callbacks consistent with it, and a later `true` always finds the callbacks pushed |
| `Nesting.EnterAllFromIdle` | torch/csrc/autograd/profiler.cpp:357-361 | n nested enables from an idle thread give depth n with the callbacks and the dispatch key in place; whether inputs are captured is decided by the outermost session alone |
| `Nesting.ExitNDepth` | torch/csrc/autograd/profiler.cpp:389-393 | n disables lower the depth by exactly n; while the depth stays positive, the callbacks and the dispatch key are unchanged |
| `Nesting.NestedSessionsUnwind` | torch/csrc/autograd/profiler.cpp:357-361 | n enables followed by n disables, starting from an idle thread, end at depth 0 with the callbacks removed and the dispatch key excluded |
| `Nesting.GetterTracksSessions` | torch/csrc/autograd/profiler.cpp:308-312 | after n nested enables and k ≤ n disables, the propagated getter reports profiling iff k < n |
| `Nvtx.NatToStringValue` | torch/csrc/autograd/profiler.cpp:181-188 | the decimal text of a natural number reads back as that number |
| `Nvtx.IntToStringRoundTrip` | torch/csrc/autograd/profiler.cpp:181-188 | the text a sequence number or a dimension is streamed as parses back to that integer, negative values included |
| `Nvtx.NvtxMessageLayout` | torch/csrc/autograd/profiler.cpp:178-210 | with a sequence number ≥ 0, the message starts with name, message and number, and is exactly that when there are no shapes; with no sequence number and no shapes, it is the bare name; with no sequence number but shapes, the name is left out and the message starts with `, sizes = [`; with shapes, it ends with the sizes text |
| `Nvtx.ShapeTextBrackets` | torch/csrc/autograd/profiler.cpp:186-196 | each rendered shape, `[]` included, has exactly one `[` and one `]` |
| `Nvtx.SizesTextBrackets` | torch/csrc/autograd/profiler.cpp:183-200 | the sizes text for k shapes has exactly k + 1 opening and k + 1 closing brackets, so the shapes are rendered one bracketed list each inside one outer list |
| `Nvtx.AppendShape` | torch/csrc/autograd/profiler.cpp:186-196 | the inner formatting loop appends exactly the shape's text: `[`, the dimensions joined by `, `, `]` (`[]` for an empty shape) |
| `Nvtx.AppendSizes` | torch/csrc/autograd/profiler.cpp:183-200 | the outer formatting loop appends exactly `, sizes = [`, the shape texts joined by `, `, then `]` |
| `Nvtx.FormatNvtx` | torch/csrc/autograd/profiler.cpp:178-210 | the text pushed to NVTX is exactly `Nvtx.NvtxMessage` of the scope's name, message, sequence number and shapes |
| `Profiler.StartupLayout` | torch/csrc/autograd/profiler.cpp:363-380 | a freshly enabled buffering session holds only marks of the enabling thread. In CUDA mode they are 5·n `__cuda_startup` marks stamped on devices below n, then `__cuda_start_event` stamped on device 0, 1, … n-1 in turn. In every buffering mode the last mark is `__start_profile` with no device stamp |
| `Profiler.StartupRound` | torch/csrc/autograd/profiler.cpp:364-370 | in CUDA mode with n devices, event r·n + d of a fresh session (warm-up round r < 5, device d < n) is the `__cuda_startup` mark stamped on device d, so every round marks the devices in order |
| `Profiler.MarkEachDevice` | torch/csrc/autograd/profiler.cpp:376-378 | marking a name on each device in turn appends to the calling thread's list exactly one mark per device, stamped on device 0, 1, … n-1, and logs nothing |
| `Profiler.RecordCudaWarmup` | torch/csrc/autograd/profiler.cpp:363-379 | an empty CUDA session ends up holding exactly the five warm-up rounds and the start events (`CudaMarks`) on the calling thread's list, and nothing is logged |
| `Profiler.ProfilerThread.constructor` | torch/csrc/autograd/profiler.cpp:124 | a thread starts with an empty slot, depth 0, no callbacks and the dispatch key excluded |
| `Profiler.ProfilerThread.ProfilerEnabled` | torch/csrc/autograd/profiler.cpp:344-348 | the profiler is enabled only when the slot holds a session on top; its meaning is pinned by `Enable` (enabled afterwards iff the configuration is not Disabled) and `Disable` (succeeds iff it was enabled) |
| `Profiler.ProfilerThread.SettingValue` | torch/csrc/autograd/profiler.cpp:308-312 | the propagated getter is `Nesting.SettingValue` of the thread's nesting state (depth > 0) |
| `Profiler.ProfilerThread.Enable` | torch/csrc/autograd/profiler.cpp:350-381 | NVTX without the backend fails and changes nothing. Otherwise one fresh session with the given configuration is pushed on the slot, and the nesting state becomes `Nesting.Enter` of the old one. A buffering session holds exactly `StartupEvents`, and an NVTX session holds nothing but logs one `__start_profile` mark. Afterwards the profiler is enabled iff the configuration is not Disabled |
| `Profiler.ProfilerThread.Disable` | torch/csrc/autograd/profiler.cpp:383-402 | it succeeds iff the profiler was enabled. An empty slot fails with "not running" and changes nothing. Otherwise the innermost entry is popped. If that entry is not a running session, the result is "not running", the nesting state is untouched and a popped Disabled session keeps its lists. Otherwise the nesting state becomes `Nesting.Exit` of the old one. An NVTX session yields no lists and records nothing. A buffering session records `__stop_profile` on the calling thread (stamped in CUDA mode) and yields one list per thread entry, as `Consolidate` does |
| `Profiler.ProfilerThread.ApplySetting` | torch/csrc/autograd/profiler.cpp:313-329 | the child-task setter leaves the slot alone and moves the nesting state by `Nesting.ApplySetting` |
| `Profiler.ProfilerThread.OnEnter` | torch/csrc/autograd/profiler.cpp:258-286 | without pushed callbacks or a running innermost session, nothing changes. Otherwise the innermost session gets one `PushRange` for the scope. The message is `, seq = ` iff the sequence number is ≥ 0. The shapes are one per input when the callbacks capture inputs, and none otherwise |
| `Profiler.ProfilerThread.OnExit` | torch/csrc/autograd/profiler.cpp:287-295 | without pushed callbacks or a running innermost session, nothing changes; otherwise the innermost session gets one `PopRange` |
| `Export.PushBelow` | torch/csrc/autograd/profiler.cpp:478-487 | whenever a level is open before a position, some push before that position opened it, so a pop of a well-opened list always finds a push on the stack |
| `Export.PairedPush` | torch/csrc/autograd/profiler.cpp:486-487 | the push a pop closes comes before the pop, is a push, and opened the level the pop returns to |
| `Export.PairsCount` | torch/csrc/autograd/profiler.cpp:478-495 | as many records as pops: marks and pushes left open emit nothing |
| `Export.PairsOnePerPop` | torch/csrc/autograd/profiler.cpp:478-495 | exactly one record per pop: the records' pops are strictly increasing (no pop closed twice, records in pop order), and every pop has a record |
| `Export.PairsMatch` | torch/csrc/autograd/profiler.cpp:478-495 | every record pairs a push with a later pop and takes the push's name and thread. That push is the most recent one at its level before the pop, and its range stays open until the pop |
| `Export.SeparatedLayout` | torch/csrc/autograd/profiler.cpp:476-496 | in the output, record m sits at position 2m with a `,\n` separator between each two records, and nothing else |
| `Export.FirstNamed` | torch/csrc/autograd/profiler.cpp:467-473 | the start lookup finds nothing iff no event is named as asked; otherwise it returns the first event with that name |
| `Export.FindStart` | torch/csrc/autograd/profiler.cpp:467-474 | the search loop fails with "start not found" iff no `__start_profile` event exists, and otherwise returns the first one |
| `Export.Visit` | torch/csrc/autograd/profiler.cpp:479-494 | one step of the walk: a push goes on the stack, a pop takes its push off the top and emits its record (after `,\n` unless it is the first), a mark changes nothing |
| `Export.EmitRecords` | torch/csrc/autograd/profiler.cpp:475-496 | the walk emits exactly `[\n`, the records of `Export.Pairs` separated by `,\n`, then `]\n` |
| `Export.ProcessEvents` | torch/csrc/autograd/profiler.cpp:465-497 | accepts any list without a `__start_profile` event and fails on it with "start not found"; fails iff no event is so named; otherwise outputs the framed records of all pops, with the first start mark as session start |
| `Export.Flatten` | torch/csrc/autograd/profiler.cpp:453-458 | the flattened list is the per-thread lists one after another, in order |
| `Export.WellOpenedAppend` | torch/csrc/autograd/profiler.cpp:453-458 | two lists in which every pop closes an open push stay so when one is appended to the other |
| `Export.ConcatWellOpened` | torch/csrc/autograd/profiler.cpp:451-459 | flattening per-thread lists that are each well opened gives a list the exporter accepts |

## Left out

- Locking (`std::mutex`) and the propagation of the debug info and of the setting across threads: concurrency. Each thread is modelled on its own, and the propagated setting is a plain method call.
- The device backend's `record`, `elapsed`, `synchronize` and `onEachDevice`, and the NVTX calls themselves: these are foreign calls. The model keeps availability, a device count, and a log of NVTX calls. Devices are visited as 0 … n-1. `Events.CudaElapsed` returns the common device instead of an elapsed time.
- Clock readings (`getTime`, `cpu_ns_`) and the floating-point `ts`/`dur`: records name the events the times come from instead.
- The JSON template rendering of a record and the output stream: a record is an `Entry` piece; the open-file check and the `RecordProfile` constructor and destructor (file I/O) are not modelled beyond `Export.Flatten` and `Export.ProcessEvents`.
- `pushCallback`/`removeCallback` and the dispatch-key setter are booleans in the nesting state. The callbacks' scope filter (function and user scopes only) is left out: `OnEnter`/`OnExit` are called for the scopes the filter lets through.
- IValue and Tensor are reduced to `Events.Input` (defined tensor with sizes, undefined tensor, other value).
- Export.ProcessEvents: when a `__start_profile` event exists, requires every pop to close an open push; the walk in the source reads the top of an empty stack otherwise, which is undefined behaviour. Without a start event any list is accepted and fails with "start not found", as in the source.
- Profiler.ProfilerThread.Disable: the popped entry of a failed disable is not pushed back, as in the source; the debug-info stack's own kind check is not modelled (the slot holds PROFILER_STATE entries only).
- Profiler.ProfilerThread.ApplySetting: models the corrected setter (see Findings); the setter as written is `Nesting.ApplySettingAsWritten`.
- `consolidate` in the source leaves the map intact, and so does `Session.ProfilerSession.Consolidate`. The order of the returned lists follows the map's iteration order, which is unspecified.

## Findings

| source | as written | input that shows it | evidently intended | confidence | as-written member | corrected member |
|---|---|---|---|---|---|---|
| torch/csrc/autograd/profiler.cpp:323-328 | the setter for `false` decrements `profiler_nested_depth_` whatever its value | a worker thread at depth 0 runs a task launched by a parent that is not profiling (setter `false`, depth becomes -1), then a task from a profiling parent (setter `true`): the depth is nonzero, so the callbacks are not pushed, the depth ends at 0 and nothing is recorded | `false` at depth 0 leaves the depth alone, so the depth never goes negative and a `true` always finds the callbacks pushed | medium; not executed | `Nesting.ApplySettingAsWritten`, `Nesting.SetterAsWrittenLosesCallbacks` | `Nesting.ApplySetting`, `Nesting.SettingsKeepCallbacks` |
