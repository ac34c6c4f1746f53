/**
 * Events recorded by a profiling session, the session configuration, and the
 * per-thread event lists a session keeps (torch/csrc/autograd/profiler.cpp).
 */
module Events {
  import opened Wrappers

  /** ProfilerState: what a session does with the scopes it sees. */
  datatype ProfilerState = Disabled | CPU | CUDA | NVTX

  /** ProfilerConfig: the state plus whether input shapes are reported. */
  datatype Config = Config(state: ProfilerState, reportInputShapes: bool)

  datatype EventKind = Mark | PushRange | PopRange

  /**
   * One recorded event. `cuda` is the device of the timing stamp taken by
   * the device backend; it is present exactly when CUDA timing was requested
   * for the event. Clock readings are abstract and not stored.
   */
  datatype Event = Event(
    kind: EventKind,
    name: string,
    tid: nat,
    cuda: Option<int>,
    shapes: seq<seq<int>>)

  /** An input of an instrumented call: a defined tensor, an undefined tensor or another value. */
  datatype Input = Tensor(sizes: seq<int>) | UndefinedTensor | NotTensor

  const StartProfileName: string := "__start_profile"
  const StopProfileName: string := "__stop_profile"
  const CudaStartupName: string := "__cuda_startup"
  const CudaStartEventName: string := "__cuda_start_event"

  /** Number of warm-up rounds of device marks before CUDA timing starts. */
  const CudaWarmupStart: nat := 5

  /** The event-list map is keyed by a 16-bit thread id. */
  const ThreadKeySpace: nat := 0x1_0000

  /** Key of a thread's event list: the thread id truncated to 16 bits. */
  function ListKey(tid: nat): (k: nat)
    ensures k < ThreadKeySpace
    ensures tid < ThreadKeySpace ==> k == tid
    ensures (tid - k) % ThreadKeySpace == 0
  {
    tid % ThreadKeySpace
  }

  /** Whether a state buffers events in the session (CPU and CUDA do). */
  predicate Buffers(state: ProfilerState) {
    state == CPU || state == CUDA
  }

  /** The list stored under a key, or the empty list when there is none. */
  function Lookup(lists: map<nat, seq<Event>>, key: nat): seq<Event> {
    if key in lists then lists[key] else []
  }

  /**
   * The map after thread `tid` records `e`: its list, created empty on first
   * use, grows by `e` at the end; no other list changes.
   */
  function Recorded(lists: map<nat, seq<Event>>, tid: nat, e: Event): (r: map<nat, seq<Event>>)
    ensures r.Keys == lists.Keys + {ListKey(tid)}
    ensures r[ListKey(tid)] == Lookup(lists, ListKey(tid)) + [e]
    ensures forall k :: k in lists && k != ListKey(tid) ==> r[k] == lists[k]
  {
    lists[ListKey(tid) := Lookup(lists, ListKey(tid)) + [e]]
  }

  /** The shape reported for one input: the sizes of a defined tensor, else empty. */
  function ShapeOf(input: Input): seq<int> {
    if input.Tensor? then input.sizes else []
  }

  /**
   * Shape extraction in the enter callback: one entry per input, in order,
   * `ShapeOf` each.
   */
  method InputSizes(inputs: seq<Input>) returns (sizes: seq<seq<int>>)
    ensures |sizes| == |inputs|
    ensures forall i :: 0 <= i < |inputs| ==> sizes[i] == ShapeOf(inputs[i])
  {
    sizes := [];
    for i := 0 to |inputs|
      invariant |sizes| == i
      invariant forall j :: 0 <= j < i ==> sizes[j] == ShapeOf(inputs[j])
    {
      if inputs[i].NotTensor? {
        sizes := sizes + [[]];
        continue;
      }
      if inputs[i].Tensor? {
        sizes := sizes + [inputs[i].sizes];
      } else {
        sizes := sizes + [[]];
      }
    }
  }

  datatype ElapsedError = NotRecordedForCuda | DifferentDevices

  /**
   * The checks `Event::cuda_elapsed_us` makes before asking the device
   * backend for the elapsed time from `self` to `other`: on success, the
   * device both stamps were taken on.
   */
  function CudaElapsed(self: Event, other: Event): (r: Result<int, ElapsedError>)
    ensures r.Success? <==> self.cuda.Some? && other.cuda.Some? && self.cuda.value == other.cuda.value
    ensures r.Success? ==> r.value == self.cuda.value
    ensures (self.cuda.None? || other.cuda.None?) ==> r == Failure(NotRecordedForCuda)
    ensures self.cuda.Some? && other.cuda.Some? && self.cuda.value != other.cuda.value ==>
      r == Failure(DifferentDevices)
  {
    if other.cuda.None? || self.cuda.None? then Failure(NotRecordedForCuda)
    else if other.cuda.value != self.cuda.value then Failure(DifferentDevices)
    else Success(self.cuda.value)
  }
}
