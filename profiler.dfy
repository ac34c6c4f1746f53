/**
 * The per-thread profiler state of torch/csrc/autograd/profiler.cpp: the
 * PROFILER_STATE slot of the thread-local debug info (a stack of sessions),
 * `profiler_nested_depth_`, the callback pair and the dispatch key, with
 * `enableProfiler`, `disableProfiler`, `profilerEnabled`, the propagated
 * setting and the two profiling callbacks as operations on it.
 */
module Profiler {
  import opened Wrappers
  import opened Events
  import opened Session
  import Nesting

  datatype ProfilerError = NvtxWithoutCuda | NotRunning

  /** The map holding `evs` as the one list of thread `tid`, or no list while `evs` is empty. */
  function Filled(tid: nat, evs: seq<Event>): (m: map<nat, seq<Event>>)
    ensures evs != [] ==> m.Keys == {ListKey(tid)} && m[ListKey(tid)] == evs
  {
    if evs == [] then map[] else map[ListKey(tid) := evs]
  }

  /** Recording into a map that holds only `tid`'s list extends that list. */
  lemma FilledRecorded(tid: nat, evs: seq<Event>, e: Event)
    ensures Recorded(Filled(tid, evs), tid, e) == Filled(tid, evs + [e])
  {
    var lhs := Recorded(Filled(tid, evs), tid, e);
    assert lhs.Keys == {ListKey(tid)};
  }

  /** One mark per device 0 .. n-1, in device order, each stamped on its device. */
  function DeviceMarks(config: Config, name: string, tid: nat, n: nat): (marks: seq<Event>)
    ensures |marks| == n
  {
    if n == 0 then [] else DeviceMarks(config, name, tid, n - 1) + [MarkEvent(config, name, true, tid, n - 1)]
  }

  /** `s` repeated `k` times. */
  function Repeat<T>(s: seq<T>, k: nat): seq<T> {
    if k == 0 then [] else Repeat(s, k - 1) + s
  }

  /**
   * The events a freshly enabled buffering session holds: in CUDA mode the
   * warm-up rounds of `__cuda_startup` marks and one `__cuda_start_event`
   * per device, then `__start_profile` without CUDA timing.
   */
  function StartupEvents(config: Config, tid: nat, deviceCount: nat): seq<Event> {
    (if config.state == CUDA then CudaMarks(config, tid, deviceCount) else [])
    + [MarkEvent(config, StartProfileName, false, tid, 0)]
  }

  /** Device `d`'s mark is the `d`-th, stamped on device `d`. */
  lemma {:induction false} DeviceMarksAt(config: Config, name: string, tid: nat, n: nat)
    requires config.state == CUDA
    ensures forall d :: 0 <= d < n ==> DeviceMarks(config, name, tid, n)[d] == Event(Mark, name, tid, Some(d), [])
    decreases n
  {
    if n > 0 {
      DeviceMarksAt(config, name, tid, n - 1);
    }
  }

  /** `k` copies of `s`: `k * |s|` elements, each one of `s`'s. */
  lemma {:induction false} RepeatFacts<T>(s: seq<T>, k: nat)
    ensures |Repeat(s, k)| == k * |s|
    ensures forall x :: x in Repeat(s, k) ==> x in s
    decreases k
  {
    if k > 0 {
      RepeatFacts(s, k - 1);
      assert k * |s| == (k - 1) * |s| + |s|;
    }
  }

  /** Element `d` of round `r` of `k` copies of `s` is `s[d]`. */
  lemma {:induction false} RepeatAt<T>(s: seq<T>, k: nat, r: nat, d: nat)
    requires r < k && d < |s|
    ensures |Repeat(s, k)| == k * |s|
    ensures r * |s| + d < k * |s|
    ensures Repeat(s, k)[r * |s| + d] == s[d]
    decreases k
  {
    RepeatFacts(s, k);
    RepeatFacts(s, k - 1);
    assert k * |s| == (k - 1) * |s| + |s|;
    if r < k - 1 {
      RepeatAt(s, k - 1, r, d);
    } else {
      assert r * |s| == (k - 1) * |s|;
    }
  }

  /**
   * What a buffering session holds right after it is enabled: all marks on
   * the enabling thread; in CUDA mode five rounds of one `__cuda_startup` per
   * device, then `__cuda_start_event` on device 0, 1, ... in turn; and last
   * `__start_profile` with no CUDA stamp.
   */
  lemma StartupLayout(config: Config, tid: nat, n: nat)
    ensures var evs := StartupEvents(config, tid, n);
      && |evs| == (if config.state == CUDA then 6 * n else 0) + 1
      && evs[|evs| - 1] == Event(Mark, StartProfileName, tid, None, [])
      && (forall j :: 0 <= j < |evs| ==> evs[j].kind == Mark && evs[j].tid == tid)
      && (config.state == CUDA ==> forall j :: 0 <= j < 5 * n ==>
            evs[j].name == CudaStartupName && evs[j].cuda.Some? && 0 <= evs[j].cuda.value < n)
      && (config.state == CUDA ==> forall j :: 5 * n <= j < 6 * n ==>
            evs[j] == Event(Mark, CudaStartEventName, tid, Some(j - 5 * n), []))
  {
    var evs := StartupEvents(config, tid, n);
    if config.state == CUDA {
      var startup := DeviceMarks(config, CudaStartupName, tid, n);
      var starts := DeviceMarks(config, CudaStartEventName, tid, n);
      var warmup := Repeat(startup, CudaWarmupStart);
      RepeatFacts(startup, CudaWarmupStart);
      DeviceMarksAt(config, CudaStartupName, tid, n);
      DeviceMarksAt(config, CudaStartEventName, tid, n);
      assert evs == warmup + starts + [MarkEvent(config, StartProfileName, false, tid, 0)];
      forall j | 0 <= j < 5 * n
        ensures evs[j].kind == Mark && evs[j].tid == tid && evs[j].name == CudaStartupName
        ensures evs[j].cuda.Some? && 0 <= evs[j].cuda.value < n
      {
        assert evs[j] == warmup[j];
        assert warmup[j] in startup;
      }
      forall j | 5 * n <= j < 6 * n
        ensures evs[j] == Event(Mark, CudaStartEventName, tid, Some(j - 5 * n), [])
      {
        assert evs[j] == starts[j - 5 * n];
      }
    }
  }

  /**
   * Warm-up round `round` marks the devices in order: its `d`-th event is the
   * `__cuda_startup` mark stamped on device `d`.
   */
  lemma StartupRound(config: Config, tid: nat, n: nat, round: nat, d: nat)
    requires config.state == CUDA
    requires round < CudaWarmupStart && d < n
    ensures round * n + d < 5 * n
    ensures |StartupEvents(config, tid, n)| == 6 * n + 1
    ensures StartupEvents(config, tid, n)[round * n + d] == Event(Mark, CudaStartupName, tid, Some(d), [])
  {
    var startup := DeviceMarks(config, CudaStartupName, tid, n);
    RepeatAt(startup, CudaWarmupStart, round, d);
    DeviceMarksAt(config, CudaStartupName, tid, n);
    StartupLayout(config, tid, n);
    assert StartupEvents(config, tid, n) ==
      Repeat(startup, CudaWarmupStart) + DeviceMarks(config, CudaStartEventName, tid, n)
      + [MarkEvent(config, StartProfileName, false, tid, 0)];
  }

  /** Marks `name` on each device in turn (`onEachDevice`), all on thread `tid`. */
  method MarkEachDevice(s: ProfilerSession, name: string, tid: nat, stubs: DeviceStubs, ghost prefix: seq<Event>)
    requires s.config.state == CUDA
    requires s.eventLists == Filled(tid, prefix)
    modifies s`eventLists, stubs`nvtxLog
    ensures s.eventLists == Filled(tid, prefix + DeviceMarks(s.config, name, tid, stubs.deviceCount))
    ensures stubs.nvtxLog == old(stubs.nvtxLog)
  {
    var d := 0;
    assert prefix + DeviceMarks(s.config, name, tid, 0) == prefix;
    while d < stubs.deviceCount
      invariant 0 <= d <= stubs.deviceCount
      invariant s.eventLists == Filled(tid, prefix + DeviceMarks(s.config, name, tid, d))
      invariant stubs.nvtxLog == old(stubs.nvtxLog)
    {
      ghost var before := prefix + DeviceMarks(s.config, name, tid, d);
      s.Mark(name, true, tid, d, stubs);
      FilledRecorded(tid, before, MarkEvent(s.config, name, true, tid, d));
      assert before + [MarkEvent(s.config, name, true, tid, d)] == prefix + DeviceMarks(s.config, name, tid, d + 1);
      d := d + 1;
    }
  }

  /** The CUDA warm-up marks an enabled session records before its start mark. */
  function CudaMarks(config: Config, tid: nat, deviceCount: nat): seq<Event> {
    Repeat(DeviceMarks(config, CudaStartupName, tid, deviceCount), CudaWarmupStart)
    + DeviceMarks(config, CudaStartEventName, tid, deviceCount)
  }

  /** The warm-up rounds of `__cuda_startup` marks, then one `__cuda_start_event` per device. */
  method RecordCudaWarmup(s: ProfilerSession, tid: nat, stubs: DeviceStubs)
    requires s.config.state == CUDA
    requires s.eventLists == map[]
    modifies s`eventLists, stubs`nvtxLog
    ensures s.eventLists == Filled(tid, CudaMarks(s.config, tid, stubs.deviceCount))
    ensures stubs.nvtxLog == old(stubs.nvtxLog)
  {
    ghost var startup := DeviceMarks(s.config, CudaStartupName, tid, stubs.deviceCount);
    var i := 0;
    while i < CudaWarmupStart
      invariant 0 <= i <= CudaWarmupStart
      invariant s.eventLists == Filled(tid, Repeat(startup, i))
      invariant stubs.nvtxLog == old(stubs.nvtxLog)
    {
      MarkEachDevice(s, CudaStartupName, tid, stubs, Repeat(startup, i));
      i := i + 1;
    }
    MarkEachDevice(s, CudaStartEventName, tid, stubs, Repeat(startup, CudaWarmupStart));
  }

  /** The profiler state of one thread. */
  class ProfilerThread {
    /**
     * The PROFILER_STATE entries of the debug-info stack, innermost last;
     * `None` is a payload that is not a profiler session.
     */
    var slot: seq<Option<ProfilerSession>>
    var depth: int
    var callbacks: bool
    var needsInputs: bool
    var dispatch: bool
    const stubs: DeviceStubs
    const tid: nat

    constructor (stubs: DeviceStubs, tid: nat)
      ensures slot == [] && Hooks() == Nesting.Idle
      ensures this.stubs == stubs && this.tid == tid
    {
      slot := [];
      depth, callbacks, needsInputs, dispatch := 0, false, false, false;
      this.stubs := stubs;
      this.tid := tid;
    }

    ghost function Hooks(): Nesting.Hooks
      reads this
    {
      Nesting.Hooks(depth, callbacks, needsInputs, dispatch)
    }

    /** The callbacks and the dispatch key are in place iff some session is enabled (depth > 0). */
    ghost predicate HooksConsistent()
      reads this
    {
      Nesting.Consistent(Hooks())
    }

    /** The innermost PROFILER_STATE entry, if any. */
    function Top(): Option<ProfilerSession>
      reads this
    {
      if slot == [] then None else slot[|slot| - 1]
    }

    /** The sessions a callback or a disable may write to. */
    ghost function TopSet(): set<object>
      reads this
    {
      if Top().Some? then {Top().value} else {}
    }

    /** `profilerEnabled`: the innermost entry is a session that is not Disabled. */
    function ProfilerEnabled(): (r: bool)
      reads this
      ensures r ==> slot != [] && Top().Some?
    {
      Top().Some? && Top().value.config.state != Disabled
    }

    /** The setting getter propagated to child tasks. */
    function SettingValue(): (r: bool)
      reads this
      ensures r == Nesting.SettingValue(Hooks())
    {
      depth > 0
    }

    /**
     * `enableProfiler`. NVTX without the device backend fails before anything
     * changes. Otherwise a fresh session is pushed, the nesting state enters,
     * and the session records its startup marks.
     */
    method Enable(config: Config) returns (r: Outcome<ProfilerError>)
      modifies this, stubs`nvtxLog
      ensures config.state == NVTX && !stubs.enabled ==>
        r == Fail(NvtxWithoutCuda) && unchanged(this) && stubs.nvtxLog == old(stubs.nvtxLog)
      ensures !(config.state == NVTX && !stubs.enabled) ==>
        r == Pass && slot == old(slot) + [Top()] && Top().Some? && fresh(Top().value)
      ensures !(config.state == NVTX && !stubs.enabled) ==>
        Top().value.config == config && (ProfilerEnabled() <==> config.state != Disabled)
      ensures !(config.state == NVTX && !stubs.enabled) ==>
        Hooks() == Nesting.Enter(old(Hooks()), config.reportInputShapes)
      ensures !(config.state == NVTX && !stubs.enabled) ==>
        Top().value.eventLists ==
          if Buffers(config.state) then Filled(tid, StartupEvents(config, tid, stubs.deviceCount)) else map[]
      ensures !(config.state == NVTX && !stubs.enabled) ==>
        stubs.nvtxLog == old(stubs.nvtxLog) + (if config.state == NVTX then [NvtxMark(StartProfileName)] else [])
      ensures old(HooksConsistent()) ==> HooksConsistent()
    {
      if config.state == NVTX && !stubs.enabled {
        return Fail(NvtxWithoutCuda);
      }
      var s: ProfilerSession := new ProfilerSession(config);
      slot := slot + [Some(s)];
      if depth == 0 {
        callbacks, needsInputs, dispatch := true, config.reportInputShapes, true;
      }
      depth := depth + 1;
      ghost var marks: seq<Event> := [];
      if config.state == CUDA {
        RecordCudaWarmup(s, tid, stubs);
        marks := CudaMarks(config, tid, stubs.deviceCount);
      }
      // The start mark asks for no CUDA timing, so the device does not matter.
      s.Mark(StartProfileName, false, tid, 0, stubs);
      if Buffers(config.state) {
        FilledRecorded(tid, marks, MarkEvent(config, StartProfileName, false, tid, 0));
      }
      r := Pass;
    }

    /**
     * `disableProfiler`. The innermost entry is popped first; if there was
     * none, or it is not a running session, the result is `NotRunning` and the
     * nesting state is untouched. Otherwise the nesting state exits; an NVTX
     * session yields no lists, a buffering one records `__stop_profile` and
     * yields one list per thread entry.
     */
    method Disable(device: int) returns (r: Result<seq<seq<Event>>, ProfilerError>, ghost keys: seq<nat>)
      modifies this, stubs`nvtxLog, TopSet()
      ensures old(slot) == [] ==> r == Failure(NotRunning) && unchanged(this)
      ensures old(slot) != [] ==> slot == old(slot[..|slot| - 1])
      ensures r.Success? <==> old(ProfilerEnabled())
      ensures !old(ProfilerEnabled()) ==> r == Failure(NotRunning) && Hooks() == old(Hooks())
      ensures !old(ProfilerEnabled()) && old(Top()).Some? ==>
        old(Top().value).eventLists == old(Top().value.eventLists)
      ensures stubs.nvtxLog == old(stubs.nvtxLog)
      ensures old(ProfilerEnabled()) ==>
        var s := old(Top().value);
        && Hooks() == Nesting.Exit(old(Hooks()))
        && (s.config.state == NVTX ==> r == Success([]) && s.eventLists == old(s.eventLists))
        && (Buffers(s.config.state) ==>
              && s.eventLists == Recorded(old(s.eventLists), tid, MarkEvent(s.config, StopProfileName, true, tid, device))
              && r.Success?
              && OnePerThread(s.eventLists, r.value, keys))
      ensures old(HooksConsistent()) ==> HooksConsistent()
    {
      keys := [];
      if slot == [] {
        return Failure(NotRunning), keys;
      }
      var top := slot[|slot| - 1];
      slot := slot[..|slot| - 1];
      if top.None? || top.value.config.state == Disabled {
        return Failure(NotRunning), keys;
      }
      var s := top.value;
      depth := depth - 1;
      if depth == 0 {
        dispatch, callbacks := false, false;
      }
      if s.config.state == NVTX {
        return Success([]), keys;
      }
      s.Mark(StopProfileName, true, tid, device, stubs);
      var lists;
      lists, keys := s.Consolidate();
      r := Success(lists);
    }

    /** The setting setter run when a child task starts (corrected; see Nesting.ApplySetting). */
    method ApplySetting(value: bool)
      modifies this
      ensures slot == old(slot)
      ensures Hooks() == Nesting.ApplySetting(old(Hooks()), value)
    {
      if value {
        if depth == 0 {
          callbacks, needsInputs := true, false;
        }
        depth := depth + 1;
      } else if depth > 0 {
        depth := depth - 1;
        if depth == 0 {
          callbacks := false;
        }
      }
    }

    /**
     * The enter callback: with the callbacks pushed and a running session
     * innermost, a range is pushed for the scope, with the input shapes when
     * the callbacks capture inputs.
     */
    method OnEnter(name: string, seqNr: int, inputs: seq<Input>, device: int)
      modifies stubs`nvtxLog, TopSet()
      ensures !(callbacks && ProfilerEnabled()) ==>
        stubs.nvtxLog == old(stubs.nvtxLog) && forall o :: o in TopSet() ==> unchanged(o)
      ensures callbacks && ProfilerEnabled() ==>
        var s := Top().value;
        var shapes := EnterShapes(needsInputs, inputs);
        && s.eventLists == (if Buffers(s.config.state) then Recorded(old(s.eventLists), tid, PushEvent(s.config, name, tid, device, shapes))
                            else old(s.eventLists))
        && stubs.nvtxLog == old(stubs.nvtxLog) +
             (if s.config.state == NVTX then [NvtxRangePush(Nvtx.NvtxMessage(name, SeqMessage(seqNr), seqNr, shapes))] else [])
    {
      if !callbacks || Top().None? || Top().value.config.state == Disabled {
        return;
      }
      var s := Top().value;
      var msg := if seqNr >= 0 then ", seq = " else "";
      var shapes: seq<seq<int>> := [];
      if needsInputs {
        shapes := InputSizes(inputs);
        assert shapes == EnterShapes(needsInputs, inputs);
      }
      s.PushRange(name, msg, seqNr, shapes, tid, device, stubs);
    }

    /** The exit callback: with the callbacks pushed and a running session innermost, the range is popped. */
    method OnExit(device: int)
      modifies stubs`nvtxLog, TopSet()
      ensures !(callbacks && ProfilerEnabled()) ==>
        stubs.nvtxLog == old(stubs.nvtxLog) && forall o :: o in TopSet() ==> unchanged(o)
      ensures callbacks && ProfilerEnabled() ==>
        var s := Top().value;
        && s.eventLists == (if Buffers(s.config.state) then Recorded(old(s.eventLists), tid, PopEvent(s.config, tid, device))
                            else old(s.eventLists))
        && stubs.nvtxLog == old(stubs.nvtxLog) + (if s.config.state == NVTX then [NvtxRangePop] else [])
    {
      if !callbacks || Top().None? || Top().value.config.state == Disabled {
        return;
      }
      Top().value.PopRange(tid, device, stubs);
    }
  }

  /** The text between a scope name and its sequence number in an NVTX message. */
  function SeqMessage(seqNr: int): string {
    if seqNr >= 0 then ", seq = " else ""
  }

  /** The shapes the enter callback reports: one per input when inputs are captured, none otherwise. */
  ghost function EnterShapes(needsInputs: bool, inputs: seq<Input>): seq<seq<int>> {
    if needsInputs then seq(|inputs|, i requires 0 <= i < |inputs| => ShapeOf(inputs[i])) else []
  }
}
