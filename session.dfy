/**
 * One profiling session (`ProfilerThreadLocalState`, torch/csrc/autograd/profiler.cpp):
 * its configuration and the map from thread to that thread's event list, and
 * the device timing backend it forwards to in NVTX mode.
 */
module Session {
  import opened Wrappers
  import opened Events
  import Nvtx

  /** A call into the NVTX range API of the device backend. */
  datatype NvtxCall = NvtxMark(name: string) | NvtxRangePush(message: string) | NvtxRangePop

  /**
   * The device timing backend (`CUDAStubs`) as far as this model needs it:
   * whether it is compiled in, how many devices it iterates over, and the NVTX
   * calls made so far.
   */
  class DeviceStubs {
    const enabled: bool
    const deviceCount: nat
    var nvtxLog: seq<NvtxCall>

    constructor (enabled: bool, deviceCount: nat)
      ensures this.enabled == enabled && this.deviceCount == deviceCount
      ensures nvtxLog == []
    {
      this.enabled := enabled;
      this.deviceCount := deviceCount;
      nvtxLog := [];
    }
  }

  /** The device stamp an event gets: present only when CUDA timing is asked for. */
  function Stamp(recordCuda: bool, device: int): Option<int> {
    if recordCuda then Some(device) else None
  }

  /** A point mark; CUDA timing only if asked for and the session is in CUDA mode. */
  function MarkEvent(config: Config, name: string, includeCuda: bool, tid: nat, device: int): Event {
    Event(Mark, name, tid, Stamp(includeCuda && config.state == CUDA, device), [])
  }

  /** The start of a range; it carries the scope name only, and the shapes given. */
  function PushEvent(config: Config, name: string, tid: nat, device: int, shapes: seq<seq<int>>): Event {
    Event(PushRange, name, tid, Stamp(config.state == CUDA, device), shapes)
  }

  /** The end of a range: no name and no shapes. */
  function PopEvent(config: Config, tid: nat, device: int): Event {
    Event(PopRange, "", tid, Stamp(config.state == CUDA, device), [])
  }

  /**
   * `lists` holds exactly one list per entry of `m`, `keys[i]` being the entry
   * `lists[i]` came from; the order of the entries is unspecified.
   */
  ghost predicate OnePerThread(m: map<nat, seq<Event>>, lists: seq<seq<Event>>, keys: seq<nat>) {
    && |keys| == |lists|
    && (forall i, j :: 0 <= i < j < |keys| ==> keys[i] != keys[j])
    && (forall k :: k in m <==> k in keys)
    && (forall i :: 0 <= i < |keys| ==> keys[i] in m && lists[i] == m[keys[i]])
  }

  class ProfilerSession {
    const config: Config
    var eventLists: map<nat, seq<Event>>

    constructor (config: Config)
      ensures this.config == config
      ensures eventLists == map[]
    {
      this.config := config;
      eventLists := map[];
    }

    /** The calling thread's list, created empty on first use. */
    method GetEventList(tid: nat)
      modifies this`eventLists
      ensures ListKey(tid) in eventLists
      ensures eventLists ==
        if ListKey(tid) in old(eventLists) then old(eventLists) else old(eventLists)[ListKey(tid) := []]
    {
      var key := ListKey(tid);
      if key !in eventLists {
        eventLists := eventLists[key := []];
      }
    }

    /** Appends `e` to the calling thread's list. */
    method Append(tid: nat, e: Event)
      modifies this`eventLists
      ensures eventLists == Recorded(old(eventLists), tid, e)
    {
      GetEventList(tid);
      var key := ListKey(tid);
      eventLists := eventLists[key := eventLists[key] + [e]];
    }

    /**
     * `mark`: nothing when Disabled, an NVTX mark in NVTX mode, otherwise one
     * Mark event appended to the calling thread's list.
     */
    method Mark(name: string, includeCuda: bool, tid: nat, device: int, stubs: DeviceStubs)
      modifies this`eventLists, stubs`nvtxLog
      ensures eventLists ==
        if Buffers(config.state) then Recorded(old(eventLists), tid, MarkEvent(config, name, includeCuda, tid, device))
        else old(eventLists)
      ensures stubs.nvtxLog ==
        if config.state == NVTX then old(stubs.nvtxLog) + [NvtxMark(name)] else old(stubs.nvtxLog)
    {
      if config.state == Disabled {
        return;
      }
      if config.state == NVTX {
        stubs.nvtxLog := stubs.nvtxLog + [NvtxMark(name)];
      } else {
        Append(tid, MarkEvent(config, name, includeCuda, tid, device));
      }
    }

    /**
     * `pushRange`: nothing when Disabled, an NVTX range push of the formatted
     * message in NVTX mode, otherwise one PushRange event appended to the
     * calling thread's list.
     */
    method PushRange(name: string, msg: string, seqNr: int, shapes: seq<seq<int>>,
                     tid: nat, device: int, stubs: DeviceStubs)
      modifies this`eventLists, stubs`nvtxLog
      ensures eventLists ==
        if Buffers(config.state) then Recorded(old(eventLists), tid, PushEvent(config, name, tid, device, shapes))
        else old(eventLists)
      ensures stubs.nvtxLog ==
        if config.state == NVTX then old(stubs.nvtxLog) + [NvtxRangePush(Nvtx.NvtxMessage(name, msg, seqNr, shapes))]
        else old(stubs.nvtxLog)
    {
      if config.state == Disabled {
        return;
      }
      if config.state == NVTX {
        var text := Nvtx.FormatNvtx(name, msg, seqNr, shapes);
        stubs.nvtxLog := stubs.nvtxLog + [NvtxRangePush(text)];
      } else {
        Append(tid, PushEvent(config, name, tid, device, shapes));
      }
    }

    /**
     * `popRange`: nothing when Disabled, an NVTX range pop in NVTX mode,
     * otherwise one nameless PopRange event appended to the calling thread's list.
     */
    method PopRange(tid: nat, device: int, stubs: DeviceStubs)
      modifies this`eventLists, stubs`nvtxLog
      ensures eventLists ==
        if Buffers(config.state) then Recorded(old(eventLists), tid, PopEvent(config, tid, device))
        else old(eventLists)
      ensures stubs.nvtxLog ==
        if config.state == NVTX then old(stubs.nvtxLog) + [NvtxRangePop] else old(stubs.nvtxLog)
    {
      if config.state == Disabled {
        return;
      }
      if config.state == NVTX {
        stubs.nvtxLog := stubs.nvtxLog + [NvtxRangePop];
      } else {
        Append(tid, PopEvent(config, tid, device));
      }
    }

    /**
     * `consolidate`: one list per thread entry, each list in recording order.
     * `keys` names the entry each list came from.
     */
    method Consolidate() returns (lists: seq<seq<Event>>, ghost keys: seq<nat>)
      ensures |lists| == |eventLists|
      ensures forall k :: k in eventLists ==> eventLists[k] in lists
      ensures forall i :: 0 <= i < |lists| ==> lists[i] in eventLists.Values
      ensures OnePerThread(eventLists, lists, keys)
    {
      lists, keys := [], [];
      var remaining := eventLists.Keys;
      while remaining != {}
        invariant remaining <= eventLists.Keys
        invariant |keys| == |lists|
        invariant |lists| + |remaining| == |eventLists|
        invariant forall i, j :: 0 <= i < j < |keys| ==> keys[i] != keys[j]
        invariant forall k :: k in eventLists ==> (k in keys <==> k !in remaining)
        invariant forall i :: 0 <= i < |keys| ==> keys[i] in eventLists && lists[i] == eventLists[keys[i]]
        decreases remaining
      {
        var k :| k in remaining;
        lists := lists + [eventLists[k]];
        keys := keys + [k];
        remaining := remaining - {k};
      }
    }
  }
}
