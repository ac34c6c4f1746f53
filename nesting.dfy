/**
 * The thread-local nesting state of the profiler (torch/csrc/autograd/profiler.cpp):
 * `profiler_nested_depth_`, whether the profiler's callback pair is pushed
 * (and whether it captures inputs), and whether the Profiler dispatch key is
 * included. Enabling and disabling a session and applying the propagated
 * setting in a child task are transitions of this state.
 */
module Nesting {

  datatype Hooks = Hooks(depth: int, callbacks: bool, needsInputs: bool, dispatch: bool)

  /** A thread on which no profiling has happened. */
  const Idle: Hooks := Hooks(0, false, false, false)

  /** The callback pair is pushed exactly while the depth is positive. */
  predicate Consistent(h: Hooks) {
    h.callbacks == (h.depth > 0)
  }

  /**
   * `enableProfiler`: at depth 0 push the callbacks (capturing inputs as the
   * new session asks) and include the dispatch key; then raise the depth.
   */
  function Enter(h: Hooks, reportInputShapes: bool): (r: Hooks)
    ensures r.depth == h.depth + 1
    ensures h.depth == 0 ==> r.callbacks && r.dispatch && r.needsInputs == reportInputShapes
    ensures h.depth != 0 ==> r == h.(depth := h.depth + 1)
    ensures Consistent(h) ==> Consistent(r)
  {
    var installed :=
      if h.depth == 0 then h.(callbacks := true, needsInputs := reportInputShapes, dispatch := true)
      else h;
    installed.(depth := h.depth + 1)
  }

  /**
   * `disableProfiler` once a running session was popped: lower the depth, and
   * when it reaches 0 exclude the dispatch key and remove the callbacks.
   */
  function Exit(h: Hooks): (r: Hooks)
    ensures r.depth == h.depth - 1
    ensures r.depth == 0 ==> !r.callbacks && !r.dispatch && r.needsInputs == h.needsInputs
    ensures r.depth != 0 ==> r == h.(depth := h.depth - 1)
    ensures Consistent(h) ==> Consistent(r)
  {
    var lowered := h.(depth := h.depth - 1);
    if lowered.depth == 0 then lowered.(callbacks := false, dispatch := false) else lowered
  }

  /** The setting getter: whether profiling is in effect on this thread. */
  function SettingValue(h: Hooks): bool {
    h.depth > 0
  }

  /**
   * The setting setter exactly as written: `true` pushes the callbacks (never
   * capturing inputs) at depth 0 and raises the depth; `false` lowers the
   * depth unconditionally and removes the callbacks when it reaches 0.
   */
  function ApplySettingAsWritten(h: Hooks, push: bool): (r: Hooks)
    ensures push ==> r.depth == h.depth + 1
    ensures !push ==> r.depth == h.depth - 1
    ensures r.dispatch == h.dispatch
  {
    if push then
      var installed := if h.depth == 0 then h.(callbacks := true, needsInputs := false) else h;
      installed.(depth := h.depth + 1)
    else
      var lowered := h.(depth := h.depth - 1);
      if lowered.depth == 0 then lowered.(callbacks := false) else lowered
  }

  /**
   * A worker thread that has never profiled receives `false` from a parent
   * that is not profiling (as every task launched outside a session does):
   * its depth drops below 0. A later task from a profiling parent then finds
   * a nonzero depth, so the callbacks are not pushed and the thread still
   * reports that no profiling is in effect.
   */
  lemma SetterAsWrittenLosesCallbacks()
    ensures ApplySettingAsWritten(Idle, false).depth == -1
    ensures var h := ApplySettingAsWritten(ApplySettingAsWritten(Idle, false), true);
      !h.callbacks && !SettingValue(h)
  {
  }

  /**
   * The setter as evidently intended: `false` at depth 0 leaves the state
   * alone instead of driving the depth negative; otherwise as written.
   */
  function ApplySetting(h: Hooks, push: bool): (r: Hooks)
    ensures h.depth >= 0 ==> r.depth >= 0
    ensures Consistent(h) ==> Consistent(r)
    ensures h.depth >= 0 && push ==> r.depth == h.depth + 1 && SettingValue(r)
    ensures Consistent(h) && h.depth >= 0 && push ==> r.callbacks
    ensures !push && h.depth > 0 ==> r.depth == h.depth - 1
    ensures !push && h.depth <= 0 ==> r == h
    ensures r.dispatch == h.dispatch
  {
    if !push && h.depth <= 0 then h else ApplySettingAsWritten(h, push)
  }

  /** Applying the propagated setting for a series of tasks run on one thread. */
  function ApplySettings(h: Hooks, values: seq<bool>): Hooks {
    if values == [] then h else ApplySetting(ApplySettings(h, values[..|values| - 1]), values[|values| - 1])
  }

  /**
   * With the corrected setter, whatever series of settings a worker thread
   * receives, its depth never goes negative, the callbacks are pushed exactly
   * while it is positive, and a task from a profiling parent always finds the
   * callbacks pushed.
   */
  lemma {:induction false} SettingsKeepCallbacks(values: seq<bool>)
    ensures var h := ApplySettings(Idle, values);
      h.depth >= 0 && Consistent(h) && ApplySetting(h, true).callbacks
    decreases |values|
  {
    if values != [] {
      SettingsKeepCallbacks(values[..|values| - 1]);
    }
  }

  /** Enabling one session after another, each with its own shapes flag. */
  function EnterAll(h: Hooks, reports: seq<bool>): Hooks {
    if reports == [] then h else Enter(EnterAll(h, reports[..|reports| - 1]), reports[|reports| - 1])
  }

  /** Disabling `n` running sessions one after another. */
  function ExitN(h: Hooks, n: nat): Hooks {
    if n == 0 then h else Exit(ExitN(h, n - 1))
  }

  /**
   * Nested enables from an idle thread: the depth counts the sessions, the
   * callbacks and dispatch key are in place, and whether inputs are captured
   * is decided by the outermost session alone.
   */
  lemma {:induction false} EnterAllFromIdle(reports: seq<bool>)
    requires reports != []
    ensures var h := EnterAll(Idle, reports);
      h.depth == |reports| && h.callbacks && h.dispatch && h.needsInputs == reports[0]
    decreases |reports|
  {
    if |reports| > 1 {
      var front := reports[..|reports| - 1];
      EnterAllFromIdle(front);
      assert front[0] == reports[0];
    }
  }

  /** Disabling `n` sessions from a positive depth: the depth drops by `n`. */
  lemma {:induction false} ExitNDepth(h: Hooks, n: nat)
    requires n <= h.depth
    ensures ExitN(h, n).depth == h.depth - n
    ensures n < h.depth ==> ExitN(h, n).callbacks == h.callbacks && ExitN(h, n).dispatch == h.dispatch
    decreases n
  {
    if n > 0 {
      ExitNDepth(h, n - 1);
    }
  }

  /**
   * As many disables as enables, starting from an idle thread, end at depth 0
   * with the callbacks removed and the dispatch key excluded.
   */
  lemma NestedSessionsUnwind(reports: seq<bool>)
    ensures var h := ExitN(EnterAll(Idle, reports), |reports|);
      h.depth == 0 && !h.callbacks && !h.dispatch
  {
    if reports == [] {
      assert EnterAll(Idle, reports) == Idle;
    } else {
      var entered := EnterAll(Idle, reports);
      var n := |reports|;
      EnterAllFromIdle(reports);
      ExitNDepth(entered, n - 1);
      ExitNDepth(entered, n);
    }
  }

  /**
   * The getter propagated to child tasks reports profiling exactly while some
   * of the nested sessions is still enabled.
   */
  lemma GetterTracksSessions(reports: seq<bool>, k: nat)
    requires k <= |reports|
    ensures SettingValue(ExitN(EnterAll(Idle, reports), k)) <==> k < |reports|
  {
    if reports == [] {
      assert EnterAll(Idle, reports) == Idle;
    } else {
      EnterAllFromIdle(reports);
      ExitNDepth(EnterAll(Idle, reports), k);
    }
  }
}
