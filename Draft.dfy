/** The earlier draft of MyPromise in index.ts. The constructor, `_resolve` and `_reject`
    behave as in index.js, but `then` does no chaining: a settled promise gets the handler
    scheduled with its payload (the result is dropped), a pending one gets the handler
    pushed onto its queue, where the settle body calls it synchronously, and the promise
    `then` returns is `new MyPromise(() => {})`, which nothing can ever settle.
    Handlers are pure functions here, so what a run observes of them is the order in which
    they are called: the state keeps a log of every handler call and its outcome. */
module Draft {
  import opened Values

  /** The fields of one draft MyPromise; a queued callback is the (defaulted) handler. */
  datatype DraftRecord = DraftRecord(status: Status, value: Value, reason: Value,
                                     onFulfilledCallback: seq<Value -> Completion>,
                                     onRejectedCallback: seq<Value -> Completion>)

  const Fresh: DraftRecord := DraftRecord(Pending, Undefined, Undefined, [], [])

  /** A callback handed to `setTimeout`. */
  datatype DraftTask =
    | SettleFulfil(promise: PromiseId, value: Value)
    | SettleReject(promise: PromiseId, reason: Value)
      /** `() => { onFulfilled!(this.value) }` on a settled promise: the result is dropped and
          a throw escapes the timer callback */
    | RunHandler(handler: Value -> Completion, arg: Value)

  /** One call of a handler, with what it returned or threw. */
  datatype Invocation = Invocation(handler: Value -> Completion, arg: Value, result: Completion)

  datatype DraftState = DraftState(heap: seq<DraftRecord>, tasks: seq<DraftTask>, log: seq<Invocation>)

  const Empty: DraftState := DraftState([], [], [])

  predicate TaskIn(t: DraftTask, n: nat) {
    match t
    case SettleFulfil(p, _) => p < n
    case SettleReject(p, _) => p < n
    case RunHandler(_, _) => true
  }

  predicate Valid(s: DraftState) {
    forall i | 0 <= i < |s.tasks| :: TaskIn(s.tasks[i], |s.heap|)
  }

  /** The task a call on a promise's own resolve/reject pair schedules. */
  function SettleTask(p: PromiseId, c: Call): (t: DraftTask)
    ensures (t.SettleFulfil? || t.SettleReject?) && t.promise == p
    ensures t.SettleFulfil? <==> c.CallResolve?
    ensures if t.SettleFulfil? then t.value == c.arg else t.reason == c.arg
  {
    match c
    case CallResolve(v) => SettleFulfil(p, v)
    case CallReject(r) => SettleReject(p, r)
  }

  /** The settle task of each call on promise `p`'s own resolve/reject pair. */
  function Settler(p: PromiseId): (settle: Call -> DraftTask) {
    c => SettleTask(p, c)
  }

  /** The draft constructor: `fn` runs at once; a throw from it goes to `_reject`. */
  function Construct(s: DraftState, exec: Script): (r: (DraftState, PromiseId))
    ensures r.1 == |s.heap| && r.0.heap == s.heap + [Fresh] && r.0.log == s.log
    ensures r.0.tasks == s.tasks + ExecutorTasks(Settler(r.1), exec.calls)
                         + (if exec.ending.Throws? then [SettleReject(r.1, exec.ending.error)] else [])
  {
    var p := |s.heap|;
    var thrown := if exec.ending.Throws? then [SettleReject(p, exec.ending.error)] else [];
    (DraftState(s.heap + [Fresh], s.tasks + ExecutorTasks(Settler(p), exec.calls) + thrown, s.log), p)
  }

  /** The draft `then`: defaults for non-functions; schedule the handler against a settled
      promise, or push it onto the queues of a pending one; then return a new promise whose
      executor ignores its resolve/reject pair. */
  function Then(s: DraftState, p: PromiseId, onFulfilled: Callback, onRejected: Callback): (r: (DraftState, PromiseId))
    requires p < |s.heap|
    ensures r.1 == |s.heap| && |r.0.heap| == |s.heap| + 1 && r.0.heap[r.1] == Fresh && r.0.log == s.log
    ensures forall q | 0 <= q < |s.heap| && q != p :: r.0.heap[q] == s.heap[q]
    ensures s.heap[p].status == Pending ==>
              && r.0.tasks == s.tasks
              && r.0.heap[p] == s.heap[p].(onFulfilledCallback := s.heap[p].onFulfilledCallback + [OnFulfilledOrIdentity(onFulfilled)],
                                           onRejectedCallback := s.heap[p].onRejectedCallback + [OnRejectedOrRethrow(onRejected)])
    ensures s.heap[p].status == Fulfilled ==>
              r.0.heap[p] == s.heap[p] && r.0.tasks == s.tasks + [RunHandler(OnFulfilledOrIdentity(onFulfilled), s.heap[p].value)]
    ensures s.heap[p].status == Rejected ==>
              r.0.heap[p] == s.heap[p] && r.0.tasks == s.tasks + [RunHandler(OnRejectedOrRethrow(onRejected), s.heap[p].reason)]
  {
    var f := OnFulfilledOrIdentity(onFulfilled);
    var g := OnRejectedOrRethrow(onRejected);
    var src := s.heap[p];
    var s' := match src.status
      case Fulfilled => s.(tasks := s.tasks + [RunHandler(f, src.value)])
      case Rejected => s.(tasks := s.tasks + [RunHandler(g, src.reason)])
      case Pending =>
        s.(heap := s.heap[p := src.(onFulfilledCallback := src.onFulfilledCallback + [f],
                                    onRejectedCallback := src.onRejectedCallback + [g])]);
    Construct(s', Script([], Returns))
  }

  /** `callbacks.forEach(cb => cb!(payload))`: every callback is called in queue order with the
      payload, until one throws; the exception leaves `forEach`, so the later ones are not
      called. */
  function Calls(cbs: seq<Value -> Completion>, v: Value): (log: seq<Invocation>)
    ensures |log| <= |cbs|
  {
    if cbs == [] then []
    else
      var c := cbs[0](v);
      [Invocation(cbs[0], v, c)] + (if c.Threw? then [] else Calls(cbs[1..], v))
  }

  /** What `Calls` records: the first callbacks of the queue, each called with the payload,
      all returning but the last one, which is the first to throw if the queue was cut short. */
  lemma {:induction false} CallsInOrder(cbs: seq<Value -> Completion>, v: Value)
    ensures var log := Calls(cbs, v);
            && (forall k | 0 <= k < |log| :: log[k] == Invocation(cbs[k], v, cbs[k](v)))
            && (forall k | 0 <= k < |log| - 1 :: log[k].result.Returned?)
            && (|log| < |cbs| ==> log != [] && log[|log| - 1].result.Threw?)
  {
    if cbs != [] && cbs[0](v).Returned? {
      CallsInOrder(cbs[1..], v);
      var log := Calls(cbs, v);
      assert log == [Invocation(cbs[0], v, cbs[0](v))] + Calls(cbs[1..], v);
      forall k | 1 <= k < |log| ensures log[k] == Invocation(cbs[k], v, cbs[k](v)) {
        assert log[k] == Calls(cbs[1..], v)[k - 1] && cbs[1..][k - 1] == cbs[k];
      }
    }
  }

  /** The settle body of the draft: only while pending, set status and payload, then call
      the matching queue's callbacks. */
  function SettleBody(s: DraftState, p: PromiseId, fulfil: bool, v: Value): (after: DraftState)
    requires p < |s.heap|
  {
    var r := s.heap[p];
    if r.status != Pending then s
    else if fulfil then s.(heap := s.heap[p := r.(status := Fulfilled, value := v)], log := s.log + Calls(r.onFulfilledCallback, v))
    else s.(heap := s.heap[p := r.(status := Rejected, reason := v)], log := s.log + Calls(r.onRejectedCallback, v))
  }

  function RunTask(s: DraftState, t: DraftTask): (after: DraftState)
    requires TaskIn(t, |s.heap|)
  {
    match t
    case SettleFulfil(p, v) => SettleBody(s, p, true, v)
    case SettleReject(p, r) => SettleBody(s, p, false, r)
    case RunHandler(h, arg) => s.(log := s.log + [Invocation(h, arg, h(arg))])
  }

  function Step(s: DraftState): (after: DraftState)
    requires Valid(s)
  {
    if s.tasks == [] then s else RunTask(s.(tasks := s.tasks[1..]), s.tasks[0])
  }

  /** A settle body does nothing once the promise has settled. */
  lemma SettleOnlyWhilePending(s: DraftState, p: PromiseId, fulfil: bool, v: Value)
    requires p < |s.heap| && s.heap[p].status != Pending
    ensures SettleBody(s, p, fulfil, v) == s
  {
  }

  /** On a pending promise the body of `_resolve(v)` sets FULFILLED and `value`, then calls
      the queued fulfilment callbacks in order with `v`, up to and including the first one
      that throws; the body of `_reject(v)` is symmetric with REJECTED and `reason`. Nothing
      is scheduled and no other promise changes. */
  lemma SettleCallsInOrder(s: DraftState, p: PromiseId, fulfil: bool, v: Value)
    requires p < |s.heap| && s.heap[p].status == Pending
    ensures var r, t := s.heap[p], SettleBody(s, p, fulfil, v);
            && |t.heap| == |s.heap| && t.tasks == s.tasks
            && (forall q | 0 <= q < |s.heap| && q != p :: t.heap[q] == s.heap[q])
            && t.heap[p].onFulfilledCallback == r.onFulfilledCallback
            && t.heap[p].onRejectedCallback == r.onRejectedCallback
            && (fulfil ==> t.heap[p].status == Fulfilled && t.heap[p].value == v && t.heap[p].reason == r.reason)
            && (!fulfil ==> t.heap[p].status == Rejected && t.heap[p].reason == v && t.heap[p].value == r.value)
            && LogsCalls(s.log, t.log, if fulfil then r.onFulfilledCallback else r.onRejectedCallback, v)
  {
    var r := s.heap[p];
    var cbs := if fulfil then r.onFulfilledCallback else r.onRejectedCallback;
    AppendedCalls(s.log, cbs, v);
    assert SettleBody(s, p, fulfil, v).log == s.log + Calls(cbs, v);
  }

  /** `log` is `before` followed by the calls of `cbs` on `v`, in order, up to and including
      the first one that throws: one entry per callback called, at least one when `cbs` is
      not empty, every entry but the last returned, and the last threw when not all were
      called. */
  ghost predicate LogsCalls(before: seq<Invocation>, log: seq<Invocation>, cbs: seq<Value -> Completion>, v: Value) {
    && |before| <= |log| <= |before| + |cbs|
    && (cbs != [] ==> |before| < |log|)
    && log[..|before|] == before
    && (forall k | |before| <= k < |log| :: log[k] == Invocation(cbs[k - |before|], v, cbs[k - |before|](v)))
    && (forall k | |before| <= k < |log| - 1 :: log[k].result.Returned?)
    && (|log| < |before| + |cbs| ==> log[|log| - 1].result.Threw?)
  }

  lemma AppendedCalls(before: seq<Invocation>, cbs: seq<Value -> Completion>, v: Value)
    ensures LogsCalls(before, before + Calls(cbs, v), cbs, v)
  {
    var calls := Calls(cbs, v);
    var log := before + calls;
    CallsInOrder(cbs, v);
    assert forall k | |before| <= k < |log| :: log[k] == calls[k - |before|];
    if cbs != [] {
      assert calls != [];
    }
  }

  // ---------------------------------------------------------------------------
  // Runs of the draft

  /** What client code can do with the draft: construct, chain, call a resolve (when
      `fulfil`) or reject function that an executor handed out and kept, or let the timer
      queue take one turn. */
  datatype DraftOp =
    | NewPromise(exec: Script)
    | ThenOp(source: PromiseId, onFulfilled: Callback, onRejected: Callback)
    | Settle(promise: PromiseId, fulfil: bool, v: Value)
    | Tick

  /** No operation of `ops` calls a resolve or reject function of promise `q`. */
  predicate Spares(ops: seq<DraftOp>, q: PromiseId) {
    forall i | 0 <= i < |ops| :: !(ops[i].Settle? && ops[i].promise == q)
  }

  /** No scheduled settle body names promise `q`. */
  predicate Untargeted(s: DraftState, q: PromiseId) {
    forall i | 0 <= i < |s.tasks| :: !((s.tasks[i].SettleFulfil? || s.tasks[i].SettleReject?) && s.tasks[i].promise == q)
  }

  lemma ExecutorTasksTarget(p: PromiseId, calls: seq<Call>, i: nat)
    requires i < |calls|
    ensures ExecutorTasks(Settler(p), calls)[i].promise == p
    ensures TaskIn(ExecutorTasks(Settler(p), calls)[i], p + 1)
  {
  }

  lemma ConstructKeeps(s: DraftState, exec: Script, q: PromiseId)
    ensures Valid(s) ==> Valid(Construct(s, exec).0)
    ensures q < |s.heap| && Untargeted(s, q) ==> Untargeted(Construct(s, exec).0, q)
  {
    var (t, p) := Construct(s, exec);
    forall i | |s.tasks| <= i < |t.tasks| ensures t.tasks[i].promise == p && TaskIn(t.tasks[i], |t.heap|) {
      if i < |s.tasks| + |exec.calls| {
        assert t.tasks[i] == ExecutorTasks(Settler(p), exec.calls)[i - |s.tasks|];
        ExecutorTasksTarget(p, exec.calls, i - |s.tasks|);
      }
    }
    forall i | 0 <= i < |s.tasks| ensures t.tasks[i] == s.tasks[i] {
    }
  }

  /** One operation, skipped when it names a promise that does not exist. */
  function Apply(s: DraftState, op: DraftOp): (r: DraftState)
    requires Valid(s)
    ensures Valid(r) && |s.heap| <= |r.heap|
  {
    match op
    case NewPromise(exec) =>
      ConstructKeeps(s, exec, 0);
      Construct(s, exec).0
    case ThenOp(p, f, g) =>
      if p < |s.heap| then
        var r := Then(s, p, f, g);
        assert Valid(r.0) by {
          forall i | 0 <= i < |r.0.tasks| ensures TaskIn(r.0.tasks[i], |r.0.heap|) {
            if i < |s.tasks| {
              assert r.0.tasks[i] == s.tasks[i];
            }
          }
        }
        r.0
      else s
    case Settle(p, fulfil, v) =>
      if p < |s.heap| then
        var t := if fulfil then SettleFulfil(p, v) else SettleReject(p, v);
        assert TaskIn(t, |s.heap|);
        s.(tasks := s.tasks + [t])
      else s
    case Tick =>
      if s.tasks == [] then s
      else
        assert forall i | 0 <= i < |s.tasks| - 1 :: s.tasks[1..][i] == s.tasks[i + 1];
        Step(s)
  }

  function Run(s: DraftState, ops: seq<DraftOp>): (r: DraftState)
    requires Valid(s)
    ensures Valid(r) && |s.heap| <= |r.heap|
    decreases |ops|
  {
    if ops == [] then s else Run(Apply(s, ops[0]), ops[1..])
  }

  /** A pending promise that no scheduled settle body names stays so across any operation. */
  lemma ApplyKeepsPending(s: DraftState, op: DraftOp, q: PromiseId)
    requires Valid(s) && q < |s.heap| && s.heap[q].status == Pending && Untargeted(s, q)
    requires !(op.Settle? && op.promise == q)
    ensures q < |Apply(s, op).heap| && Apply(s, op).heap[q].status == Pending && Untargeted(Apply(s, op), q)
  {
    match op {
      case NewPromise(exec) => ConstructKeeps(s, exec, q);
      case ThenOp(p, f, g) =>
        if p < |s.heap| {
          var r := Then(s, p, f, g);
          forall i | 0 <= i < |r.0.tasks|
            ensures !((r.0.tasks[i].SettleFulfil? || r.0.tasks[i].SettleReject?) && r.0.tasks[i].promise == q)
          {
            if i < |s.tasks| {
              assert r.0.tasks[i] == s.tasks[i];
            }
          }
        }
      case Settle(p, fulfil, v) =>
      case Tick =>
        if s.tasks != [] {
          assert forall i | 0 <= i < |s.tasks| - 1 :: s.tasks[1..][i] == s.tasks[i + 1];
          assert !((s.tasks[0].SettleFulfil? || s.tasks[0].SettleReject?) && s.tasks[0].promise == q);
        }
    }
  }

  /** The promise the draft `then` returns stays pending forever, whatever happens next. Its
      executor `() => {}` drops its resolve/reject pair, so no code can call them: every run
      spares it. */
  lemma {:induction false} ThenResultNeverSettles(s: DraftState, p: PromiseId, onFulfilled: Callback, onRejected: Callback, ops: seq<DraftOp>)
    requires Valid(s) && p < |s.heap|
    ensures var (s1, q) := Then(s, p, onFulfilled, onRejected);
            && Valid(s1) && q < |Run(s1, ops).heap|
            && (Spares(ops, q) ==> Run(s1, ops).heap[q].status == Pending)
  {
    var (s1, q) := Then(s, p, onFulfilled, onRejected);
    assert Apply(s, ThenOp(p, onFulfilled, onRejected)) == s1;
    assert Untargeted(s1, q) by {
      forall i | 0 <= i < |s1.tasks|
        ensures !((s1.tasks[i].SettleFulfil? || s1.tasks[i].SettleReject?) && s1.tasks[i].promise == q)
      {
        if i < |s.tasks| {
          assert s1.tasks[i] == s.tasks[i];
        }
      }
    }
    if Spares(ops, q) {
      StaysPending(s1, ops, q);
    }
  }

  lemma {:induction false} StaysPending(s: DraftState, ops: seq<DraftOp>, q: PromiseId)
    requires Valid(s) && q < |s.heap| && s.heap[q].status == Pending && Untargeted(s, q) && Spares(ops, q)
    ensures q < |Run(s, ops).heap| && Run(s, ops).heap[q].status == Pending
    decreases |ops|
  {
    if ops != [] {
      ApplyKeepsPending(s, ops[0], q);
      assert forall i | 0 <= i < |ops| - 1 :: ops[1..][i] == ops[i + 1];
      StaysPending(Apply(s, ops[0]), ops[1..], q);
    }
  }
}
