/** The MyPromise state machine of index.js as functions on an explicit state: a heap of
    promise records and the FIFO queue of callbacks handed to `setTimeout`. */
module Machine {
  import opened Values

  /** A function that `then` registers or that a scheduled task calls: a user function (or
      one of the defaults `then` puts in place of a missing one), or one of the two functions
      the resolution procedure hands to `x.then` when it adopts a pending MyPromise `x`. */
  datatype Handler =
    | Call(f: Value -> Completion)
      /** `function (res) { resolvePromise(promise2, res, resolve, reject) }` */
    | AdoptInto(target: PromiseId)
      /** `reject`, the reject capability of `promise2` */
    | RejectInto(target: PromiseId)

  /** A closure that `then` on a pending promise pushes onto a callback queue: when called,
      it schedules `handler` against `promise2`. */
  datatype Waiter = Waiter(promise2: PromiseId, handler: Handler)

  /** The fields of one MyPromise. */
  datatype Record = Record(status: Status, value: Value, reason: Value,
                           onFulfilledCallback: seq<Waiter>, onRejectedCallback: seq<Waiter>)

  /** A freshly constructed MyPromise. */
  const Fresh: Record := Record(Pending, Undefined, Undefined, [], [])

  /** A callback handed to `setTimeout`. */
  datatype Task =
      /** the body scheduled by `_resolve(value)` */
    | SettleFulfil(promise: PromiseId, value: Value)
      /** the body scheduled by `_reject(reason)` */
    | SettleReject(promise: PromiseId, reason: Value)
      /** the body `then` schedules: call `handler` on `arg` and resolve `promise2` from it */
    | RunHandler(promise2: PromiseId, handler: Handler, arg: Value)

  /** All promises created so far, and the timer queue (run front first). */
  datatype State = State(heap: seq<Record>, tasks: seq<Task>)

  const Empty: State := State([], [])

  // ---------------------------------------------------------------------------
  // Well-formedness: every promise named by the heap or the queue exists.

  predicate HandlerIn(h: Handler, n: nat) {
    match h
    case Call(_) => true
    case AdoptInto(t) => t < n
    case RejectInto(t) => t < n
  }

  predicate WaiterIn(w: Waiter, n: nat) {
    w.promise2 < n && HandlerIn(w.handler, n)
  }

  predicate TaskIn(t: Task, n: nat) {
    match t
    case SettleFulfil(p, _) => p < n
    case SettleReject(p, _) => p < n
    case RunHandler(p2, h, _) => p2 < n && HandlerIn(h, n)
  }

  /** At most one of `value` and `reason` is set, and only by the matching transition. */
  predicate PayloadFits(r: Record) {
    && (r.status == Pending ==> r.value == Undefined && r.reason == Undefined)
    && (r.status == Fulfilled ==> r.reason == Undefined)
    && (r.status == Rejected ==> r.value == Undefined)
  }

  /** A record in a heap of `n` promises: its waiters name existing promises and its payload
      fits its status. */
  predicate RecordIn(r: Record, n: nat) {
    && PayloadFits(r)
    && (forall i | 0 <= i < |r.onFulfilledCallback| :: WaiterIn(r.onFulfilledCallback[i], n))
    && (forall i | 0 <= i < |r.onRejectedCallback| :: WaiterIn(r.onRejectedCallback[i], n))
  }

  predicate Valid(s: State) {
    && (forall p | 0 <= p < |s.heap| :: RecordIn(s.heap[p], |s.heap|))
    && (forall i | 0 <= i < |s.tasks| :: TaskIn(s.tasks[i], |s.heap|))
  }

  // ---------------------------------------------------------------------------
  // _resolve, _reject and the constructor

  /** `_resolve(value)`: schedules the settle body; nothing changes now. */
  function ScheduleResolve(s: State, p: PromiseId, v: Value): (after: State)
    ensures after.heap == s.heap && after.tasks == s.tasks + [SettleFulfil(p, v)]
  {
    s.(tasks := s.tasks + [SettleFulfil(p, v)])
  }

  /** `_reject(reason)`: schedules the settle body; nothing changes now. */
  function ScheduleReject(s: State, p: PromiseId, r: Value): (after: State)
    ensures after.heap == s.heap && after.tasks == s.tasks + [SettleReject(p, r)]
  {
    s.(tasks := s.tasks + [SettleReject(p, r)])
  }

  /** The task a call on a promise's own resolve/reject pair schedules. */
  function SettleTask(p: PromiseId, c: Call): (t: Task)
    ensures (t.SettleFulfil? || t.SettleReject?) && t.promise == p
    ensures t.SettleFulfil? <==> c.CallResolve?
    ensures if t.SettleFulfil? then t.value == c.arg else t.reason == c.arg
  {
    match c
    case CallResolve(v) => SettleFulfil(p, v)
    case CallReject(r) => SettleReject(p, r)
  }

  /** The settle task of each call on promise `p`'s own resolve/reject pair. */
  function Settler(p: PromiseId): (settle: Call -> Task) {
    c => SettleTask(p, c)
  }

  /** The constructor `new MyPromise(fn)`: a fresh pending promise; `fn` runs at once with the
      promise's own resolve/reject pair; if `fn` throws, the exception is not propagated but
      handed to `_reject`, after whatever `fn` had already scheduled. */
  function Construct(s: State, exec: Script): (r: (State, PromiseId))
    ensures r.1 == |s.heap| && r.0.heap == s.heap + [Fresh]
    ensures r.0.tasks == s.tasks + ExecutorTasks(Settler(r.1), exec.calls)
                         + (if exec.ending.Throws? then [SettleReject(r.1, exec.ending.error)] else [])
  {
    var p := |s.heap|;
    var thrown := if exec.ending.Throws? then [SettleReject(p, exec.ending.error)] else [];
    (State(s.heap + [Fresh], s.tasks + ExecutorTasks(Settler(p), exec.calls) + thrown), p)
  }

  // ---------------------------------------------------------------------------
  // then

  /** `then` once its arguments are functions: promise2 is a fresh pending promise; a pending
      source gets one waiter on each queue, a settled source keeps its queues and the handler
      for its outcome is scheduled at once. */
  function ThenWith(s: State, p: PromiseId, onFulfilled: Handler, onRejected: Handler): (r: (State, PromiseId))
    requires p < |s.heap|
    ensures r.1 == |s.heap| && |r.0.heap| == |s.heap| + 1 && r.0.heap[r.1] == Fresh
    ensures forall q | 0 <= q < |s.heap| && q != p :: r.0.heap[q] == s.heap[q]
    ensures s.heap[p].status == Pending ==>
              && r.0.tasks == s.tasks
              && r.0.heap[p] == s.heap[p].(onFulfilledCallback := s.heap[p].onFulfilledCallback + [Waiter(r.1, onFulfilled)],
                                           onRejectedCallback := s.heap[p].onRejectedCallback + [Waiter(r.1, onRejected)])
    ensures s.heap[p].status == Fulfilled ==>
              r.0.heap[p] == s.heap[p] && r.0.tasks == s.tasks + [RunHandler(r.1, onFulfilled, s.heap[p].value)]
    ensures s.heap[p].status == Rejected ==>
              r.0.heap[p] == s.heap[p] && r.0.tasks == s.tasks + [RunHandler(r.1, onRejected, s.heap[p].reason)]
  {
    var p2 := |s.heap|;
    var src := s.heap[p];
    var heap := s.heap + [Fresh];
    match src.status
    case Fulfilled => (State(heap, s.tasks + [RunHandler(p2, onFulfilled, src.value)]), p2)
    case Rejected => (State(heap, s.tasks + [RunHandler(p2, onRejected, src.reason)]), p2)
    case Pending =>
      var src' := src.(onFulfilledCallback := src.onFulfilledCallback + [Waiter(p2, onFulfilled)],
                       onRejectedCallback := src.onRejectedCallback + [Waiter(p2, onRejected)]);
      (State(heap[p := src'], s.tasks), p2)
  }

  /** `promise.then(onFulfilled, onRejected)`: a non-function `onFulfilled` becomes the
      identity and a non-function `onRejected` a function that rethrows its argument. */
  function Then(s: State, p: PromiseId, onFulfilled: Callback, onRejected: Callback): (r: (State, PromiseId))
    requires p < |s.heap|
  {
    ThenWith(s, p, Call(OnFulfilledOrIdentity(onFulfilled)), Call(OnRejectedOrRethrow(onRejected)))
  }

  // ---------------------------------------------------------------------------
  // resolvePromise

  /** `resolvePromise(promise2, x, resolve, reject)`: decides how `promise2` settles from `x`.
      It never settles anything itself; it schedules `_resolve`/`_reject` of `promise2` or
      subscribes to a pending MyPromise. */
  function ResolvePromise(s: State, p2: PromiseId, x: Value): (after: State)
    decreases Size(x)
  {
    if x == Own(p2) then
      ScheduleReject(s, p2, ChainingCycleError)
    else
      match x
      case Own(id) =>
        if id < |s.heap| then
          var r := s.heap[id];
          (match r.status
           case Pending => ThenWith(s, id, AdoptInto(p2), RejectInto(p2)).0
           case Fulfilled => ScheduleResolve(s, p2, r.value)
           case Rejected => ScheduleReject(s, p2, r.reason))
        else
          // not an allocated promise: cannot arise; treated as a plain value
          ScheduleResolve(s, p2, x)
      case Obj(_, member) =>
        (match member
         case GetterThrows(e) => ScheduleReject(s, p2, e)
         case Callable(script) => RunThenable(s, p2, script.calls, script.ending, false)
         case NotCallable => ScheduleResolve(s, p2, x))
      case ChainingCycleError =>
        // an object whose `then` is undefined
        ScheduleResolve(s, p2, x)
      case _ =>
        ScheduleResolve(s, p2, x)
  }

  /** `then.call(x, resolveCb, rejectCb)` on a foreign thenable whose `then` makes `calls` and
      then ends with `ending`; `called` is the shared `called_1` flag: only the first of the
      two callbacks or a synchronous throw has an effect. */
  function RunThenable(s: State, p2: PromiseId, calls: seq<Call>, ending: Ending, called: bool): (after: State)
    decreases CallsSize(calls)
  {
    if calls == [] then
      if ending.Throws? && !called then ScheduleReject(s, p2, ending.error) else s
    else if called then
      RunThenable(s, p2, calls[1..], ending, true)
    else
      match calls[0]
      case CallResolve(y) =>
        ArgSmaller(calls, 0);
        RunThenable(ResolvePromise(s, p2, y), p2, calls[1..], ending, true)
      case CallReject(r) => RunThenable(ScheduleReject(s, p2, r), p2, calls[1..], ending, true)
  }

  // ---------------------------------------------------------------------------
  // The scheduled bodies

  /** What calling handler `h` on `arg` does and returns. The two functions the resolution
      procedure subscribes with return `undefined`. */
  function Invoke(s: State, h: Handler, arg: Value): (r: (State, Completion))
  {
    match h
    case Call(f) => (s, f(arg))
    case AdoptInto(t) => (ResolvePromise(s, t, arg), Returned(Undefined))
    case RejectInto(t) => (ScheduleReject(s, t, arg), Returned(Undefined))
  }

  /** The body `then` schedules: a returned value goes through the resolution procedure, a
      thrown one rejects `promise2`. */
  function HandlerBody(s: State, p2: PromiseId, h: Handler, arg: Value): (after: State)
  {
    var (s', c) := Invoke(s, h, arg);
    match c
    case Returned(x) => ResolvePromise(s', p2, x)
    case Threw(e) => ScheduleReject(s', p2, e)
  }

  /** What draining a callback queue with payload `v` schedules: each waiter, called in
      queue order, schedules its handler against the payload. */
  function Drain(ws: seq<Waiter>, v: Value): (ts: seq<Task>)
    ensures |ts| == |ws|
    ensures forall k | 0 <= k < |ws| :: ts[k] == RunHandler(ws[k].promise2, ws[k].handler, v)
  {
    if ws == [] then [] else [RunHandler(ws[0].promise2, ws[0].handler, v)] + Drain(ws[1..], v)
  }

  /** The body scheduled by `_resolve(v)` (when `fulfil`) or `_reject(v)`: acts only while
      the promise is pending; then sets the status and payload and drains the matching queue. */
  function SettleBody(s: State, p: PromiseId, fulfil: bool, v: Value): (after: State)
    requires p < |s.heap|
  {
    var r := s.heap[p];
    if r.status != Pending then s
    else if fulfil then State(s.heap[p := r.(status := Fulfilled, value := v)], s.tasks + Drain(r.onFulfilledCallback, v))
    else State(s.heap[p := r.(status := Rejected, reason := v)], s.tasks + Drain(r.onRejectedCallback, v))
  }

  function RunTask(s: State, t: Task): (after: State)
    requires TaskIn(t, |s.heap|)
  {
    match t
    case SettleFulfil(p, v) => SettleBody(s, p, true, v)
    case SettleReject(p, r) => SettleBody(s, p, false, r)
    case RunHandler(p2, h, arg) => HandlerBody(s, p2, h, arg)
  }

  /** One turn of the timer queue: the oldest task is removed and run. */
  function Step(s: State): (after: State)
    requires Valid(s)
  {
    if s.tasks == [] then s else RunTask(s.(tasks := s.tasks[1..]), s.tasks[0])
  }

  // ---------------------------------------------------------------------------
  // deferred

  /** A resolve or reject function bound to one promise. */
  datatype Capability = ResolveOf(promise: PromiseId) | RejectOf(promise: PromiseId)

  /** The record `MyPromise.deferred()` returns. */
  datatype Deferred = Deferred(promise: PromiseId, resolve: Capability, reject: Capability)

  function CallCapability(s: State, c: Capability, v: Value): (after: State) {
    match c
    case ResolveOf(p) => ScheduleResolve(s, p, v)
    case RejectOf(p) => ScheduleReject(s, p, v)
  }

  /** `MyPromise.deferred()`: a fresh promise whose executor hands out its resolve/reject pair
      and calls neither. */
  function MakeDeferred(s: State): (r: (State, Deferred))
    ensures r.1.promise == |s.heap| && r.0 == State(s.heap + [Fresh], s.tasks)
    ensures r.1.resolve == ResolveOf(r.1.promise) && r.1.reject == RejectOf(r.1.promise)
  {
    var (s', p) := Construct(s, Script([], Returns));
    (s', Deferred(p, ResolveOf(p), RejectOf(p)))
  }
}
