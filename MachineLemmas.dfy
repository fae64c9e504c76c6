/** Properties of the index.js state machine: settlement happens once and is final, queues
    drain in order, the resolution procedure follows Promises/A+ section 2.3, and nothing
    but a settle body changes a promise's status. */
module MachineLemmas {
  import opened Values
  import opened Machine

  // ---------------------------------------------------------------------------
  // How states evolve

  /** A record after an operation that settles nothing: same status and payload, queues
      only appended to, and a settled record untouched. */
  ghost predicate RecordExtends(r: Record, r': Record) {
    && r'.status == r.status && r'.value == r.value && r'.reason == r.reason
    && r.onFulfilledCallback <= r'.onFulfilledCallback
    && r.onRejectedCallback <= r'.onRejectedCallback
    && (r.status != Pending ==> r' == r)
  }

  /** `t` is `s` after operations that only allocate promises, append waiters and append
      tasks; no promise changes state. */
  ghost predicate Extends(s: State, t: State) {
    && |s.heap| <= |t.heap|
    && s.tasks <= t.tasks
    && forall p | 0 <= p < |s.heap| :: RecordExtends(s.heap[p], t.heap[p])
  }

  /** A record after any number of steps: queues only appended to, and once settled it
      never changes again. */
  ghost predicate RecordGrows(r: Record, r': Record) {
    && r.onFulfilledCallback <= r'.onFulfilledCallback
    && r.onRejectedCallback <= r'.onRejectedCallback
    && (r.status != Pending ==> r' == r)
  }

  ghost predicate Grows(s: State, t: State) {
    && |s.heap| <= |t.heap|
    && forall p | 0 <= p < |s.heap| :: RecordGrows(s.heap[p], t.heap[p])
  }

  lemma ExtendsTrans(a: State, b: State, c: State)
    requires Extends(a, b) && Extends(b, c)
    ensures Extends(a, c)
  {
    forall p | 0 <= p < |a.heap| ensures RecordExtends(a.heap[p], c.heap[p]) {
      assert RecordExtends(a.heap[p], b.heap[p]) && RecordExtends(b.heap[p], c.heap[p]);
    }
  }

  lemma GrowsTrans(a: State, b: State, c: State)
    requires Grows(a, b) && Grows(b, c)
    ensures Grows(a, c)
  {
    forall p | 0 <= p < |a.heap| ensures RecordGrows(a.heap[p], c.heap[p]) {
      assert RecordGrows(a.heap[p], b.heap[p]) && RecordGrows(b.heap[p], c.heap[p]);
    }
  }

  lemma ExtendsGrows(s: State, t: State)
    requires Extends(s, t)
    ensures Grows(s, t)
  {
    forall p | 0 <= p < |s.heap| ensures RecordGrows(s.heap[p], t.heap[p]) {
      assert RecordExtends(s.heap[p], t.heap[p]);
    }
  }

  // ---------------------------------------------------------------------------
  // Operations that settle nothing

  lemma ScheduleExtends(s: State, t: Task)
    ensures Extends(s, s.(tasks := s.tasks + [t]))
    ensures Valid(s) && TaskIn(t, |s.heap|) ==> Valid(s.(tasks := s.tasks + [t]))
  {
  }

  lemma RecordInMono(r: Record, n: nat, m: nat)
    requires RecordIn(r, n) && n <= m
    ensures RecordIn(r, m)
  {
  }

  /** `then` settles nothing and keeps the heap well formed. */
  lemma ThenWithExtends(s: State, p: PromiseId, onFulfilled: Handler, onRejected: Handler)
    requires p < |s.heap|
    ensures Extends(s, ThenWith(s, p, onFulfilled, onRejected).0)
    ensures Valid(s) && HandlerIn(onFulfilled, |s.heap|) && HandlerIn(onRejected, |s.heap|) ==>
              Valid(ThenWith(s, p, onFulfilled, onRejected).0)
  {
    var (t, p2) := ThenWith(s, p, onFulfilled, onRejected);
    forall q | 0 <= q < |s.heap| ensures RecordExtends(s.heap[q], t.heap[q]) {
    }
    if Valid(s) && HandlerIn(onFulfilled, |s.heap|) && HandlerIn(onRejected, |s.heap|) {
      forall q | 0 <= q < |t.heap| ensures RecordIn(t.heap[q], |t.heap|) {
        if q < |s.heap| && q != p {
          RecordInMono(s.heap[q], |s.heap|, |t.heap|);
        } else if q == p {
          RecordInMono(s.heap[q], |s.heap|, |t.heap|);
        }
      }
    }
  }

  /** The constructor settles nothing, and only schedules settle bodies of the new promise. */
  lemma ConstructExtends(s: State, exec: Script)
    ensures Extends(s, Construct(s, exec).0)
    ensures Valid(s) ==> Valid(Construct(s, exec).0)
  {
    var (t, p) := Construct(s, exec);
    forall q | 0 <= q < |s.heap| ensures RecordExtends(s.heap[q], t.heap[q]) {
    }
    if Valid(s) {
      forall q | 0 <= q < |t.heap| ensures RecordIn(t.heap[q], |t.heap|) {
        if q < |s.heap| {
          RecordInMono(s.heap[q], |s.heap|, |t.heap|);
        }
      }
      forall i | 0 <= i < |t.tasks| ensures TaskIn(t.tasks[i], |t.heap|) {
        if i < |s.tasks| {
          assert t.tasks[i] == s.tasks[i];
        }
      }
    }
  }

  /** The resolution procedure never settles a promise synchronously: it only allocates,
      subscribes and schedules. */
  lemma {:induction false} ResolvePromiseExtends(s: State, p2: PromiseId, x: Value)
    ensures Extends(s, ResolvePromise(s, p2, x))
    ensures Valid(s) && p2 < |s.heap| ==> Valid(ResolvePromise(s, p2, x))
    decreases Size(x)
  {
    if x == Own(p2) {
      ScheduleExtends(s, SettleReject(p2, ChainingCycleError));
    } else {
      match x
      case Own(id) =>
        if id < |s.heap| {
          var r := s.heap[id];
          match r.status {
            case Pending => ThenWithExtends(s, id, AdoptInto(p2), RejectInto(p2));
            case Fulfilled => ScheduleExtends(s, SettleFulfil(p2, r.value));
            case Rejected => ScheduleExtends(s, SettleReject(p2, r.reason));
          }
        } else {
          ScheduleExtends(s, SettleFulfil(p2, x));
        }
      case Obj(_, member) =>
        match member {
          case GetterThrows(e) => ScheduleExtends(s, SettleReject(p2, e));
          case Callable(script) => RunThenableExtends(s, p2, script.calls, script.ending, false);
          case NotCallable => ScheduleExtends(s, SettleFulfil(p2, x));
        }
      case ChainingCycleError => ScheduleExtends(s, SettleFulfil(p2, x));
      case Undefined => ScheduleExtends(s, SettleFulfil(p2, x));
      case Null => ScheduleExtends(s, SettleFulfil(p2, x));
      case Prim(_) => ScheduleExtends(s, SettleFulfil(p2, x));
    }
  }

  lemma {:induction false} RunThenableExtends(s: State, p2: PromiseId, calls: seq<Call>, ending: Ending, called: bool)
    ensures Extends(s, RunThenable(s, p2, calls, ending, called))
    ensures Valid(s) && p2 < |s.heap| ==> Valid(RunThenable(s, p2, calls, ending, called))
    decreases CallsSize(calls)
  {
    if calls == [] {
      if ending.Throws? && !called {
        ScheduleExtends(s, SettleReject(p2, ending.error));
      }
    } else {
      ArgSmaller(calls, 0);
      if called {
        RunThenableExtends(s, p2, calls[1..], ending, true);
      } else {
        var s1 := match calls[0]
          case CallResolve(y) => ResolvePromise(s, p2, y)
          case CallReject(r) => ScheduleReject(s, p2, r);
        match calls[0] {
          case CallResolve(y) => ResolvePromiseExtends(s, p2, y);
          case CallReject(r) => ScheduleExtends(s, SettleReject(p2, r));
        }
        RunThenableExtends(s1, p2, calls[1..], ending, true);
        ExtendsTrans(s, s1, RunThenable(s1, p2, calls[1..], ending, true));
      }
    }
  }

  // ---------------------------------------------------------------------------
  // The scheduled bodies

  /** A settle body changes only its own promise, and drained waiters stay well formed. */
  lemma SettleBodyGrows(s: State, p: PromiseId, fulfil: bool, v: Value)
    requires Valid(s) && p < |s.heap|
    ensures Valid(SettleBody(s, p, fulfil, v)) && Grows(s, SettleBody(s, p, fulfil, v))
    ensures forall q | 0 <= q < |s.heap| && q != p :: SettleBody(s, p, fulfil, v).heap[q] == s.heap[q]
  {
    var r := s.heap[p];
    var t := SettleBody(s, p, fulfil, v);
    if r.status == Pending {
      var ws := if fulfil then r.onFulfilledCallback else r.onRejectedCallback;
      assert t.tasks == s.tasks + Drain(ws, v);
      forall i | 0 <= i < |t.tasks| ensures TaskIn(t.tasks[i], |t.heap|) {
        if i >= |s.tasks| {
          assert WaiterIn(ws[i - |s.tasks|], |s.heap|);
        }
      }
      assert RecordIn(t.heap[p], |t.heap|) by {
        assert RecordIn(r, |s.heap|);
      }
    }
  }

  /** Running a handler body settles nothing: it only subscribes and schedules. */
  lemma HandlerBodyExtends(s: State, p2: PromiseId, h: Handler, arg: Value)
    requires Valid(s) && p2 < |s.heap| && HandlerIn(h, |s.heap|)
    ensures Valid(HandlerBody(s, p2, h, arg)) && Extends(s, HandlerBody(s, p2, h, arg))
  {
    var (s1, c) := Invoke(s, h, arg);
    match h {
      case Call(_) =>
      case AdoptInto(t) => ResolvePromiseExtends(s, t, arg);
      case RejectInto(t) => ScheduleExtends(s, SettleReject(t, arg));
    }
    assert Extends(s, s1) && Valid(s1);
    var s2 := HandlerBody(s, p2, h, arg);
    match c {
      case Returned(x) => ResolvePromiseExtends(s1, p2, x);
      case Threw(e) => ScheduleExtends(s1, SettleReject(p2, e));
    }
    ExtendsTrans(s, s1, s2);
  }

  /** One turn of the timer queue keeps the state well formed, never changes a settled
      promise, changes the status of at most the promise whose settle body ran, and keeps
      the tasks still waiting first in line, in their order, ahead of any it schedules. */
  lemma StepGrows(s: State)
    requires Valid(s)
    ensures Valid(Step(s)) && Grows(s, Step(s))
    ensures s.tasks != [] ==> s.tasks[1..] <= Step(s).tasks
    ensures forall q | 0 <= q < |s.heap| && Step(s).heap[q].status != s.heap[q].status ::
              (s.tasks[0].SettleFulfil? || s.tasks[0].SettleReject?) && s.tasks[0].promise == q
  {
    if s.tasks != [] {
      var s0 := s.(tasks := s.tasks[1..]);
      assert Valid(s0) by {
        forall i | 0 <= i < |s0.tasks| ensures TaskIn(s0.tasks[i], |s0.heap|) {
          assert s0.tasks[i] == s.tasks[i + 1];
        }
      }
      assert TaskIn(s.tasks[0], |s.heap|);
      match s.tasks[0] {
        case SettleFulfil(p, v) => SettleBodyGrows(s0, p, true, v);
        case SettleReject(p, r) => SettleBodyGrows(s0, p, false, r);
        case RunHandler(p2, h, arg) =>
          HandlerBodyExtends(s0, p2, h, arg);
          ExtendsGrows(s0, Step(s));
      }
    }
  }

  /** A settle body does nothing once the promise has settled: a later `_resolve` or
      `_reject` is a no-op. */
  lemma SettleOnlyWhilePending(s: State, p: PromiseId, fulfil: bool, v: Value)
    requires p < |s.heap| && s.heap[p].status != Pending
    ensures SettleBody(s, p, fulfil, v) == s
  {
  }

  /** On a pending promise the body of `_resolve(v)` sets FULFILLED and `value`, keeps the
      queues, and schedules each queued fulfilment waiter's handler once, in queue order,
      with `v`; the body of `_reject(v)` is symmetric with REJECTED and `reason`. */
  lemma SettleDrainsInOrder(s: State, p: PromiseId, fulfil: bool, v: Value)
    requires p < |s.heap| && s.heap[p].status == Pending
    ensures var r, t := s.heap[p], SettleBody(s, p, fulfil, v);
            && |t.heap| == |s.heap|
            && (forall q | 0 <= q < |s.heap| && q != p :: t.heap[q] == s.heap[q])
            && t.heap[p].onFulfilledCallback == r.onFulfilledCallback
            && t.heap[p].onRejectedCallback == r.onRejectedCallback
            && (fulfil ==> t.heap[p].status == Fulfilled && t.heap[p].value == v && t.heap[p].reason == r.reason)
            && (!fulfil ==> t.heap[p].status == Rejected && t.heap[p].reason == v && t.heap[p].value == r.value)
            && var ws := if fulfil then r.onFulfilledCallback else r.onRejectedCallback;
               && |t.tasks| == |s.tasks| + |ws|
               && t.tasks[..|s.tasks|] == s.tasks
               && forall k | 0 <= k < |ws| :: t.tasks[|s.tasks| + k] == RunHandler(ws[k].promise2, ws[k].handler, v)
  {
  }

  /** A handler that throws rejects promise2 with the thrown value; one that returns feeds
      its result to the resolution procedure. */
  lemma HandlerOutcome(s: State, p2: PromiseId, f: Value -> Completion, arg: Value)
    requires p2 < |s.heap|
    ensures f(arg).Returned? ==> RunTask(s, RunHandler(p2, Call(f), arg)) == ResolvePromise(s, p2, f(arg).value)
    ensures f(arg).Threw? ==> RunTask(s, RunHandler(p2, Call(f), arg)) == ScheduleReject(s, p2, f(arg).error)
  {
  }

  /** Handler-less `then` passes values and rejections through: the default onFulfilled
      hands the value to the resolution procedure, the default onRejected rejects
      promise2 with the same reason. */
  lemma DefaultsPassThrough(s: State, p2: PromiseId, v: Value)
    requires p2 < |s.heap|
    ensures RunTask(s, RunHandler(p2, Call(OnFulfilledOrIdentity(NotFn)), v)) == ResolvePromise(s, p2, v)
    ensures RunTask(s, RunHandler(p2, Call(OnRejectedOrRethrow(NotFn)), v)) == ScheduleReject(s, p2, v)
  {
  }

  // ---------------------------------------------------------------------------
  // The resolution procedure, case by case (Promises/A+ section 2.3)

  /** Section 2.3.1: resolving promise2 with itself rejects it with a TypeError. */
  lemma ResolveCycle(s: State, p2: PromiseId)
    ensures ResolvePromise(s, p2, Own(p2)) == ScheduleReject(s, p2, ChainingCycleError)
  {
  }

  /** Section 2.3.2: a settled MyPromise hands its value or reason to promise2. */
  lemma ResolveAdoptsSettled(s: State, p2: PromiseId, id: PromiseId)
    requires id != p2 && id < |s.heap| && s.heap[id].status != Pending
    ensures ResolvePromise(s, p2, Own(id)) ==
              if s.heap[id].status == Fulfilled then ScheduleResolve(s, p2, s.heap[id].value)
              else ScheduleReject(s, p2, s.heap[id].reason)
  {
  }

  /** Section 2.3.2.1: a pending MyPromise gets one waiter on each queue, re-running the
      resolution procedure on its value and forwarding its reason to promise2. */
  lemma ResolveAdoptsPending(s: State, p2: PromiseId, id: PromiseId)
    requires id != p2 && id < |s.heap| && s.heap[id].status == Pending
    ensures var t, p3 := ResolvePromise(s, p2, Own(id)), |s.heap|;
            && t.tasks == s.tasks
            && |t.heap| == |s.heap| + 1 && t.heap[p3] == Fresh
            && t.heap[id].onFulfilledCallback == s.heap[id].onFulfilledCallback + [Waiter(p3, AdoptInto(p2))]
            && t.heap[id].onRejectedCallback == s.heap[id].onRejectedCallback + [Waiter(p3, RejectInto(p2))]
  {
  }

  /** What those two waiters' handlers do once the adopted promise settles: the value goes
      back into the resolution procedure of promise2, the reason rejects promise2, and the
      promise the inner `then` created is fulfilled with `undefined`. */
  lemma AdoptionForwards(s: State, p3: PromiseId, p2: PromiseId, v: Value)
    requires p3 != p2 && p3 < |s.heap| && p2 < |s.heap|
    ensures RunTask(s, RunHandler(p3, AdoptInto(p2), v)) == ScheduleResolve(ResolvePromise(s, p2, v), p3, Undefined)
    ensures RunTask(s, RunHandler(p3, RejectInto(p2), v)) == ScheduleResolve(ScheduleReject(s, p2, v), p3, Undefined)
  {
  }

  /** Section 2.3.3.2: if reading `x.then` throws, promise2 is rejected with the error. */
  lemma ResolveGetterThrows(s: State, p2: PromiseId, id: nat, e: Value)
    ensures ResolvePromise(s, p2, Obj(id, GetterThrows(e))) == ScheduleReject(s, p2, e)
  {
  }

  /** Sections 2.3.3.4 and 2.3.4: an object whose `then` is not a function, and every
      primitive, `null` and `undefined`, fulfils promise2 with `x` itself. */
  lemma ResolvePlainValue(s: State, p2: PromiseId, x: Value)
    requires x.Undefined? || x.Null? || x.Prim? || x.ChainingCycleError? || (x.Obj? && x.thenMember.NotCallable?)
    ensures ResolvePromise(s, p2, x) == ScheduleResolve(s, p2, x)
  {
  }

  /** Once `called_1` is set, nothing the thenable does has any effect. */
  lemma {:induction false} CalledThenableInert(s: State, p2: PromiseId, calls: seq<Call>, ending: Ending)
    ensures RunThenable(s, p2, calls, ending, true) == s
    decreases |calls|
  {
    if calls != [] {
      CalledThenableInert(s, p2, calls[1..], ending);
    }
  }

  /** Section 2.3.3.3: of the thenable's calls to the resolve callback, the reject callback
      and a synchronous throw, only the first has an effect; a throw after a call is
      ignored, and a `then` that calls nothing and returns leaves promise2 untouched. */
  lemma ThenableFirstCallWins(s: State, p2: PromiseId, id: nat, script: Script)
    ensures ResolvePromise(s, p2, Obj(id, Callable(script))) ==
              if script.calls == [] then
                (if script.ending.Throws? then ScheduleReject(s, p2, script.ending.error) else s)
              else if script.calls[0].CallResolve? then ResolvePromise(s, p2, script.calls[0].arg)
              else ScheduleReject(s, p2, script.calls[0].arg)
  {
    var calls, ending := script.calls, script.ending;
    if calls != [] {
      match calls[0] {
        case CallResolve(y) => CalledThenableInert(ResolvePromise(s, p2, y), p2, calls[1..], ending);
        case CallReject(r) => CalledThenableInert(ScheduleReject(s, p2, r), p2, calls[1..], ending);
      }
    }
  }

  // ---------------------------------------------------------------------------
  // Any run of the public operations

  /** What client code can do: construct, chain, take a deferred, call a resolve or reject
      function it holds, or let the timer queue take one turn. */
  datatype Op =
    | NewPromise(exec: Script)
    | ThenOp(source: PromiseId, onFulfilled: Callback, onRejected: Callback)
    | NewDeferred
    | Settle(capability: Capability, v: Value)
    | Tick

  /** One operation; an operation that names a promise that does not exist is skipped. */
  function Apply(s: State, op: Op): (r: State)
    requires Valid(s)
    ensures Valid(r) && Grows(s, r)
    ensures !op.Tick? ==> Extends(s, r)
  {
    match op
    case NewPromise(exec) =>
      ConstructExtends(s, exec);
      ExtendsGrows(s, Construct(s, exec).0);
      Construct(s, exec).0
    case ThenOp(p, onFulfilled, onRejected) =>
      if p < |s.heap| then
        ThenWithExtends(s, p, Call(OnFulfilledOrIdentity(onFulfilled)), Call(OnRejectedOrRethrow(onRejected)));
        ExtendsGrows(s, Then(s, p, onFulfilled, onRejected).0);
        Then(s, p, onFulfilled, onRejected).0
      else
        ExtendsGrows(s, s);
        s
    case NewDeferred =>
      ConstructExtends(s, Script([], Returns));
      ExtendsGrows(s, MakeDeferred(s).0);
      MakeDeferred(s).0
    case Settle(c, v) =>
      if c.promise < |s.heap| then
        ScheduleExtends(s, if c.ResolveOf? then SettleFulfil(c.promise, v) else SettleReject(c.promise, v));
        ExtendsGrows(s, CallCapability(s, c, v));
        CallCapability(s, c, v)
      else
        ExtendsGrows(s, s);
        s
    case Tick =>
      StepGrows(s);
      Step(s)
  }

  /** A sequence of operations, first to last. */
  function Run(s: State, ops: seq<Op>): (r: State)
    requires Valid(s)
    ensures Valid(r) && Grows(s, r)
    decreases |ops|
  {
    if ops == [] then
      ExtendsGrows(s, s);
      s
    else
      var s1 := Apply(s, ops[0]);
      var r := Run(s1, ops[1..]);
      GrowsTrans(s, s1, r);
      r
  }

  /** Settlement is final: whatever any later code or scheduled task does, a settled promise
      keeps its status, its payload and its queues. */
  lemma SettlementIsFinal(s: State, ops: seq<Op>, p: PromiseId)
    requires Valid(s) && p < |s.heap| && s.heap[p].status != Pending
    ensures p < |Run(s, ops).heap| && Run(s, ops).heap[p] == s.heap[p]
  {
    assert RecordGrows(s.heap[p], Run(s, ops).heap[p]);
  }

  /** Whatever runs, a pending promise carries neither value nor reason, a fulfilled one no
      reason and a rejected one no value. */
  lemma PayloadMatchesStatus(s: State, ops: seq<Op>, p: PromiseId)
    requires Valid(s) && p < |Run(s, ops).heap|
    ensures var r := Run(s, ops).heap[p];
            && (r.status == Pending ==> r.value == Undefined && r.reason == Undefined)
            && (r.status == Fulfilled ==> r.reason == Undefined)
            && (r.status == Rejected ==> r.value == Undefined)
  {
    assert RecordIn(Run(s, ops).heap[p], |Run(s, ops).heap|);
  }
}
