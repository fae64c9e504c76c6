/** MyPromise of index.js as mutable state: the promise records and the timer queue are
    fields that the methods update in place, as the constructor, `_resolve`, `_reject`,
    `then` and `resolvePromise` do. Each method is proved to do exactly what the matching
    function of Machine describes, so the properties proved in MachineLemmas hold of it. */
module Runtime {
  import opened Values
  import opened Machine
  import MachineLemmas

  class PromiseRuntime {
    /** every MyPromise created so far, by id */
    var heap: seq<Record>
    /** the callbacks handed to `setTimeout`, oldest first */
    var tasks: seq<Task>

    function Snapshot(): State
      reads this
    {
      State(heap, tasks)
    }

    ghost predicate Valid()
      reads this
    {
      Machine.Valid(Snapshot())
    }

    constructor ()
      ensures Snapshot() == Empty && Valid()
    {
      heap := [];
      tasks := [];
    }

    /** `_resolve(value)`: hands the settle body to `setTimeout`. */
    method Resolve(p: PromiseId, v: Value)
      modifies this
      ensures Snapshot() == ScheduleResolve(old(Snapshot()), p, v)
    {
      tasks := tasks + [SettleFulfil(p, v)];
    }

    /** `_reject(reason)`: hands the settle body to `setTimeout`. */
    method Reject(p: PromiseId, r: Value)
      modifies this
      ensures Snapshot() == ScheduleReject(old(Snapshot()), p, r)
    {
      tasks := tasks + [SettleReject(p, r)];
    }

    /** `new MyPromise(fn)`: `fn` runs at once with the new promise's resolve/reject pair;
        a throw from `fn` is caught and passed to `_reject`. */
    method NewPromise(exec: Script) returns (p: PromiseId)
      requires Valid()
      modifies this
      ensures Snapshot() == Construct(old(Snapshot()), exec).0 && p == Construct(old(Snapshot()), exec).1
      ensures Valid()
    {
      MachineLemmas.ConstructExtends(Snapshot(), exec);
      p := |heap|;
      heap := heap + [Fresh];
      var calls := exec.calls;
      var i := 0;
      while i < |calls|
        invariant 0 <= i <= |calls|
        invariant heap == old(heap) + [Fresh]
        invariant tasks + ExecutorTasks(Settler(p), calls[i..]) == old(tasks) + ExecutorTasks(Settler(p), calls)
      {
        ghost var before := tasks;
        match calls[i] {
          case CallResolve(v) => Resolve(p, v);
          case CallReject(r) => Reject(p, r);
        }
        assert tasks == before + [SettleTask(p, calls[i])];
        ExecutorTasksStep(before, Settler(p), calls, i);
        i := i + 1;
      }
      assert calls[i..] == [];
      if exec.ending.Throws? {
        Reject(p, exec.ending.error);
      }
    }

    /** `then` once both arguments are functions: construct promise2, then register on or
        schedule against this promise according to its status. */
    method ThenWith(p: PromiseId, onFulfilled: Handler, onRejected: Handler) returns (p2: PromiseId)
      requires p < |heap|
      modifies this
      ensures Snapshot() == Machine.ThenWith(old(Snapshot()), p, onFulfilled, onRejected).0
      ensures p2 == Machine.ThenWith(old(Snapshot()), p, onFulfilled, onRejected).1
    {
      p2 := |heap|;
      heap := heap + [Fresh];
      var src := heap[p];
      if src.status == Fulfilled {
        tasks := tasks + [RunHandler(p2, onFulfilled, src.value)];
      }
      if src.status == Rejected {
        tasks := tasks + [RunHandler(p2, onRejected, src.reason)];
      }
      if src.status == Pending {
        heap := heap[p := src.(onFulfilledCallback := src.onFulfilledCallback + [Waiter(p2, onFulfilled)])];
        heap := heap[p := heap[p].(onRejectedCallback := src.onRejectedCallback + [Waiter(p2, onRejected)])];
        assert heap[p] == src.(onFulfilledCallback := src.onFulfilledCallback + [Waiter(p2, onFulfilled)],
                               onRejectedCallback := src.onRejectedCallback + [Waiter(p2, onRejected)]);
      }
    }

    /** `promise.then(onFulfilled, onRejected)`, with the defaults for non-functions. */
    method Then(p: PromiseId, onFulfilled: Callback, onRejected: Callback) returns (p2: PromiseId)
      requires Valid() && p < |heap|
      modifies this
      ensures Snapshot() == Machine.Then(old(Snapshot()), p, onFulfilled, onRejected).0
      ensures p2 == Machine.Then(old(Snapshot()), p, onFulfilled, onRejected).1
      ensures Valid()
    {
      var f := OnFulfilledOrIdentity(onFulfilled);
      var r := OnRejectedOrRethrow(onRejected);
      MachineLemmas.ThenWithExtends(Snapshot(), p, Call(f), Call(r));
      p2 := ThenWith(p, Call(f), Call(r));
    }

    /** `resolvePromise(promise2, x, resolve, reject)`, with the local `called_1` flag. */
    method ResolvePromise(p2: PromiseId, x: Value)
      modifies this
      ensures Snapshot() == Machine.ResolvePromise(old(Snapshot()), p2, x)
      decreases Size(x)
    {
      if x == Own(p2) {
        Reject(p2, ChainingCycleError);
        return;
      }
      match x {
        case Own(id) =>
          if id < |heap| {
            var r := heap[id];
            if r.status == Pending {
              var _ := ThenWith(id, AdoptInto(p2), RejectInto(p2));
            } else if r.status == Fulfilled {
              Resolve(p2, r.value);
            } else {
              Reject(p2, r.reason);
            }
          } else {
            Resolve(p2, x);
          }
        case Obj(_, member) =>
          match member {
            case GetterThrows(e) => Reject(p2, e);
            case NotCallable => Resolve(p2, x);
            case Callable(script) =>
              var calls, ending := script.calls, script.ending;
              var called := false;
              var i := 0;
              while i < |calls|
                invariant 0 <= i <= |calls|
                invariant Machine.RunThenable(Snapshot(), p2, calls[i..], ending, called)
                          == Machine.ResolvePromise(old(Snapshot()), p2, x)
              {
                ArgSmaller(calls, i);
                assert calls[i..][0] == calls[i] && calls[i..][1..] == calls[i + 1..];
                if !called {
                  called := true;
                  match calls[i] {
                    case CallResolve(y) => ResolvePromise(p2, y);
                    case CallReject(r) => Reject(p2, r);
                  }
                }
                i := i + 1;
              }
              if ending.Throws? && !called {
                Reject(p2, ending.error);
              }
          }
        case ChainingCycleError => Resolve(p2, x);
        case Undefined => Resolve(p2, x);
        case Null => Resolve(p2, x);
        case Prim(_) => Resolve(p2, x);
      }
    }

    /** Calls handler `h` on `arg`. */
    method Invoke(h: Handler, arg: Value) returns (c: Completion)
      modifies this
      ensures Snapshot() == Machine.Invoke(old(Snapshot()), h, arg).0
      ensures c == Machine.Invoke(old(Snapshot()), h, arg).1
    {
      match h {
        case Call(f) => c := f(arg);
        case AdoptInto(t) => ResolvePromise(t, arg); c := Returned(Undefined);
        case RejectInto(t) => Reject(t, arg); c := Returned(Undefined);
      }
    }

    /** The body `then` schedules: `try { x = handler(arg); resolvePromise(promise2, x, ...) }
        catch (e) { reject(e) }`. */
    method HandlerBody(p2: PromiseId, h: Handler, arg: Value)
      modifies this
      ensures Snapshot() == Machine.HandlerBody(old(Snapshot()), p2, h, arg)
    {
      var c := Invoke(h, arg);
      match c {
        case Returned(x) => ResolvePromise(p2, x);
        case Threw(e) => Reject(p2, e);
      }
    }

    /** The body that `_resolve(v)` (when `fulfil`) or `_reject(v)` schedules: only while
        pending, set status and payload, then call every waiter of the matching queue in
        order; each waiter hands its handler to `setTimeout`. */
    method SettleBody(p: PromiseId, fulfil: bool, v: Value)
      requires p < |heap|
      modifies this
      ensures Snapshot() == Machine.SettleBody(old(Snapshot()), p, fulfil, v)
    {
      var r := heap[p];
      if r.status == Pending {
        var settled, ws;
        if fulfil {
          settled, ws := r.(status := Fulfilled, value := v), r.onFulfilledCallback;
        } else {
          settled, ws := r.(status := Rejected, reason := v), r.onRejectedCallback;
        }
        heap := heap[p := settled];
        var i := 0;
        while i < |ws|
          invariant 0 <= i <= |ws|
          invariant heap == old(heap)[p := settled]
          invariant tasks + Drain(ws[i..], v) == old(tasks) + Drain(ws, v)
        {
          DrainStep(tasks, ws, i, v);
          tasks := tasks + [RunHandler(ws[i].promise2, ws[i].handler, v)];
          i := i + 1;
        }
        assert ws[i..] == [];
      }
    }

    method RunTask(t: Task)
      requires TaskIn(t, |heap|)
      modifies this
      ensures Snapshot() == Machine.RunTask(old(Snapshot()), t)
    {
      match t {
        case SettleFulfil(p, v) => SettleBody(p, true, v);
        case SettleReject(p, r) => SettleBody(p, false, r);
        case RunHandler(p2, h, arg) => HandlerBody(p2, h, arg);
      }
    }

    /** One turn of the timer queue: take the oldest task and run it. */
    method Step() returns (ran: bool)
      requires Valid()
      modifies this
      ensures Snapshot() == Machine.Step(old(Snapshot())) && Valid()
      ensures ran == (old(tasks) != [])
    {
      MachineLemmas.StepGrows(Snapshot());
      if tasks == [] {
        return false;
      }
      var t := tasks[0];
      tasks := tasks[1..];
      RunTask(t);
      ran := true;
    }

    /** `MyPromise.deferred()`. */
    method MakeDeferred() returns (d: Deferred)
      requires Valid()
      modifies this
      ensures Snapshot() == Machine.MakeDeferred(old(Snapshot())).0
      ensures d == Machine.MakeDeferred(old(Snapshot())).1
      ensures Valid()
    {
      var p := NewPromise(Script([], Returns));
      d := Deferred(p, ResolveOf(p), RejectOf(p));
    }

    /** Calling a resolve or reject function that outside code holds. */
    method CallCapability(c: Capability, v: Value)
      requires Valid() && c.promise < |heap|
      modifies this
      ensures Snapshot() == Machine.CallCapability(old(Snapshot()), c, v) && Valid()
    {
      match c {
        case ResolveOf(p) =>
          MachineLemmas.ScheduleExtends(Snapshot(), SettleFulfil(p, v));
          Resolve(p, v);
        case RejectOf(p) =>
          MachineLemmas.ScheduleExtends(Snapshot(), SettleReject(p, v));
          Reject(p, v);
      }
    }
  }

  lemma DrainStep(before: seq<Task>, ws: seq<Waiter>, i: nat, v: Value)
    requires i < |ws|
    ensures before + [RunHandler(ws[i].promise2, ws[i].handler, v)] + Drain(ws[i + 1..], v) == before + Drain(ws[i..], v)
  {
    assert ws[i..][1..] == ws[i + 1..];
  }
}
