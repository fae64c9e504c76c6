/** The index.ts draft as mutable state: each method updates the records, the timer queue
    and the handler-call log in place, and is proved to do what the matching function of
    Draft describes. */
module DraftRuntime {
  import opened Values
  import opened Draft

  class DraftPromises {
    /** every draft MyPromise created so far, by id */
    var heap: seq<DraftRecord>
    /** the callbacks handed to `setTimeout`, oldest first */
    var tasks: seq<DraftTask>
    /** every handler call so far, with its outcome */
    var log: seq<Invocation>

    function Snapshot(): DraftState
      reads this
    {
      DraftState(heap, tasks, log)
    }

    ghost predicate Valid()
      reads this
    {
      Draft.Valid(Snapshot())
    }

    constructor ()
      ensures Snapshot() == Empty && Valid()
    {
      heap, tasks, log := [], [], [];
    }

    /** `_resolve(value)`: hands the settle body to `setTimeout`. */
    method Resolve(p: PromiseId, v: Value)
      modifies this
      ensures Snapshot() == old(Snapshot()).(tasks := old(tasks) + [SettleFulfil(p, v)])
    {
      tasks := tasks + [SettleFulfil(p, v)];
    }

    /** `_reject(reason)`: hands the settle body to `setTimeout`. */
    method Reject(p: PromiseId, r: Value)
      modifies this
      ensures Snapshot() == old(Snapshot()).(tasks := old(tasks) + [SettleReject(p, r)])
    {
      tasks := tasks + [SettleReject(p, r)];
    }

    /** `new MyPromise(fn)`: `fn` runs at once; a throw from it goes to `_reject`. */
    method NewPromise(exec: Script) returns (p: PromiseId)
      requires Valid()
      modifies this
      ensures Snapshot() == Construct(old(Snapshot()), exec).0 && p == Construct(old(Snapshot()), exec).1
      ensures Valid()
    {
      ConstructKeeps(Snapshot(), exec, 0);
      p := |heap|;
      heap := heap + [Fresh];
      var calls := exec.calls;
      var i := 0;
      while i < |calls|
        invariant 0 <= i <= |calls|
        invariant heap == old(heap) + [Fresh] && log == old(log)
        invariant tasks + ExecutorTasks(Settler(p), calls[i..]) == old(tasks) + ExecutorTasks(Settler(p), calls)
      {
        ghost var before := tasks;
        match calls[i] {
          case CallResolve(v) => Resolve(p, v);
          case CallReject(r) => Reject(p, r);
        }
        assert tasks == before + [SettleTask(p, calls[i])];
        ExecutorTasksStep(before, Settler(p), calls, i);
        i := i + 1;
      }
      assert calls[i..] == [];
      if exec.ending.Throws? {
        Reject(p, exec.ending.error);
      }
    }

    /** The draft `then`: schedule or queue the (defaulted) handlers, then return
        `new MyPromise(() => {})`. */
    method Then(p: PromiseId, onFulfilled: Callback, onRejected: Callback) returns (q: PromiseId)
      requires Valid() && p < |heap|
      modifies this
      ensures Snapshot() == Draft.Then(old(Snapshot()), p, onFulfilled, onRejected).0
      ensures q == Draft.Then(old(Snapshot()), p, onFulfilled, onRejected).1
      ensures Valid()
    {
      var f := OnFulfilledOrIdentity(onFulfilled);
      var g := OnRejectedOrRethrow(onRejected);
      var src := heap[p];
      if src.status == Fulfilled {
        tasks := tasks + [RunHandler(f, src.value)];
      }
      if src.status == Rejected {
        tasks := tasks + [RunHandler(g, src.reason)];
      }
      if src.status == Pending {
        heap := heap[p := src.(onFulfilledCallback := src.onFulfilledCallback + [f])];
        heap := heap[p := heap[p].(onRejectedCallback := src.onRejectedCallback + [g])];
      }
      assert Valid() by {
        forall i | 0 <= i < |tasks| ensures TaskIn(tasks[i], |heap|) {
          if i < |old(tasks)| {
            assert tasks[i] == old(tasks)[i];
          }
        }
      }
      q := NewPromise(Script([], Returns));
    }

    /** The settle body of `_resolve` (when `fulfil`) or `_reject`: only while pending, set
        status and payload, then call the queued callbacks in order; the first one that throws
        ends the body, as its exception leaves `forEach`. */
    method SettleBody(p: PromiseId, fulfil: bool, v: Value)
      requires p < |heap|
      modifies this
      ensures Snapshot() == Draft.SettleBody(old(Snapshot()), p, fulfil, v)
    {
      var r := heap[p];
      if r.status != Pending {
        return;
      }
      var settled, cbs;
      if fulfil {
        settled, cbs := r.(status := Fulfilled, value := v), r.onFulfilledCallback;
      } else {
        settled, cbs := r.(status := Rejected, reason := v), r.onRejectedCallback;
      }
      heap := heap[p := settled];
      CallAll(cbs, v);
    }

    /** `callbacks.forEach(cb => cb!(payload))`, ending at the first callback that throws. */
    method CallAll(cbs: seq<Value -> Completion>, v: Value)
      modifies this
      ensures heap == old(heap) && tasks == old(tasks) && log == old(log) + Calls(cbs, v)
    {
      var i := 0;
      while i < |cbs|
        invariant 0 <= i <= |cbs|
        invariant heap == old(heap) && tasks == old(tasks)
        invariant log + Calls(cbs[i..], v) == old(log) + Calls(cbs, v)
      {
        var c := cbs[i](v);
        if c.Threw? {
          CallsThrew(log, cbs, i, v);
          log := log + [Invocation(cbs[i], v, c)];
          return;
        }
        CallsReturned(log, cbs, i, v);
        log := log + [Invocation(cbs[i], v, c)];
        i := i + 1;
      }
      assert cbs[i..] == [];
    }

    method RunTask(t: DraftTask)
      requires TaskIn(t, |heap|)
      modifies this
      ensures Snapshot() == Draft.RunTask(old(Snapshot()), t)
    {
      match t {
        case SettleFulfil(p, v) => SettleBody(p, true, v);
        case SettleReject(p, r) => SettleBody(p, false, r);
        case RunHandler(h, arg) =>
          var c := h(arg);
          log := log + [Invocation(h, arg, c)];
      }
    }

    /** One turn of the timer queue: take the oldest task and run it. */
    method Step() returns (ran: bool)
      requires Valid()
      modifies this
      ensures Snapshot() == Draft.Step(old(Snapshot())) && Valid()
      ensures ran == (old(tasks) != [])
    {
      assert Draft.Apply(Snapshot(), Tick) == Draft.Step(Snapshot());
      if tasks == [] {
        return false;
      }
      var t := tasks[0];
      tasks := tasks[1..];
      RunTask(t);
      ran := true;
    }
  }

  /** Unfolds the callback loop by one callback. */
  lemma CallsStep(cbs: seq<Value -> Completion>, i: nat, v: Value)
    requires i < |cbs|
    ensures cbs[i](v).Threw? ==> Calls(cbs[i..], v) == [Invocation(cbs[i], v, cbs[i](v))]
    ensures cbs[i](v).Returned? ==> Calls(cbs[i..], v) == [Invocation(cbs[i], v, cbs[i](v))] + Calls(cbs[i + 1..], v)
  {
    var t := cbs[i..];
    assert t[0] == cbs[i] && t[1..] == cbs[i + 1..];
  }

  lemma CallsReturned(before: seq<Invocation>, cbs: seq<Value -> Completion>, i: nat, v: Value)
    requires i < |cbs| && cbs[i](v).Returned?
    ensures before + Calls(cbs[i..], v) == before + [Invocation(cbs[i], v, cbs[i](v))] + Calls(cbs[i + 1..], v)
  {
    CallsStep(cbs, i, v);
    var a, b := [Invocation(cbs[i], v, cbs[i](v))], Calls(cbs[i + 1..], v);
    assert before + (a + b) == before + a + b;
  }

  lemma CallsThrew(before: seq<Invocation>, cbs: seq<Value -> Completion>, i: nat, v: Value)
    requires i < |cbs| && cbs[i](v).Threw?
    ensures before + Calls(cbs[i..], v) == before + [Invocation(cbs[i], v, cbs[i](v))]
  {
    CallsStep(cbs, i, v);
  }
}
