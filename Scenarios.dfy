/** Concrete runs of both models: the two chains of test/1.ts, and the edge cases of the
    resolution procedure played out end to end. Promise ids are allocation order. */
module Scenarios {
  import opened Values
  import Machine
  import MachineLemmas
  import Draft

  const Success: Value := Prim("testSuccess")
  const Failure: Value := Prim("testReject")

  /** The executor of `new MyPromise(resolve => resolve(v))`. */
  function ResolvesWith(v: Value): Script {
    Script([CallResolve(v)], Returns)
  }

  /** The executor of `new MyPromise((resolve, reject) => reject(r))`. */
  function RejectsWith(r: Value): Script {
    Script([CallReject(r)], Returns)
  }

  // ---------------------------------------------------------------------------
  // The turns every index.js chain below goes through: p0 is constructed by an executor
  // that makes one call, p1 = p0.then(h, g) subscribes, the settle body of p0 schedules
  // one handler, the handler body decides p1, and the settle body of p1 runs.

  /** A run begins with the state its first operation produces. */
  lemma RunCons(s: Machine.State, ops: seq<MachineLemmas.Op>, s1: Machine.State)
    requires Machine.Valid(s) && ops != [] && MachineLemmas.Apply(s, ops[0]) == s1
    ensures MachineLemmas.Run(s, ops) == MachineLemmas.Run(s1, ops[1..])
  {
  }

  /** A run of five operations passes through the states each one produces. */
  lemma RunFive(ops: seq<MachineLemmas.Op>, s0: Machine.State, s1: Machine.State, s2: Machine.State,
                s3: Machine.State, s4: Machine.State, s5: Machine.State)
    requires |ops| == 5 && Machine.Valid(s0) && MachineLemmas.Apply(s0, ops[0]) == s1
    requires Machine.Valid(s1) && MachineLemmas.Apply(s1, ops[1]) == s2
    requires Machine.Valid(s2) && MachineLemmas.Apply(s2, ops[2]) == s3
    requires Machine.Valid(s3) && MachineLemmas.Apply(s3, ops[3]) == s4
    requires Machine.Valid(s4) && MachineLemmas.Apply(s4, ops[4]) == s5
    ensures MachineLemmas.Run(s0, ops) == s5
  {
    var o1 := ops[1..];
    var o2 := o1[1..];
    var o3 := o2[1..];
    var o4 := o3[1..];
    assert o1[0] == ops[1] && o2[0] == ops[2] && o3[0] == ops[3] && o4[0] == ops[4] && o4[1..] == [];
    RunCons(s0, ops, s1);
    RunCons(s1, o1, s2);
    RunCons(s2, o2, s3);
    RunCons(s3, o3, s4);
    RunCons(s4, o4, s5);
  }

  /** p0 with the two waiters of p1 = p0.then(h, g). */
  function Subscribed(h: Value -> Completion, g: Value -> Completion): Machine.Record {
    Machine.Fresh.(onFulfilledCallback := [Machine.Waiter(1, Machine.Call(h))],
                   onRejectedCallback := [Machine.Waiter(1, Machine.Call(g))])
  }

  lemma Start(c: Call)
    ensures Machine.Valid(Machine.State([Machine.Fresh], [Machine.SettleTask(0, c)]))
    ensures MachineLemmas.Apply(Machine.Empty, MachineLemmas.NewPromise(Script([c], Returns)))
            == Machine.State([Machine.Fresh], [Machine.SettleTask(0, c)])
  {
    assert Machine.Construct(Machine.Empty, Script([c], Returns)).0 == Machine.State([Machine.Fresh], [Machine.SettleTask(0, c)]);
  }

  lemma Subscribe(h: Value -> Completion, g: Value -> Completion, c: Call)
    requires Machine.Valid(Machine.State([Machine.Fresh], [Machine.SettleTask(0, c)]))
    ensures Machine.Valid(Machine.State([Subscribed(h, g), Machine.Fresh], [Machine.SettleTask(0, c)]))
    ensures MachineLemmas.Apply(Machine.State([Machine.Fresh], [Machine.SettleTask(0, c)]), MachineLemmas.ThenOp(0, Fn(h), Fn(g)))
            == Machine.State([Subscribed(h, g), Machine.Fresh], [Machine.SettleTask(0, c)])
  {
    var s1 := Machine.State([Machine.Fresh], [Machine.SettleTask(0, c)]);
    var t := Machine.Then(s1, 0, Fn(h), Fn(g)).0;
    assert |t.heap| == 2 && t.heap[0] == Subscribed(h, g) && t.heap[1] == Machine.Fresh;
    assert t == Machine.State([Subscribed(h, g), Machine.Fresh], [Machine.SettleTask(0, c)]);
  }

  lemma SettleFirst(h: Value -> Completion, g: Value -> Completion, c: Call)
    requires Machine.Valid(Machine.State([Subscribed(h, g), Machine.Fresh], [Machine.SettleTask(0, c)]))
    ensures var r := Subscribed(h, g);
            var settled := if c.CallResolve? then r.(status := Fulfilled, value := c.arg) else r.(status := Rejected, reason := c.arg);
            var t := Machine.State([settled, Machine.Fresh], [Machine.RunHandler(1, Machine.Call(if c.CallResolve? then h else g), c.arg)]);
            && Machine.Valid(t)
            && MachineLemmas.Apply(Machine.State([r, Machine.Fresh], [Machine.SettleTask(0, c)]), MachineLemmas.Tick) == t
  {
  }

  lemma RunsHandler(r0: Machine.Record, f: Value -> Completion, v: Value)
    requires Machine.Valid(Machine.State([r0, Machine.Fresh], [Machine.RunHandler(1, Machine.Call(f), v)]))
    ensures MachineLemmas.Apply(Machine.State([r0, Machine.Fresh], [Machine.RunHandler(1, Machine.Call(f), v)]), MachineLemmas.Tick)
            == Machine.HandlerBody(Machine.State([r0, Machine.Fresh], []), 1, Machine.Call(f), v)
  {
    var s := Machine.State([r0, Machine.Fresh], [Machine.RunHandler(1, Machine.Call(f), v)]);
    assert s.tasks[1..] == [];
    assert Machine.Step(s) == Machine.RunTask(Machine.State([r0, Machine.Fresh], []), s.tasks[0]);
  }

  lemma Finish(r0: Machine.Record, t: Machine.Task)
    requires Machine.Valid(Machine.State([r0, Machine.Fresh], [t]))
    requires (t.SettleFulfil? || t.SettleReject?) && t.promise == 1
    ensures MachineLemmas.Apply(Machine.State([r0, Machine.Fresh], [t]), MachineLemmas.Tick)
            == Machine.State([r0, if t.SettleFulfil? then Machine.Fresh.(status := Fulfilled, value := t.value)
                                  else Machine.Fresh.(status := Rejected, reason := t.reason)], [])
  {
  }

  /** A chain p0 = new MyPromise(executor making call `c`), p1 = p0.then(h, g), run for three
      turns, ends with p1 settled by `last`, when the handler body schedules `last`. */
  lemma Chain(h: Value -> Completion, g: Value -> Completion, c: Call, last: Machine.Task)
    requires (last.SettleFulfil? || last.SettleReject?) && last.promise == 1
    requires var r := Subscribed(h, g);
             var settled := if c.CallResolve? then r.(status := Fulfilled, value := c.arg) else r.(status := Rejected, reason := c.arg);
             Machine.HandlerBody(Machine.State([settled, Machine.Fresh], []), 1, Machine.Call(if c.CallResolve? then h else g), c.arg)
             == Machine.State([settled, Machine.Fresh], [last])
    ensures var t := MachineLemmas.Run(Machine.Empty, [MachineLemmas.NewPromise(Script([c], Returns)),
                                                       MachineLemmas.ThenOp(0, Fn(h), Fn(g)),
                                                       MachineLemmas.Tick, MachineLemmas.Tick, MachineLemmas.Tick]);
            var r := Subscribed(h, g);
            t == Machine.State([if c.CallResolve? then r.(status := Fulfilled, value := c.arg) else r.(status := Rejected, reason := c.arg),
                                if last.SettleFulfil? then Machine.Fresh.(status := Fulfilled, value := last.value)
                                else Machine.Fresh.(status := Rejected, reason := last.reason)], [])
  {
    var ops := [MachineLemmas.NewPromise(Script([c], Returns)), MachineLemmas.ThenOp(0, Fn(h), Fn(g)),
                MachineLemmas.Tick, MachineLemmas.Tick, MachineLemmas.Tick];
    var r := Subscribed(h, g);
    var settled := if c.CallResolve? then r.(status := Fulfilled, value := c.arg) else r.(status := Rejected, reason := c.arg);
    var f := if c.CallResolve? then h else g;
    var s1 := Machine.State([Machine.Fresh], [Machine.SettleTask(0, c)]);
    var s2 := Machine.State([r, Machine.Fresh], [Machine.SettleTask(0, c)]);
    var s3 := Machine.State([settled, Machine.Fresh], [Machine.RunHandler(1, Machine.Call(f), c.arg)]);
    var s4 := Machine.State([settled, Machine.Fresh], [last]);
    Start(c);
    Subscribe(h, g, c);
    SettleFirst(h, g, c);
    RunsHandler(settled, f, c.arg);
    assert Machine.Valid(s4) by {
      assert s4 == MachineLemmas.Apply(s3, MachineLemmas.Tick);
    }
    Finish(settled, last);
    RunFive(ops, Machine.Empty, s1, s2, s3, s4,
            Machine.State([settled, if last.SettleFulfil? then Machine.Fresh.(status := Fulfilled, value := last.value)
                                    else Machine.Fresh.(status := Rejected, reason := last.reason)], []));
  }

  /** index.js, first chain of test/1.ts: after three turns the fulfilment handler has run
      on 'testSuccess' and promise2 is fulfilled with what it returned. */
  lemma SuccessChain(h: Value -> Completion, g: Value -> Completion)
    requires h(Success) == Returned(Undefined)
    ensures var t := MachineLemmas.Run(Machine.Empty, [MachineLemmas.NewPromise(ResolvesWith(Success)),
                                                       MachineLemmas.ThenOp(0, Fn(h), Fn(g)),
                                                       MachineLemmas.Tick, MachineLemmas.Tick, MachineLemmas.Tick]);
            && |t.heap| == 2 && t.tasks == []
            && t.heap[0].status == Fulfilled && t.heap[0].value == Success
            && t.heap[1].status == Fulfilled && t.heap[1].value == Undefined
  {
    Chain(h, g, CallResolve(Success), Machine.SettleFulfil(1, Undefined));
  }

  /** index.js, second chain of test/1.ts: the rejection handler receives 'testReject'; as
      it returns normally, promise2 is fulfilled with its result (recovery). */
  lemma RejectChainRecovers(h: Value -> Completion, g: Value -> Completion)
    requires g(Failure) == Returned(Prim("recovered"))
    ensures var t := MachineLemmas.Run(Machine.Empty, [MachineLemmas.NewPromise(RejectsWith(Failure)),
                                                       MachineLemmas.ThenOp(0, Fn(h), Fn(g)),
                                                       MachineLemmas.Tick, MachineLemmas.Tick, MachineLemmas.Tick]);
            && |t.heap| == 2 && t.tasks == []
            && t.heap[0].status == Rejected && t.heap[0].reason == Failure
            && t.heap[1].status == Fulfilled && t.heap[1].value == Prim("recovered")
  {
    Chain(h, g, CallReject(Failure), Machine.SettleFulfil(1, Prim("recovered")));
  }

  /** A handler that throws rejects promise2 with what it threw. */
  lemma ThrowingHandlerRejects(h: Value -> Completion, g: Value -> Completion)
    requires h(Success) == Threw(Prim("boom"))
    ensures var t := MachineLemmas.Run(Machine.Empty, [MachineLemmas.NewPromise(ResolvesWith(Success)),
                                                       MachineLemmas.ThenOp(0, Fn(h), Fn(g)),
                                                       MachineLemmas.Tick, MachineLemmas.Tick, MachineLemmas.Tick]);
            && |t.heap| == 2 && t.tasks == []
            && t.heap[1].status == Rejected && t.heap[1].reason == Prim("boom")
  {
    Chain(h, g, CallResolve(Success), Machine.SettleReject(1, Prim("boom")));
  }

  /** A handler that returns the very promise `then` gave back rejects it with the cycle
      TypeError. */
  lemma CycleRejects(h: Value -> Completion, g: Value -> Completion)
    requires h(Success) == Returned(Own(1))
    ensures var t := MachineLemmas.Run(Machine.Empty, [MachineLemmas.NewPromise(ResolvesWith(Success)),
                                                       MachineLemmas.ThenOp(0, Fn(h), Fn(g)),
                                                       MachineLemmas.Tick, MachineLemmas.Tick, MachineLemmas.Tick]);
            && |t.heap| == 2 && t.tasks == []
            && t.heap[1].status == Rejected && t.heap[1].reason == ChainingCycleError
  {
    Chain(h, g, CallResolve(Success), Machine.SettleReject(1, ChainingCycleError));
  }

  /** A handler that returns a thenable whose `then` calls resolve('a'), then reject('b'),
      then throws: only the first call counts. */
  lemma ThenableFirstCall(h: Value -> Completion, g: Value -> Completion)
    requires h(Success) == Returned(Obj(7, Callable(Script([CallResolve(Prim("a")), CallReject(Prim("b"))], Throws(Prim("c"))))))
    ensures var t := MachineLemmas.Run(Machine.Empty, [MachineLemmas.NewPromise(ResolvesWith(Success)),
                                                       MachineLemmas.ThenOp(0, Fn(h), Fn(g)),
                                                       MachineLemmas.Tick, MachineLemmas.Tick, MachineLemmas.Tick]);
            && |t.heap| == 2 && t.tasks == []
            && t.heap[1].status == Fulfilled && t.heap[1].value == Prim("a")
  {
    var settled := Subscribed(h, g).(status := Fulfilled, value := Success);
    var s := Machine.State([settled, Machine.Fresh], []);
    var script := Script([CallResolve(Prim("a")), CallReject(Prim("b"))], Throws(Prim("c")));
    MachineLemmas.ThenableFirstCallWins(s, 1, 7, script);
    Chain(h, g, CallResolve(Success), Machine.SettleFulfil(1, Prim("a")));
  }

  lemma DeferredSteps(x: Value, y: Value)
    ensures var s1 := Machine.State([Machine.Fresh], []);
            && MachineLemmas.Apply(Machine.Empty, MachineLemmas.NewDeferred) == s1 && Machine.Valid(s1)
    ensures var s1, s2 := Machine.State([Machine.Fresh], []), Machine.State([Machine.Fresh], [Machine.SettleFulfil(0, x)]);
            && MachineLemmas.Apply(s1, MachineLemmas.Settle(Machine.ResolveOf(0), x)) == s2 && Machine.Valid(s2)
    ensures var s2 := Machine.State([Machine.Fresh], [Machine.SettleFulfil(0, x)]);
            var s3 := Machine.State([Machine.Fresh], [Machine.SettleFulfil(0, x), Machine.SettleReject(0, y)]);
            && MachineLemmas.Apply(s2, MachineLemmas.Settle(Machine.RejectOf(0), y)) == s3 && Machine.Valid(s3)
  {
    assert Machine.MakeDeferred(Machine.Empty).0 == Machine.State([Machine.Fresh], []);
  }

  lemma DeferredTicks(x: Value, y: Value)
    requires Machine.Valid(Machine.State([Machine.Fresh], [Machine.SettleFulfil(0, x), Machine.SettleReject(0, y)]))
    ensures var s3 := Machine.State([Machine.Fresh], [Machine.SettleFulfil(0, x), Machine.SettleReject(0, y)]);
            var s4 := Machine.State([Machine.Fresh.(status := Fulfilled, value := x)], [Machine.SettleReject(0, y)]);
            && MachineLemmas.Apply(s3, MachineLemmas.Tick) == s4 && Machine.Valid(s4)
    ensures var s4 := Machine.State([Machine.Fresh.(status := Fulfilled, value := x)], [Machine.SettleReject(0, y)]);
            MachineLemmas.Apply(s4, MachineLemmas.Tick) == Machine.State([Machine.Fresh.(status := Fulfilled, value := x)], [])
  {
    var s3 := Machine.State([Machine.Fresh], [Machine.SettleFulfil(0, x), Machine.SettleReject(0, y)]);
    assert s3.tasks[1..] == [Machine.SettleReject(0, y)];
    assert [Machine.SettleReject(0, y)][1..] == [];
  }

  /** `MyPromise.deferred()`: resolve and then reject the fresh promise from outside; the
      first settle body wins and the second is a no-op. */
  lemma DeferredSettlesOnce(x: Value, y: Value)
    ensures var t := MachineLemmas.Run(Machine.Empty, [MachineLemmas.NewDeferred,
                                                       MachineLemmas.Settle(Machine.ResolveOf(0), x),
                                                       MachineLemmas.Settle(Machine.RejectOf(0), y),
                                                       MachineLemmas.Tick, MachineLemmas.Tick]);
            t == Machine.State([Machine.Fresh.(status := Fulfilled, value := x)], [])
  {
    var s1 := Machine.State([Machine.Fresh], []);
    var s2 := Machine.State([Machine.Fresh], [Machine.SettleFulfil(0, x)]);
    var s3 := Machine.State([Machine.Fresh], [Machine.SettleFulfil(0, x), Machine.SettleReject(0, y)]);
    var s4 := Machine.State([Machine.Fresh.(status := Fulfilled, value := x)], [Machine.SettleReject(0, y)]);
    DeferredSteps(x, y);
    DeferredTicks(x, y);
    var ops := [MachineLemmas.NewDeferred, MachineLemmas.Settle(Machine.ResolveOf(0), x), MachineLemmas.Settle(Machine.RejectOf(0), y),
                MachineLemmas.Tick, MachineLemmas.Tick];
    var ticks := [MachineLemmas.Tick, MachineLemmas.Tick];
    assert ops[1..][1..][1..] == ticks && ticks[1..][1..] == [];
    RunCons(Machine.Empty, ops, s1);
    RunCons(s1, ops[1..], s2);
    RunCons(s2, ops[1..][1..], s3);
    RunCons(s3, ticks, s4);
    RunCons(s4, ticks[1..], Machine.State([Machine.Fresh.(status := Fulfilled, value := x)], []));
  }

  // ---------------------------------------------------------------------------
  // Adopting a pending MyPromise: p0 is `MyPromise.deferred().promise`, p1 is resolved
  // with 'testSuccess', and p2 = p1.then(h, g) where h returns p0. p0 is resolved from
  // outside only after h has run, so the resolution procedure of p2 subscribes to p0
  // through p3 = p0.then(...) and later re-enters with p0's value.

  /** A run splits at any point into the run of its first part and then of the rest. */
  lemma {:induction false} RunAppend(s: Machine.State, a: seq<MachineLemmas.Op>, b: seq<MachineLemmas.Op>)
    requires Machine.Valid(s)
    ensures MachineLemmas.Run(s, a + b) == MachineLemmas.Run(MachineLemmas.Run(s, a), b)
    decreases |a|
  {
    if a == [] {
      assert a + b == b;
    } else {
      assert (a + b)[0] == a[0] && (a + b)[1..] == a[1..] + b;
      RunAppend(MachineLemmas.Apply(s, a[0]), a[1..], b);
    }
  }

  /** p1 with the two waiters of p2 = p1.then(h, g). */
  function WaitsOnP1(h: Value -> Completion, g: Value -> Completion): Machine.Record {
    Machine.Fresh.(onFulfilledCallback := [Machine.Waiter(2, Machine.Call(h))],
                   onRejectedCallback := [Machine.Waiter(2, Machine.Call(g))])
  }

  /** p0 with the two waiters through which p3 forwards its outcome to p2. */
  const Adopting: Machine.Record :=
    Machine.Fresh.(onFulfilledCallback := [Machine.Waiter(3, Machine.AdoptInto(2))],
                   onRejectedCallback := [Machine.Waiter(3, Machine.RejectInto(2))])

  lemma AdoptStart(h: Value -> Completion, g: Value -> Completion)
    ensures var s1 := Machine.State([Machine.Fresh], []);
            && MachineLemmas.Apply(Machine.Empty, MachineLemmas.NewDeferred) == s1 && Machine.Valid(s1)
    ensures var s1, s2 := Machine.State([Machine.Fresh], []), Machine.State([Machine.Fresh, Machine.Fresh], [Machine.SettleFulfil(1, Success)]);
            && MachineLemmas.Apply(s1, MachineLemmas.NewPromise(ResolvesWith(Success))) == s2 && Machine.Valid(s2)
  {
    assert Machine.MakeDeferred(Machine.Empty).0 == Machine.State([Machine.Fresh], []);
    var s1 := Machine.State([Machine.Fresh], []);
    assert Machine.Construct(s1, ResolvesWith(Success)).0 == Machine.State([Machine.Fresh, Machine.Fresh], [Machine.SettleFulfil(1, Success)]);
  }

  lemma AdoptSubscribe(h: Value -> Completion, g: Value -> Completion)
    requires Machine.Valid(Machine.State([Machine.Fresh, Machine.Fresh], [Machine.SettleFulfil(1, Success)]))
    ensures var s3 := Machine.State([Machine.Fresh, WaitsOnP1(h, g), Machine.Fresh], [Machine.SettleFulfil(1, Success)]);
            && MachineLemmas.Apply(Machine.State([Machine.Fresh, Machine.Fresh], [Machine.SettleFulfil(1, Success)]),
                                   MachineLemmas.ThenOp(1, Fn(h), Fn(g))) == s3
            && Machine.Valid(s3)
  {
    var s2 := Machine.State([Machine.Fresh, Machine.Fresh], [Machine.SettleFulfil(1, Success)]);
    var t := Machine.Then(s2, 1, Fn(h), Fn(g)).0;
    assert |t.heap| == 3 && t.heap[0] == Machine.Fresh && t.heap[1] == WaitsOnP1(h, g) && t.heap[2] == Machine.Fresh;
    assert t == Machine.State([Machine.Fresh, WaitsOnP1(h, g), Machine.Fresh], [Machine.SettleFulfil(1, Success)]);
  }

  lemma AdoptSettleP1(h: Value -> Completion, g: Value -> Completion)
    requires Machine.Valid(Machine.State([Machine.Fresh, WaitsOnP1(h, g), Machine.Fresh], [Machine.SettleFulfil(1, Success)]))
    ensures var s4 := Machine.State([Machine.Fresh, WaitsOnP1(h, g).(status := Fulfilled, value := Success), Machine.Fresh],
                                    [Machine.RunHandler(2, Machine.Call(h), Success)]);
            && MachineLemmas.Apply(Machine.State([Machine.Fresh, WaitsOnP1(h, g), Machine.Fresh], [Machine.SettleFulfil(1, Success)]),
                                   MachineLemmas.Tick) == s4
            && Machine.Valid(s4)
  {
    var s3 := Machine.State([Machine.Fresh, WaitsOnP1(h, g), Machine.Fresh], [Machine.SettleFulfil(1, Success)]);
    assert s3.tasks[1..] == [];
  }

  /** The handler returns the pending p0: p3 = p0.then(...) subscribes the adopting pair. */
  lemma AdoptHandler(h: Value -> Completion, g: Value -> Completion)
    requires h(Success) == Returned(Own(0))
    requires Machine.Valid(Machine.State([Machine.Fresh, WaitsOnP1(h, g).(status := Fulfilled, value := Success), Machine.Fresh],
                                         [Machine.RunHandler(2, Machine.Call(h), Success)]))
    ensures var s5 := Machine.State([Adopting, WaitsOnP1(h, g).(status := Fulfilled, value := Success), Machine.Fresh, Machine.Fresh], []);
            && MachineLemmas.Apply(Machine.State([Machine.Fresh, WaitsOnP1(h, g).(status := Fulfilled, value := Success), Machine.Fresh],
                                                 [Machine.RunHandler(2, Machine.Call(h), Success)]), MachineLemmas.Tick) == s5
            && Machine.Valid(s5)
  {
    var p1 := WaitsOnP1(h, g).(status := Fulfilled, value := Success);
    var s4 := Machine.State([Machine.Fresh, p1, Machine.Fresh], [Machine.RunHandler(2, Machine.Call(h), Success)]);
    var s := Machine.State([Machine.Fresh, p1, Machine.Fresh], []);
    assert s4.tasks[1..] == [];
    assert Machine.Step(s4) == Machine.HandlerBody(s, 2, Machine.Call(h), Success);
    MachineLemmas.HandlerOutcome(s, 2, h, Success);
    var t := Machine.ThenWith(s, 0, Machine.AdoptInto(2), Machine.RejectInto(2)).0;
    assert |t.heap| == 4 && t.heap[0] == Adopting && t.heap[1] == p1 && t.heap[2] == Machine.Fresh && t.heap[3] == Machine.Fresh;
  }

  lemma AdoptResolveP0(h: Value -> Completion, g: Value -> Completion, x: Value)
    requires Machine.Valid(Machine.State([Adopting, WaitsOnP1(h, g).(status := Fulfilled, value := Success), Machine.Fresh, Machine.Fresh], []))
    ensures var p1 := WaitsOnP1(h, g).(status := Fulfilled, value := Success);
            var s6 := Machine.State([Adopting, p1, Machine.Fresh, Machine.Fresh], [Machine.SettleFulfil(0, x)]);
            && MachineLemmas.Apply(Machine.State([Adopting, p1, Machine.Fresh, Machine.Fresh], []),
                                   MachineLemmas.Settle(Machine.ResolveOf(0), x)) == s6
            && Machine.Valid(s6)
  {
  }

  lemma AdoptSettleP0(h: Value -> Completion, g: Value -> Completion, x: Value)
    requires var p1 := WaitsOnP1(h, g).(status := Fulfilled, value := Success);
             Machine.Valid(Machine.State([Adopting, p1, Machine.Fresh, Machine.Fresh], [Machine.SettleFulfil(0, x)]))
    ensures var p1 := WaitsOnP1(h, g).(status := Fulfilled, value := Success);
            var s7 := Machine.State([Adopting.(status := Fulfilled, value := x), p1, Machine.Fresh, Machine.Fresh],
                                    [Machine.RunHandler(3, Machine.AdoptInto(2), x)]);
            && MachineLemmas.Apply(Machine.State([Adopting, p1, Machine.Fresh, Machine.Fresh], [Machine.SettleFulfil(0, x)]),
                                   MachineLemmas.Tick) == s7
            && Machine.Valid(s7)
  {
    var p1 := WaitsOnP1(h, g).(status := Fulfilled, value := Success);
    var s6 := Machine.State([Adopting, p1, Machine.Fresh, Machine.Fresh], [Machine.SettleFulfil(0, x)]);
    assert s6.tasks[1..] == [];
  }

  /** The adopting handler re-enters the resolution procedure of p2 with p0's value. */
  lemma AdoptForward(h: Value -> Completion, g: Value -> Completion, x: Value)
    requires x.Prim?
    requires var p1 := WaitsOnP1(h, g).(status := Fulfilled, value := Success);
             Machine.Valid(Machine.State([Adopting.(status := Fulfilled, value := x), p1, Machine.Fresh, Machine.Fresh],
                                         [Machine.RunHandler(3, Machine.AdoptInto(2), x)]))
    ensures var p1 := WaitsOnP1(h, g).(status := Fulfilled, value := Success);
            var s8 := Machine.State([Adopting.(status := Fulfilled, value := x), p1, Machine.Fresh, Machine.Fresh],
                                    [Machine.SettleFulfil(2, x), Machine.SettleFulfil(3, Undefined)]);
            && MachineLemmas.Apply(Machine.State([Adopting.(status := Fulfilled, value := x), p1, Machine.Fresh, Machine.Fresh],
                                                 [Machine.RunHandler(3, Machine.AdoptInto(2), x)]), MachineLemmas.Tick) == s8
            && Machine.Valid(s8)
  {
    var p1 := WaitsOnP1(h, g).(status := Fulfilled, value := Success);
    var s7 := Machine.State([Adopting.(status := Fulfilled, value := x), p1, Machine.Fresh, Machine.Fresh],
                            [Machine.RunHandler(3, Machine.AdoptInto(2), x)]);
    var s := s7.(tasks := []);
    assert s7.tasks[1..] == [];
    MachineLemmas.AdoptionForwards(s, 3, 2, x);
    MachineLemmas.ResolvePlainValue(s, 2, x);
  }

  lemma AdoptFinish(h: Value -> Completion, g: Value -> Completion, x: Value)
    requires var p1 := WaitsOnP1(h, g).(status := Fulfilled, value := Success);
             Machine.Valid(Machine.State([Adopting.(status := Fulfilled, value := x), p1, Machine.Fresh, Machine.Fresh],
                                         [Machine.SettleFulfil(2, x), Machine.SettleFulfil(3, Undefined)]))
    ensures var p0, p1 := Adopting.(status := Fulfilled, value := x), WaitsOnP1(h, g).(status := Fulfilled, value := Success);
            var s8 := Machine.State([p0, p1, Machine.Fresh, Machine.Fresh], [Machine.SettleFulfil(2, x), Machine.SettleFulfil(3, Undefined)]);
            var s9 := Machine.State([p0, p1, Machine.Fresh.(status := Fulfilled, value := x), Machine.Fresh], [Machine.SettleFulfil(3, Undefined)]);
            && MachineLemmas.Apply(s8, MachineLemmas.Tick) == s9 && Machine.Valid(s9)
    ensures var p0, p1 := Adopting.(status := Fulfilled, value := x), WaitsOnP1(h, g).(status := Fulfilled, value := Success);
            var p2 := Machine.Fresh.(status := Fulfilled, value := x);
            MachineLemmas.Apply(Machine.State([p0, p1, p2, Machine.Fresh], [Machine.SettleFulfil(3, Undefined)]), MachineLemmas.Tick)
            == Machine.State([p0, p1, p2, Machine.Fresh.(status := Fulfilled, value := Undefined)], [])
  {
    var p0, p1 := Adopting.(status := Fulfilled, value := x), WaitsOnP1(h, g).(status := Fulfilled, value := Success);
    var s8 := Machine.State([p0, p1, Machine.Fresh, Machine.Fresh], [Machine.SettleFulfil(2, x), Machine.SettleFulfil(3, Undefined)]);
    assert s8.tasks[1..] == [Machine.SettleFulfil(3, Undefined)];
    assert [Machine.SettleFulfil(3, Undefined)][1..] == [];
  }

  /** The program's first five operations: a deferred p0, p1 resolved with 'testSuccess',
      p2 = p1.then(h, g), and two timer turns. */
  function AdoptionSetup(h: Value -> Completion, g: Value -> Completion): seq<MachineLemmas.Op> {
    [MachineLemmas.NewDeferred, MachineLemmas.NewPromise(ResolvesWith(Success)), MachineLemmas.ThenOp(1, Fn(h), Fn(g)),
     MachineLemmas.Tick, MachineLemmas.Tick]
  }

  /** The rest: p0 is resolved from outside with `x`, then four timer turns. */
  function AdoptionRest(x: Value): seq<MachineLemmas.Op> {
    [MachineLemmas.Settle(Machine.ResolveOf(0), x), MachineLemmas.Tick, MachineLemmas.Tick, MachineLemmas.Tick, MachineLemmas.Tick]
  }

  /** The first five turns: p2's handler has returned p0 and p3 = p0.then(...) waits on p0. */
  lemma AdoptFirstHalf(h: Value -> Completion, g: Value -> Completion)
    requires h(Success) == Returned(Own(0))
    ensures MachineLemmas.Run(Machine.Empty, AdoptionSetup(h, g))
            == Machine.State([Adopting, WaitsOnP1(h, g).(status := Fulfilled, value := Success), Machine.Fresh, Machine.Fresh], [])
  {
    var ops := AdoptionSetup(h, g);
    var p1 := WaitsOnP1(h, g).(status := Fulfilled, value := Success);
    var s1 := Machine.State([Machine.Fresh], []);
    var s2 := Machine.State([Machine.Fresh, Machine.Fresh], [Machine.SettleFulfil(1, Success)]);
    var s3 := Machine.State([Machine.Fresh, WaitsOnP1(h, g), Machine.Fresh], [Machine.SettleFulfil(1, Success)]);
    var s4 := Machine.State([Machine.Fresh, p1, Machine.Fresh], [Machine.RunHandler(2, Machine.Call(h), Success)]);
    var s5 := Machine.State([Adopting, p1, Machine.Fresh, Machine.Fresh], []);
    AdoptStart(h, g);
    AdoptSubscribe(h, g);
    AdoptSettleP1(h, g);
    AdoptHandler(h, g);
    var o1 := ops[1..];
    var o2 := o1[1..];
    var ticks := [MachineLemmas.Tick, MachineLemmas.Tick];
    assert o2[1..] == ticks && ticks[1..][1..] == [];
    RunCons(Machine.Empty, ops, s1);
    RunCons(s1, o1, s2);
    RunCons(s2, o2, s3);
    RunCons(s3, ticks, s4);
    RunCons(s4, ticks[1..], s5);
  }

  /** The last three turns: the adopting handler forwards p0's value to p2, then p2 and p3 settle. */
  lemma AdoptLastTurns(h: Value -> Completion, g: Value -> Completion, x: Value)
    requires x.Prim?
    requires var p1 := WaitsOnP1(h, g).(status := Fulfilled, value := Success);
             Machine.Valid(Machine.State([Adopting.(status := Fulfilled, value := x), p1, Machine.Fresh, Machine.Fresh],
                                         [Machine.RunHandler(3, Machine.AdoptInto(2), x)]))
    ensures var p0, p1 := Adopting.(status := Fulfilled, value := x), WaitsOnP1(h, g).(status := Fulfilled, value := Success);
            MachineLemmas.Run(Machine.State([p0, p1, Machine.Fresh, Machine.Fresh], [Machine.RunHandler(3, Machine.AdoptInto(2), x)]),
                              [MachineLemmas.Tick, MachineLemmas.Tick, MachineLemmas.Tick])
            == Machine.State([p0, p1, Machine.Fresh.(status := Fulfilled, value := x),
                              Machine.Fresh.(status := Fulfilled, value := Undefined)], [])
  {
    var ops := [MachineLemmas.Tick, MachineLemmas.Tick, MachineLemmas.Tick];
    var p1 := WaitsOnP1(h, g).(status := Fulfilled, value := Success);
    var p0 := Adopting.(status := Fulfilled, value := x);
    var p2 := Machine.Fresh.(status := Fulfilled, value := x);
    var s7 := Machine.State([p0, p1, Machine.Fresh, Machine.Fresh], [Machine.RunHandler(3, Machine.AdoptInto(2), x)]);
    var s8 := Machine.State([p0, p1, Machine.Fresh, Machine.Fresh], [Machine.SettleFulfil(2, x), Machine.SettleFulfil(3, Undefined)]);
    var s9 := Machine.State([p0, p1, p2, Machine.Fresh], [Machine.SettleFulfil(3, Undefined)]);
    var s10 := Machine.State([p0, p1, p2, Machine.Fresh.(status := Fulfilled, value := Undefined)], []);
    AdoptForward(h, g, x);
    AdoptFinish(h, g, x);
    assert ops[1..] == [MachineLemmas.Tick, MachineLemmas.Tick] && ops[1..][1..] == [MachineLemmas.Tick] && ops[1..][1..][1..] == [];
    RunCons(s7, ops, s8);
    RunCons(s8, ops[1..], s9);
    RunCons(s9, ops[1..][1..], s10);
  }

  /** The last five turns: p0 is resolved from outside and its value reaches p2. */
  lemma AdoptSecondHalf(h: Value -> Completion, g: Value -> Completion, x: Value)
    requires x.Prim?
    requires Machine.Valid(Machine.State([Adopting, WaitsOnP1(h, g).(status := Fulfilled, value := Success), Machine.Fresh, Machine.Fresh], []))
    ensures var p0, p1 := Adopting.(status := Fulfilled, value := x), WaitsOnP1(h, g).(status := Fulfilled, value := Success);
            MachineLemmas.Run(Machine.State([Adopting, p1, Machine.Fresh, Machine.Fresh], []), AdoptionRest(x))
            == Machine.State([p0, p1, Machine.Fresh.(status := Fulfilled, value := x),
                              Machine.Fresh.(status := Fulfilled, value := Undefined)], [])
  {
    var ops := AdoptionRest(x);
    var p1 := WaitsOnP1(h, g).(status := Fulfilled, value := Success);
    var p0 := Adopting.(status := Fulfilled, value := x);
    var s5 := Machine.State([Adopting, p1, Machine.Fresh, Machine.Fresh], []);
    var s6 := Machine.State([Adopting, p1, Machine.Fresh, Machine.Fresh], [Machine.SettleFulfil(0, x)]);
    var s7 := Machine.State([p0, p1, Machine.Fresh, Machine.Fresh], [Machine.RunHandler(3, Machine.AdoptInto(2), x)]);
    AdoptResolveP0(h, g, x);
    AdoptSettleP0(h, g, x);
    assert ops[1..][1..] == [MachineLemmas.Tick, MachineLemmas.Tick, MachineLemmas.Tick];
    RunCons(s5, ops, s6);
    RunCons(s6, ops[1..], s7);
    AdoptLastTurns(h, g, x);
  }

  /** A handler that returns a MyPromise still pending at that time: once that promise is
      resolved from outside, p2 ends fulfilled with its value, as does p3, which the
      resolution procedure created, with `undefined`. */
  lemma PendingAdoption(h: Value -> Completion, g: Value -> Completion, x: Value)
    requires h(Success) == Returned(Own(0)) && x.Prim?
    ensures var t := MachineLemmas.Run(Machine.Empty, AdoptionSetup(h, g) + AdoptionRest(x));
            && |t.heap| == 4 && t.tasks == []
            && t.heap[0].status == Fulfilled && t.heap[0].value == x
            && t.heap[2].status == Fulfilled && t.heap[2].value == x
            && t.heap[3].status == Fulfilled && t.heap[3].value == Undefined
  {
    AdoptFirstHalf(h, g);
    var mid := MachineLemmas.Run(Machine.Empty, AdoptionSetup(h, g));
    AdoptSecondHalf(h, g, x);
    RunAppend(Machine.Empty, AdoptionSetup(h, g), AdoptionRest(x));
  }

  /** The resolution procedure reads a settled MyPromise's payload as it is, but re-enters
      itself with the payload of a pending one once it settles. With p1 fulfilled with p0
      itself (an executor may resolve with a promise) and p0 fulfilled with 'v', promise2
      adopting p1 is fulfilled with the promise p0, while the adopting handler that p1 would
      have run had it still been pending fulfils promise2 with 'v'. */
  lemma AdoptionDependsOnTiming()
    ensures var s := Machine.State([Machine.Fresh.(status := Fulfilled, value := Prim("v")),
                                    Machine.Fresh.(status := Fulfilled, value := Own(0)),
                                    Machine.Fresh, Machine.Fresh], []);
            && Machine.ResolvePromise(s, 2, Own(1)) == Machine.ScheduleResolve(s, 2, Own(0))
            && Machine.RunTask(s, Machine.RunHandler(3, Machine.AdoptInto(2), Own(0)))
               == Machine.ScheduleResolve(Machine.ScheduleResolve(s, 2, Prim("v")), 3, Undefined)
  {
  }

  // ---------------------------------------------------------------------------
  // The index.ts draft

  lemma DraftRunUnfolds(s: Draft.DraftState, ops: seq<Draft.DraftOp>)
    requires Draft.Valid(s) && ops != []
    ensures Draft.Run(s, ops) == Draft.Run(Draft.Apply(s, ops[0]), ops[1..])
  {
  }

  lemma OneCallback(f: Value -> Completion, v: Value)
    ensures Draft.Calls([f], v) == [Draft.Invocation(f, v, f(v))]
  {
    Draft.CallsInOrder([f], v);
    var l := Draft.Calls([f], v);
    assert |l| == 1;
    assert l[0] == Draft.Invocation(f, v, f(v));
  }

  function DraftSettleTask(c: Call): Draft.DraftTask {
    if c.CallResolve? then Draft.SettleFulfil(0, c.arg) else Draft.SettleReject(0, c.arg)
  }

  function DraftSubscribed(h: Value -> Completion, g: Value -> Completion): Draft.DraftRecord {
    Draft.Fresh.(onFulfilledCallback := [h], onRejectedCallback := [g])
  }

  function DraftSettled(h: Value -> Completion, g: Value -> Completion, c: Call): Draft.DraftRecord {
    var r := DraftSubscribed(h, g);
    if c.CallResolve? then r.(status := Fulfilled, value := c.arg) else r.(status := Rejected, reason := c.arg)
  }

  lemma DraftStart(c: Call)
    ensures Draft.Apply(Draft.Empty, Draft.NewPromise(Script([c], Returns))) == Draft.DraftState([Draft.Fresh], [DraftSettleTask(c)], [])
    ensures Draft.Valid(Draft.DraftState([Draft.Fresh], [DraftSettleTask(c)], []))
  {
    assert Draft.Construct(Draft.Empty, Script([c], Returns)).0 == Draft.DraftState([Draft.Fresh], [DraftSettleTask(c)], []);
  }

  lemma DraftSubscribe(h: Value -> Completion, g: Value -> Completion, c: Call)
    requires Draft.Valid(Draft.DraftState([Draft.Fresh], [DraftSettleTask(c)], []))
    ensures Draft.Apply(Draft.DraftState([Draft.Fresh], [DraftSettleTask(c)], []), Draft.ThenOp(0, Fn(h), Fn(g)))
            == Draft.DraftState([DraftSubscribed(h, g), Draft.Fresh], [DraftSettleTask(c)], [])
    ensures Draft.Valid(Draft.DraftState([DraftSubscribed(h, g), Draft.Fresh], [DraftSettleTask(c)], []))
  {
    var t := Draft.Then(Draft.DraftState([Draft.Fresh], [DraftSettleTask(c)], []), 0, Fn(h), Fn(g)).0;
    assert |t.heap| == 2 && t.heap[0] == DraftSubscribed(h, g) && t.heap[1] == Draft.Fresh;
  }

  lemma DraftSettleFirst(h: Value -> Completion, g: Value -> Completion, c: Call)
    requires Draft.Valid(Draft.DraftState([DraftSubscribed(h, g), Draft.Fresh], [DraftSettleTask(c)], []))
    ensures Draft.Apply(Draft.DraftState([DraftSubscribed(h, g), Draft.Fresh], [DraftSettleTask(c)], []), Draft.Tick)
            == Draft.DraftState([DraftSettled(h, g, c), Draft.Fresh], [],
                                if c.CallResolve? then [Draft.Invocation(h, c.arg, h(c.arg))] else [Draft.Invocation(g, c.arg, g(c.arg))])
  {
    var s2 := Draft.DraftState([DraftSubscribed(h, g), Draft.Fresh], [DraftSettleTask(c)], []);
    assert s2.tasks[1..] == [];
    var t := Draft.Step(s2);
    assert t == Draft.SettleBody(s2.(tasks := []), 0, c.CallResolve?, c.arg);
    if c.CallResolve? {
      OneCallback(h, c.arg);
      assert t.log == [] + Draft.Calls([h], c.arg);
    } else {
      OneCallback(g, c.arg);
      assert t.log == [] + Draft.Calls([g], c.arg);
    }
    assert |t.heap| == 2 && t.heap[0] == DraftSettled(h, g, c) && t.heap[1] == Draft.Fresh;
  }

  /** index.ts, either chain of test/1.ts: p0 = new MyPromise(executor making call `c`),
      p1 = p0.then(h, g), one turn: the handler for the outcome is called once, with the
      payload, and p1, which the draft `then` returned, is pending. */
  lemma DraftChain(h: Value -> Completion, g: Value -> Completion, c: Call)
    ensures var t := Draft.Run(Draft.Empty, [Draft.NewPromise(Script([c], Returns)), Draft.ThenOp(0, Fn(h), Fn(g)), Draft.Tick]);
            && |t.heap| == 2 && t.tasks == []
            && t.heap[0].status == (if c.CallResolve? then Fulfilled else Rejected)
            && t.log == (if c.CallResolve? then [Draft.Invocation(h, c.arg, h(c.arg))] else [Draft.Invocation(g, c.arg, g(c.arg))])
            && t.heap[1].status == Pending
  {
    var ops := [Draft.NewPromise(Script([c], Returns)), Draft.ThenOp(0, Fn(h), Fn(g)), Draft.Tick];
    var s1 := Draft.DraftState([Draft.Fresh], [DraftSettleTask(c)], []);
    var s2 := Draft.DraftState([DraftSubscribed(h, g), Draft.Fresh], [DraftSettleTask(c)], []);
    DraftStart(c);
    DraftSubscribe(h, g, c);
    DraftSettleFirst(h, g, c);
    var o1, o2 := ops[1..], ops[2..];
    assert o1[0] == ops[1] && o1[1..] == o2 && o2[0] == ops[2] && o2[1..] == [];
    DraftRunUnfolds(Draft.Empty, ops);
    DraftRunUnfolds(s1, o1);
    DraftRunUnfolds(s2, o2);
  }
}
