/** The JavaScript values a MyPromise can hold or be resolved with, tagged by what
    `instanceof MyPromise`, `typeof` and reading the `then` member can observe of them,
    together with the scripted behaviour of the user code the promise calls into. */
module Values {

  /** Promises live in a heap; a promise is named by its index there. */
  type PromiseId = nat

  /** The three states of a promise (the `Status` enum of both index.js and index.ts). */
  datatype Status = Pending | Fulfilled | Rejected

  /** A JavaScript value. */
  datatype Value =
    | Undefined
    | Null
      /** any other primitive (string, number, boolean, ...), written as its literal */
    | Prim(literal: string)
      /** a non-null object or a function that is not a MyPromise; `thenMember` says what reading
          its `then` member does */
    | Obj(identity: nat, thenMember: ThenMember)
      /** an instance of MyPromise */
    | Own(id: PromiseId)
      /** the TypeError created for a chaining cycle: an object without a `then` member */
    | ChainingCycleError

  /** What evaluating `x.then` on an object does. */
  datatype ThenMember =
      /** yields `undefined` or any other value that is not a function */
    | NotCallable
      /** the getter of `then` throws `error` */
    | GetterThrows(error: Value)
      /** yields a function; calling it runs `script` */
    | Callable(script: Script)

  /** A call that user code makes on the resolve/reject pair it was handed. */
  datatype Call = CallResolve(arg: Value) | CallReject(arg: Value)

  /** How user code that was handed a resolve/reject pair finishes. */
  datatype Ending = Returns | Throws(error: Value)

  /** The scripted behaviour of an executor or of a foreign `then` method: the calls it
      makes synchronously, in order, and how it finishes. */
  datatype Script = Script(calls: seq<Call>, ending: Ending)

  /** The result of calling a function: a returned value or a thrown one. */
  datatype Outcome<T> = Returned(value: T) | Threw(error: Value)

  type Completion = Outcome<Value>

  /** An argument of `then`: a function, or any value that is not one. */
  datatype Callback = Fn(call: Value -> Completion) | NotFn

  predicate IsFunction(c: Callback) {
    c.Fn?
  }

  /** `then` keeps a function `onFulfilled` and replaces anything else by the identity. */
  function OnFulfilledOrIdentity(c: Callback): (h: Value -> Completion)
    ensures IsFunction(c) ==> h == c.call
    ensures !IsFunction(c) ==> forall v :: h(v) == Returned(v)
  {
    if IsFunction(c) then c.call else v => Returned(v)
  }

  /** `then` keeps a function `onRejected` and replaces anything else by a function that
      throws its argument. */
  function OnRejectedOrRethrow(c: Callback): (h: Value -> Completion)
    ensures IsFunction(c) ==> h == c.call
    ensures !IsFunction(c) ==> forall v :: h(v) == Threw(v)
  {
    if IsFunction(c) then c.call else v => Threw(v)
  }

  /** `isPromise` of index.ts: `value` is a non-null object or a function and its `then`
      member is a function. Reading `then` runs its getter, so a throwing getter makes
      `isPromise` throw. Primitives are rejected before `then` is read. */
  function IsPromise(v: Value): (r: Outcome<bool>)
    ensures r == Returned(true) <==> (v.Own? || (v.Obj? && v.thenMember.Callable?))
    ensures r.Threw? <==> (v.Obj? && v.thenMember.GetterThrows?)
    ensures r.Threw? ==> r.error == v.thenMember.error
  {
    match v
    case Own(_) => Returned(true)
    case Obj(_, member) =>
      (match member
       case NotCallable => Returned(false)
       case GetterThrows(e) => Threw(e)
       case Callable(_) => Returned(true))
    case ChainingCycleError => Returned(false)
    case _ => Returned(false)
  }

  /** The tasks an executor's synchronous calls schedule: one per call, in call order, each
      the task `settle` makes of that call. */
  function ExecutorTasks<T>(settle: Call -> T, calls: seq<Call>): (ts: seq<T>)
    ensures |ts| == |calls|
    ensures forall i | 0 <= i < |calls| :: ts[i] == settle(calls[i])
  {
    if calls == [] then [] else [settle(calls[0])] + ExecutorTasks(settle, calls[1..])
  }

  /** Unfolds `ExecutorTasks` by one call, after the tasks already scheduled. */
  lemma ExecutorTasksStep<T>(before: seq<T>, settle: Call -> T, calls: seq<Call>, i: nat)
    requires i < |calls|
    ensures before + [settle(calls[i])] + ExecutorTasks(settle, calls[i + 1..]) == before + ExecutorTasks(settle, calls[i..])
  {
    assert calls[i..][1..] == calls[i + 1..];
  }

  /** A measure on values that shrinks from a thenable to the values its `then` method
      passes to the resolve callback; the resolution procedure recurses along it. */
  function Size(v: Value): nat
    decreases v
  {
    match v
    case Obj(_, Callable(script)) => 1 + CallsSize(script.calls)
    case _ => 1
  }

  function CallsSize(calls: seq<Call>): nat
    decreases calls
  {
    if calls == [] then 0 else 1 + CallSize(calls[0]) + CallsSize(calls[1..])
  }

  function CallSize(c: Call): nat
    decreases c
  {
    Size(c.arg)
  }

  /** Every value a script passes to a callback is smaller than the script's total size. */
  lemma {:induction false} ArgSmaller(calls: seq<Call>, i: nat)
    requires i < |calls|
    ensures CallSize(calls[i]) == Size(calls[i].arg) < CallsSize(calls)
    ensures CallsSize(calls[i + 1..]) < CallsSize(calls)
  {
    if i > 0 {
      ArgSmaller(calls[1..], i - 1);
      assert calls[1..][i - 1] == calls[i];
      assert calls[1..][i..] == calls[i + 1..];
    }
  }
}
