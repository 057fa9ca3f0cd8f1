/** The promise scheduler: one queue of tasks, drained on a later turn, that tasks themselves extend. */
module Promises {
  import opened Wrappers

  /** Handlers and promises are named by numbers; a handler is what one call of `then` registers. */
  datatype Task = Task(promise: nat, handlers: seq<nat>, value: int)

  /** A promise keeps its consumers until it has a value. */
  datatype Promise = Promise(value: Option<int>, consumers: seq<nat>)

  /** A drain in progress: the queue index it reads next, and the task it is in, with the handlers left in it. */
  datatype Drain = Drain(next: nat, current: Option<Task>)

  datatype Delivery = Delivery(handler: nat, value: int)

  /** `scheduled` counts the drains handed to nextTick and not begun. The last two fields are histories:
      what was registered with each promise, and what was delivered by it. */
  datatype World = World(queue: seq<Task>, scheduled: nat, drain: Option<Drain>, promises: map<nat, Promise>,
                         registered: map<nat, seq<nat>>, delivered: map<nat, seq<Delivery>>)

  datatype Step =
    | Create(p: nat)
    | Then(p: nat, handler: nat)
    | Resolve(p: nat, v: int)
    | BeginDrain
    | ContinueDrain

  predicate Enabled(w: World, step: Step) {
    match step
    case Create(p) => p !in w.promises
    case Then(p, handler) => p in w.promises && p in w.registered
    case Resolve(p, v) => p in w.promises
    case BeginDrain => w.scheduled > 0 && w.drain.None?
    case ContinueDrain => CanContinue(w)
  }

  predicate CanContinue(w: World) {
    w.drain.Some? && (w.drain.value.current.Some? ==> w.drain.value.current.value.promise in w.delivered)
  }

  function Enqueue(w: World, task: Task): World {
    w.(queue := w.queue + [task], scheduled := if |w.queue| == 0 then w.scheduled + 1 else w.scheduled)
  }

  function AfterThen(w: World, p: nat, handler: nat): World
    requires p in w.promises && p in w.registered
  {
    var noted := w.(registered := w.registered[p := w.registered[p] + [handler]]);
    var promise := w.promises[p];
    if promise.value.None? then
      noted.(promises := w.promises[p := promise.(consumers := promise.consumers + [handler])])
    else Enqueue(noted, Task(p, [handler], promise.value.value))
  }

  function AfterResolve(w: World, p: nat, v: int): World
    requires p in w.promises
  {
    if w.promises[p].value.Some? then w
    else Enqueue(w.(promises := w.promises[p := Promise(Some(v), [])]), Task(p, w.promises[p].consumers, v))
  }

  function AfterContinue(w: World): World
    requires CanContinue(w)
  {
    var d := w.drain.value;
    if d.current.Some? && d.current.value.handlers != [] then
      var task := d.current.value;
      w.(drain := Some(d.(current := Some(task.(handlers := task.handlers[1..])))),
         delivered := w.delivered[task.promise := w.delivered[task.promise] + [Delivery(task.handlers[0], task.value)]])
    else if d.next < |w.queue| then w.(drain := Some(Drain(d.next + 1, Some(w.queue[d.next]))))
    else w.(queue := [], drain := None)
  }

  function Apply(w: World, step: Step): World
    requires Enabled(w, step)
  {
    match step
    case Create(p) =>
      w.(promises := w.promises[p := Promise(None, [])], registered := w.registered[p := []],
         delivered := w.delivered[p := []])
    case Then(p, handler) => AfterThen(w, p, handler)
    case Resolve(p, v) => AfterResolve(w, p, v)
    case BeginDrain => w.(scheduled := w.scheduled - 1, drain := Some(Drain(0, None)))
    case ContinueDrain => AfterContinue(w)
  }

  // ----- Invariant -----

  /** The handlers that tasks of promise `p` will still run, in queue order. */
  function Awaiting(tasks: seq<Task>, p: nat): seq<nat>
    decreases |tasks|
  {
    if tasks == [] then []
    else
      var last := tasks[|tasks| - 1];
      Awaiting(tasks[..|tasks| - 1], p) + (if last.promise == p then last.handlers else [])
  }

  function Handlers(deliveries: seq<Delivery>): (r: seq<nat>)
    ensures |r| == |deliveries| && forall i :: 0 <= i < |r| ==> r[i] == deliveries[i].handler
  {
    seq(|deliveries|, i requires 0 <= i < |deliveries| => deliveries[i].handler)
  }

  /** The tasks not begun. */
  function Waiting(w: World): seq<Task> {
    if w.drain.Some? && w.drain.value.next <= |w.queue| then w.queue[w.drain.value.next..] else w.queue
  }

  function InHand(w: World, p: nat): seq<nat> {
    if w.drain.Some? && w.drain.value.current.Some? && w.drain.value.current.value.promise == p
    then w.drain.value.current.value.handlers else []
  }

  /** A non-empty queue has exactly one drain, scheduled or running; an empty one has none. */
  predicate OneDrain(w: World) {
    w.scheduled + (if w.drain.Some? then 1 else 0) == (if w.queue == [] then 0 else 1)
    && (w.drain.Some? ==> w.drain.value.next <= |w.queue|)
  }

  /** The tasks and deliveries of a promise carry its value. */
  ghost predicate Truthful(w: World) {
    && (forall i :: 0 <= i < |w.queue| ==> Carries(w, w.queue[i].promise, w.queue[i].value))
    && (w.drain.Some? && w.drain.value.current.Some? ==>
        Carries(w, w.drain.value.current.value.promise, w.drain.value.current.value.value))
    && (forall p, i :: p in w.delivered && 0 <= i < |w.delivered[p]| ==> Carries(w, p, w.delivered[p][i].value))
  }

  predicate Carries(w: World, p: nat, v: int) {
    p in w.promises && w.promises[p].value == Some(v)
  }

  /** What promise `p` has delivered, has in hand, has queued and still keeps is what was registered, in order. */
  predicate InOrder(w: World, p: nat)
    requires p in w.promises && p in w.delivered && p in w.registered
  {
    w.registered[p] == Handlers(w.delivered[p]) + InHand(w, p) + Awaiting(Waiting(w), p) + w.promises[p].consumers
    && (w.promises[p].value.Some? ==> w.promises[p].consumers == [])
  }

  ghost predicate Inv(w: World) {
    && w.delivered.Keys == w.promises.Keys && w.registered.Keys == w.promises.Keys
    && OneDrain(w) && Truthful(w)
    && forall p :: p in w.promises ==> InOrder(w, p)
  }

  lemma AwaitingPush(tasks: seq<Task>, task: Task, p: nat)
    ensures Awaiting(tasks + [task], p) == Awaiting(tasks, p) + (if task.promise == p then task.handlers else [])
  {
  }

  lemma {:induction false} AwaitingPop(tasks: seq<Task>, p: nat)
    requires tasks != []
    ensures Awaiting(tasks, p) == (if tasks[0].promise == p then tasks[0].handlers else []) + Awaiting(tasks[1..], p)
    decreases |tasks|
  {
    var front, last := tasks[..|tasks| - 1], tasks[|tasks| - 1];
    if |tasks| == 1 {
      assert front == [] && tasks[1..] == [];
    } else {
      AwaitingPop(front, p);
      assert tasks == front + [last] && tasks[1..] == front[1..] + [last];
      AwaitingPush(front, last, p);
      AwaitingPush(front[1..], last, p);
      hide Awaiting;
      Associative(if tasks[0].promise == p then tasks[0].handlers else [], Awaiting(front[1..], p),
                  if last.promise == p then last.handlers else []);
    }
  }

  /** No task of an unsettled promise is queued, in hand or delivered. */
  lemma {:induction false} NothingAwaits(tasks: seq<Task>, p: nat)
    requires forall i :: 0 <= i < |tasks| ==> tasks[i].promise != p
    ensures Awaiting(tasks, p) == []
    decreases |tasks|
  {
    if tasks != [] {
      NothingAwaits(tasks[..|tasks| - 1], p);
    }
  }

  // ----- Every step keeps the invariant -----

  lemma EnqueueKeeps(w: World, t: World, task: Task)
    requires OneDrain(w) && Truthful(w)
    requires t.queue == w.queue && t.scheduled == w.scheduled && t.drain == w.drain && t.delivered == w.delivered
    requires forall p, v :: Carries(w, p, v) ==> Carries(t, p, v)
    requires Carries(t, task.promise, task.value)
    ensures OneDrain(Enqueue(t, task)) && Truthful(Enqueue(t, task))
    ensures Waiting(Enqueue(t, task)) == Waiting(w) + [task]
  {
  }

  lemma CreateKeeps(w: World, p: nat)
    requires Inv(w) && p !in w.promises
    ensures Inv(Apply(w, Create(p)))
  {
    var t := Apply(w, Create(p));
    forall q, v | Carries(w, q, v)
      ensures Carries(t, q, v)
    {
    }
    assert Truthful(t) by {
      forall i | 0 <= i < |t.queue|
        ensures Carries(t, t.queue[i].promise, t.queue[i].value)
      {
        assert Carries(w, w.queue[i].promise, w.queue[i].value);
      }
      forall q, i | q in t.delivered && 0 <= i < |t.delivered[q]|
        ensures Carries(t, q, t.delivered[q][i].value)
      {
        assert q != p && Carries(w, q, w.delivered[q][i].value);
      }
    }
    forall q | q in t.promises
      ensures InOrder(t, q)
    {
      if q != p {
        assert InOrder(w, q);
      } else {
        forall i | 0 <= i < |Waiting(w)|
          ensures Waiting(w)[i].promise != p
        {
          var k := if w.drain.Some? then i + w.drain.value.next else i;
          assert Carries(w, w.queue[k].promise, w.queue[k].value);
        }
        NothingAwaits(Waiting(t), p);
      }
    }
  }

  lemma ThenKeeps(w: World, p: nat, handler: nat)
    requires Inv(w) && p in w.promises
    ensures Inv(AfterThen(w, p, handler))
  {
    if w.promises[p].value.Some? {
      ThenSettledKeeps(w, p, handler);
    } else {
      ThenPendingKeeps(w, p, handler);
    }
  }

  /** A promise nothing happened to stays in order. */
  lemma SameOrder(w: World, t: World, q: nat)
    requires q in w.promises && q in w.delivered && q in w.registered && InOrder(w, q)
    requires q in t.promises && q in t.delivered && q in t.registered
    requires t.promises[q] == w.promises[q] && t.delivered[q] == w.delivered[q] && t.registered[q] == w.registered[q]
    requires InHand(t, q) == InHand(w, q) && Awaiting(Waiting(t), q) == Awaiting(Waiting(w), q)
    ensures InOrder(t, q)
  {
  }

  /** Registering `more` with a promise, when what it keeps or has queued grows by `more`. */
  lemma MoreInOrder(w: World, t: World, p: nat, more: seq<nat>)
    requires p in w.promises && p in w.delivered && p in w.registered && InOrder(w, p)
    requires p in t.promises && p in t.delivered && p in t.registered
    requires t.delivered[p] == w.delivered[p] && t.registered[p] == w.registered[p] + more
             && InHand(t, p) == InHand(w, p)
    requires Awaiting(Waiting(t), p) + t.promises[p].consumers ==
             (Awaiting(Waiting(w), p) + w.promises[p].consumers) + more
    requires t.promises[p].value.Some? ==> t.promises[p].consumers == []
    ensures InOrder(t, p)
  {
    hide InHand, Waiting, Awaiting, Handlers;
    var done := Handlers(w.delivered[p]) + InHand(w, p);
    Associative(done, Awaiting(Waiting(w), p), w.promises[p].consumers);
    Associative(done, Awaiting(Waiting(w), p) + w.promises[p].consumers, more);
    Associative(done, Awaiting(Waiting(t), p), t.promises[p].consumers);
  }

  lemma Associative(a: seq<nat>, b: seq<nat>, c: seq<nat>)
    ensures (a + b) + c == a + (b + c)
  {
  }

  /** After queueing `task`: its promise's registrations have grown by `more`, or its consumers have
      become the task; every other promise is untouched. */
  lemma EnqueuedOrder(w: World, mid: World, task: Task, q: nat, more: seq<nat>)
    requires q in w.promises && q in w.delivered && q in w.registered && InOrder(w, q)
    requires q in mid.promises && q in mid.delivered && q in mid.registered
    requires mid.drain == w.drain && mid.delivered[q] == w.delivered[q] && mid.registered[q] == w.registered[q] + more
    requires Waiting(Enqueue(mid, task)) == Waiting(w) + [task]
    requires q != task.promise ==> more == [] && mid.promises[q] == w.promises[q]
    requires q == task.promise ==> mid.promises[q].consumers == [] && w.promises[q].consumers + more == task.handlers
    ensures InOrder(Enqueue(mid, task), q)
  {
    var t := Enqueue(mid, task);
    assert InHand(t, q) == InHand(w, q);
    AwaitingPush(Waiting(w), task, q);
    hide InHand, Waiting, Awaiting, Handlers, Enqueue;
    var before := Awaiting(Waiting(w), q);
    assert t.promises[q].value.Some? ==> t.promises[q].consumers == [] by {
      assert t.promises == mid.promises;
    }
    if q == task.promise {
      Associative(before, w.promises[q].consumers, more);
      EmptyTail(before + task.handlers, []);
      MoreInOrder(w, t, q, more);
    } else {
      EmptyTail(before, []);
      EmptyTail(w.registered[q], []);
      SameOrder(w, t, q);
    }
  }

  function Noted(w: World, p: nat, handler: nat): World
    requires p in w.registered
  {
    w.(registered := w.registered[p := w.registered[p] + [handler]])
  }

  lemma ThenSettledTrue(w: World, p: nat, handler: nat)
    requires Inv(w) && p in w.promises && w.promises[p].value.Some?
    ensures var task := Task(p, [handler], w.promises[p].value.value);
            var t := Enqueue(Noted(w, p, handler), task);
            AfterThen(w, p, handler) == t && OneDrain(t) && Truthful(t) && Waiting(t) == Waiting(w) + [task]
  {
  }

  lemma ThenSettledKeeps(w: World, p: nat, handler: nat)
    requires Inv(w) && p in w.promises && w.promises[p].value.Some?
    ensures Inv(AfterThen(w, p, handler))
  {
    ThenSettledTrue(w, p, handler);
    var task := Task(p, [handler], w.promises[p].value.value);
    var t := AfterThen(w, p, handler);
    SettledKeepsNone(w, p);
    forall q | q in w.promises
      ensures InOrder(t, q)
    {
      ThenSettledOrder(w, p, handler, q);
    }
    hide Truthful, OneDrain, Waiting, InOrder, AfterThen;
    assert t.promises == w.promises && t.delivered == w.delivered;
  }

  lemma ThenSettledOrder(w: World, p: nat, handler: nat, q: nat)
    requires Inv(w) && p in w.promises && w.promises[p].value.Some? && q in w.promises
    ensures InOrder(AfterThen(w, p, handler), q)
  {
    ThenSettledTrue(w, p, handler);
    assert InOrder(w, p) && InOrder(w, q);
    hide Truthful, OneDrain, Waiting, AfterThen, Inv, InHand, Awaiting;
    EmptyTail(w.registered[q], []);
    assert [] + [handler] == [handler];
    EnqueuedOrder(w, Noted(w, p, handler), Task(p, [handler], w.promises[p].value.value), q,
                  if q == p then [handler] else []);
  }

  lemma EmptyTail(a: seq<nat>, b: seq<nat>)
    ensures a + [] == a && (a + b) + [] == (a + []) + b
  {
  }

  lemma SettledKeepsNone(w: World, p: nat)
    requires p in w.promises && p in w.delivered && p in w.registered && InOrder(w, p) && w.promises[p].value.Some?
    ensures w.promises[p].consumers == []
  {
  }

  lemma ThenPendingTrue(w: World, p: nat, handler: nat)
    requires Inv(w) && p in w.promises && w.promises[p].value.None?
    ensures var t := AfterThen(w, p, handler); Truthful(t) && OneDrain(t) && Waiting(t) == Waiting(w)
  {
    var t := AfterThen(w, p, handler);
    hide InOrder;
    assert forall q, v :: Carries(w, q, v) ==> Carries(t, q, v);
    TruthKept(w, t);
  }

  lemma ThenPendingKeeps(w: World, p: nat, handler: nat)
    requires Inv(w) && p in w.promises && w.promises[p].value.None?
    ensures Inv(AfterThen(w, p, handler))
  {
    var t := AfterThen(w, p, handler);
    ThenPendingTrue(w, p, handler);
    hide Truthful, OneDrain, Awaiting, Waiting, InOrder, Handlers;
    forall q | q in t.promises
      ensures InOrder(t, q)
    {
      if q == p {
        Associative(Awaiting(Waiting(w), p), w.promises[p].consumers, [handler]);
        MoreInOrder(w, t, p, [handler]);
      } else {
        SameOrder(w, t, q);
      }
    }
  }

  lemma TruthKept(w: World, t: World)
    requires Truthful(w) && t.queue == w.queue && t.drain == w.drain && t.delivered == w.delivered
    requires forall p, v :: Carries(w, p, v) ==> Carries(t, p, v)
    ensures Truthful(t)
  {
  }

  function Settled(w: World, p: nat, v: int): World {
    w.(promises := w.promises[p := Promise(Some(v), [])])
  }

  lemma ResolveTrue(w: World, p: nat, v: int)
    requires Inv(w) && p in w.promises && w.promises[p].value.None?
    ensures var task := Task(p, w.promises[p].consumers, v);
            var t := Enqueue(Settled(w, p, v), task);
            AfterResolve(w, p, v) == t && OneDrain(t) && Truthful(t) && Waiting(t) == Waiting(w) + [task]
  {
    assert forall q, u :: Carries(w, q, u) ==> Carries(Settled(w, p, v), q, u);
    EnqueueKeeps(w, Settled(w, p, v), Task(p, w.promises[p].consumers, v));
  }

  lemma ResolveOrder(w: World, p: nat, v: int, q: nat)
    requires Inv(w) && p in w.promises && w.promises[p].value.None? && q in w.promises
    ensures InOrder(AfterResolve(w, p, v), q)
  {
    ResolveTrue(w, p, v);
    assert InOrder(w, q);
    hide Truthful, OneDrain, Waiting, AfterResolve, Inv, InHand, Awaiting;
    EmptyTail(w.registered[q], []);
    EmptyTail(w.promises[p].consumers, []);
    EnqueuedOrder(w, Settled(w, p, v), Task(p, w.promises[p].consumers, v), q, []);
  }

  lemma ResolveKeeps(w: World, p: nat, v: int)
    requires Inv(w) && p in w.promises
    ensures Inv(AfterResolve(w, p, v))
  {
    if w.promises[p].value.None? {
      ResolveTrue(w, p, v);
      forall q | q in w.promises
        ensures InOrder(AfterResolve(w, p, v), q)
      {
        ResolveOrder(w, p, v, q);
      }
      hide Truthful, OneDrain, Waiting, InOrder, AfterResolve;
      assert AfterResolve(w, p, v).promises.Keys == w.promises.Keys;
    }
  }

  lemma BeginKeeps(w: World)
    requires Inv(w) && Enabled(w, BeginDrain)
    ensures Inv(Apply(w, BeginDrain))
  {
  }

  lemma DeliverTrue(w: World)
    requires Inv(w) && CanContinue(w) && w.drain.value.current.Some? && w.drain.value.current.value.handlers != []
    ensures var t := AfterContinue(w); Truthful(t) && OneDrain(t) && Waiting(t) == Waiting(w)
  {
    hide InOrder, Awaiting;
    var t := AfterContinue(w);
    var task := w.drain.value.current.value;
    var p := task.promise;
    assert Carries(w, p, task.value);
    forall i | 0 <= i < |t.queue|
      ensures Carries(t, t.queue[i].promise, t.queue[i].value)
    {
      assert Carries(w, w.queue[i].promise, w.queue[i].value);
    }
    forall q, i | q in t.delivered && 0 <= i < |t.delivered[q]|
      ensures Carries(t, q, t.delivered[q][i].value)
    {
      if q != p || i < |w.delivered[p]| {
        assert Carries(w, q, w.delivered[q][i].value);
      }
    }
  }

  lemma DeliverKeeps(w: World)
    requires Inv(w) && CanContinue(w) && w.drain.value.current.Some? && w.drain.value.current.value.handlers != []
    ensures Inv(AfterContinue(w))
  {
    var t := AfterContinue(w);
    var task := w.drain.value.current.value;
    var p := task.promise;
    assert Carries(w, p, task.value);
    DeliverTrue(w);
    hide Truthful, OneDrain, Awaiting, Waiting, InOrder;
    forall q | q in t.promises
      ensures InOrder(t, q)
    {
      if q == p {
        assert Handlers(t.delivered[p]) == Handlers(w.delivered[p]) + [task.handlers[0]];
        assert task.handlers == [task.handlers[0]] + task.handlers[1..];
        Associative(Handlers(w.delivered[p]), [task.handlers[0]], task.handlers[1..]);
        HandedOver(w, t, p);
      } else {
        SameOrder(w, t, q);
      }
    }
  }

  /** Delivering moves the first handler in hand to what is delivered. */
  lemma HandedOver(w: World, t: World, p: nat)
    requires p in w.promises && p in w.delivered && p in w.registered && InOrder(w, p)
    requires p in t.promises && p in t.delivered && p in t.registered && t.promises[p] == w.promises[p]
             && t.registered[p] == w.registered[p]
    requires Handlers(t.delivered[p]) + InHand(t, p) == Handlers(w.delivered[p]) + InHand(w, p)
    requires Awaiting(Waiting(t), p) == Awaiting(Waiting(w), p)
    ensures InOrder(t, p)
  {
  }

  lemma LoadKeeps(w: World)
    requires Inv(w) && CanContinue(w) && w.drain.value.next < |w.queue|
    requires w.drain.value.current.Some? ==> w.drain.value.current.value.handlers == []
    ensures Inv(AfterContinue(w))
  {
    var d := w.drain.value;
    var t := AfterContinue(w);
    assert Carries(w, w.queue[d.next].promise, w.queue[d.next].value);
    assert forall p, v :: Carries(w, p, v) ==> Carries(t, p, v);
    TruthKept(w, t.(drain := w.drain));
    assert Truthful(t);
    assert Waiting(w)[0] == w.queue[d.next] && Waiting(w)[1..] == Waiting(t);
    hide Truthful, Awaiting, Waiting, OneDrain, InOrder;
    forall q | q in t.promises
      ensures InOrder(t, q)
    {
      AwaitingPop(Waiting(w), q);
      Loaded(w, t, q);
    }
  }

  /** Loading a task moves its handlers from what is queued to what is in hand. */
  lemma Loaded(w: World, t: World, p: nat)
    requires p in w.promises && p in w.delivered && p in w.registered && InOrder(w, p)
    requires p in t.promises && p in t.delivered && p in t.registered && t.promises[p] == w.promises[p]
             && t.registered[p] == w.registered[p]
    requires t.delivered[p] == w.delivered[p] && InHand(w, p) == []
             && Awaiting(Waiting(w), p) == InHand(t, p) + Awaiting(Waiting(t), p)
    ensures InOrder(t, p)
  {
  }

  lemma FinishKeeps(w: World)
    requires Inv(w) && CanContinue(w) && w.drain.value.next >= |w.queue|
    requires w.drain.value.current.Some? ==> w.drain.value.current.value.handlers == []
    ensures Inv(AfterContinue(w))
  {
  }

  lemma StepKeeps(w: World, step: Step)
    requires Inv(w) && Enabled(w, step)
    ensures Inv(Apply(w, step))
  {
    match step
    case Create(p) => CreateKeeps(w, p);
    case Then(p, handler) => ThenKeeps(w, p, handler);
    case Resolve(p, v) => ResolveKeeps(w, p, v);
    case BeginDrain => BeginKeeps(w);
    case ContinueDrain =>
      if w.drain.value.current.Some? && w.drain.value.current.value.handlers != [] {
        DeliverKeeps(w);
      } else if w.drain.value.next < |w.queue| {
        LoadKeeps(w);
      } else {
        FinishKeeps(w);
      }
  }

  // ----- Whole runs -----

  ghost predicate Run(w: World, steps: seq<Step>)
    decreases |steps|
  {
    steps == [] || (Enabled(w, steps[0]) && Run(Apply(w, steps[0]), steps[1..]))
  }

  ghost function After(w: World, steps: seq<Step>): World
    requires Run(w, steps)
    decreases |steps|
  {
    if steps == [] then w else After(Apply(w, steps[0]), steps[1..])
  }

  function Beginning(): World {
    World([], 0, None, map[], map[], map[])
  }

  lemma ValuesStay(w: World, step: Step)
    requires Enabled(w, step)
    ensures forall p, v :: Carries(w, p, v) ==> Carries(Apply(w, step), p, v)
  {
  }

  lemma {:induction false} RunKeeps(w: World, steps: seq<Step>)
    requires Inv(w) && Run(w, steps)
    ensures Inv(After(w, steps))
    ensures forall p, v :: Carries(w, p, v) ==> Carries(After(w, steps), p, v)
    decreases |steps|
  {
    hide Inv, Apply, Enabled, Carries;
    if steps != [] {
      StepKeeps(w, steps[0]);
      ValuesStay(w, steps[0]);
      RunKeeps(Apply(w, steps[0]), steps[1..]);
    }
  }

  /** A promise settles at most once: whatever follows, it keeps the first value it was given. */
  lemma SettlesOnce(steps: seq<Step>, later: seq<Step>, p: nat, v: int)
    requires Run(Beginning(), steps) && Carries(After(Beginning(), steps), p, v)
             && Run(After(Beginning(), steps), later)
    ensures Carries(After(After(Beginning(), steps), later), p, v)
  {
    RunKeeps(Beginning(), steps);
    RunKeeps(After(Beginning(), steps), later);
  }

  // ----- What is run -----

  /** The promise whose handler the next step of a drain runs, and what is handed to it, if it runs any. */
  function Ran(w: World): Option<(nat, Delivery)> {
    if w.drain.Some? && w.drain.value.current.Some? && w.drain.value.current.value.handlers != [] then
      var task := w.drain.value.current.value;
      Some((task.promise, Delivery(task.handlers[0], task.value)))
    else None
  }

  /** The handlers a run has run, in order. */
  ghost function RanBy(w: World, steps: seq<Step>): seq<(nat, Delivery)>
    requires Run(w, steps)
    decreases |steps|
  {
    if steps == [] then []
    else
      (if steps[0].ContinueDrain? && Ran(w).Some? then [Ran(w).value] else []) +
      RanBy(Apply(w, steps[0]), steps[1..])
  }

  /** What was handed to the handlers of one promise. */
  function Of(calls: seq<(nat, Delivery)>, p: nat): seq<Delivery> {
    if calls == [] then [] else (if calls[0].0 == p then [calls[0].1] else []) + Of(calls[1..], p)
  }

  lemma OfNothing(p: nat)
    ensures Of([], p) == []
  {
  }

  lemma {:induction false} OfSplit(a: seq<(nat, Delivery)>, b: seq<(nat, Delivery)>, p: nat)
    ensures Of(a + b, p) == Of(a, p) + Of(b, p)
    decreases |a|
  {
    if a == [] {
      assert a + b == b;
    } else {
      OfSplit(a[1..], b, p);
      assert (a + b)[1..] == a[1..] + b && (a + b)[0] == a[0];
      var head := if a[0].0 == p then [a[0].1] else [];
      assert Of(a + b, p) == head + Of(a[1..] + b, p);
      assert head + (Of(a[1..], p) + Of(b, p)) == (head + Of(a[1..], p)) + Of(b, p);
    }
  }

  /** The deliveries recorded for promise `p`; none before it is created. */
  function Recorded(w: World, p: nat): seq<Delivery> {
    if p in w.delivered then w.delivered[p] else []
  }

  lemma SameKeys(w: World)
    requires Inv(w)
    ensures w.delivered.Keys == w.promises.Keys
  {
  }

  /** One step records exactly what it runs. */
  lemma StepRecords(w: World, step: Step, p: nat)
    requires w.delivered.Keys == w.promises.Keys && Enabled(w, step)
    ensures Recorded(Apply(w, step), p) ==
            Recorded(w, p) + (if step.ContinueDrain? && Ran(w).Some? then Of([Ran(w).value], p) else [])
  {
    if step.ContinueDrain? && Ran(w).Some? {
      OfOne(Ran(w).value, p);
    }
  }

  lemma OfOne(call: (nat, Delivery), p: nat)
    ensures Of([call], p) == if call.0 == p then [call.1] else []
  {
    assert [call][1..] == [];
  }

  /** Over any run, the deliveries recorded for a promise are exactly what was run for it, in order. */
  lemma {:induction false} RunRecords(w: World, steps: seq<Step>, p: nat)
    requires Inv(w) && Run(w, steps)
    ensures Recorded(After(w, steps), p) == Recorded(w, p) + Of(RanBy(w, steps), p)
    decreases |steps|
  {
    hide Inv, Apply, Enabled, Recorded, Ran, Of;
    OfNothing(p);
    if steps != [] {
      StepKeeps(w, steps[0]);
      SameKeys(w);
      StepRecords(w, steps[0], p);
      RunRecords(Apply(w, steps[0]), steps[1..], p);
      var now := if steps[0].ContinueDrain? && Ran(w).Some? then [Ran(w).value] else [];
      OfSplit(now, RanBy(Apply(w, steps[0]), steps[1..]), p);
    }
  }

  /** For any interleaving of then, resolve and drains: what was run for a promise is the beginning of what was
      registered with it, in order and each once, and was handed its value; a non-empty queue has exactly one
      drain scheduled or running; and when the queue is empty everything registered with a settled promise was
      run. */
  lemma OrderedOnceOnly(steps: seq<Step>, p: nat)
    requires Run(Beginning(), steps) && p in After(Beginning(), steps).promises
    ensures var w := After(Beginning(), steps);
            var ran := Of(RanBy(Beginning(), steps), p);
            && p in w.delivered && p in w.registered && ran == w.delivered[p]
            && Handlers(ran) <= w.registered[p]
            && (forall i :: 0 <= i < |ran| ==> w.promises[p].value == Some(ran[i].value))
            && (w.promises[p].value.None? ==> ran == [])
            && (w.queue == [] && w.promises[p].value.Some? ==> Handlers(ran) == w.registered[p])
            && w.scheduled + (if w.drain.Some? then 1 else 0) == (if w.queue == [] then 0 else 1)
  {
    RunKeeps(Beginning(), steps);
    FromBeginning(steps, p);
    OrderedIn(After(Beginning(), steps), p);
  }

  /** What was run for a promise since the beginning is what is recorded for it. */
  lemma FromBeginning(steps: seq<Step>, p: nat)
    requires Run(Beginning(), steps)
    ensures Inv(Beginning()) && Recorded(After(Beginning(), steps), p) == Of(RanBy(Beginning(), steps), p)
  {
    assert Inv(Beginning()) && Recorded(Beginning(), p) == [];
    hide Inv, Recorded, After, RanBy, Of;
    RunRecords(Beginning(), steps, p);
  }

  lemma OrderedIn(w: World, p: nat)
    requires Inv(w) && p in w.promises
    ensures p in w.delivered && p in w.registered && Recorded(w, p) == w.delivered[p]
    ensures Handlers(w.delivered[p]) <= w.registered[p]
    ensures forall i :: 0 <= i < |w.delivered[p]| ==> w.promises[p].value == Some(w.delivered[p][i].value)
    ensures w.promises[p].value.None? ==> w.delivered[p] == []
    ensures w.queue == [] && w.promises[p].value.Some? ==> Handlers(w.delivered[p]) == w.registered[p]
    ensures w.scheduled + (if w.drain.Some? then 1 else 0) == (if w.queue == [] then 0 else 1)
  {
    assert InOrder(w, p);
    assert forall i :: 0 <= i < |w.delivered[p]| ==> Carries(w, p, w.delivered[p][i].value);
    assert w.delivered[p] != [] ==> Carries(w, p, w.delivered[p][0].value);
  }

  // ----- A drain ends -----

  /** The steps these tasks take: one to take each up and one for each handler. */
  function TaskSteps(tasks: seq<Task>): nat {
    if tasks == [] then 0 else 1 + |tasks[0].handlers| + TaskSteps(tasks[1..])
  }

  /** What a drain in progress has still to do. */
  function Work(w: World): nat {
    if w.drain.None? then 0
    else (if w.drain.value.current.Some? then |w.drain.value.current.value.handlers| else 0) + TaskSteps(Waiting(w))
  }

  function Continuing(n: nat): (steps: seq<Step>) {
    seq(n, i => ContinueDrain)
  }

  /** One step of a drain: it does one piece of the work, or, with none left, ends the drain. */
  lemma DrainStep(w: World)
    requires Inv(w) && w.drain.Some?
    ensures Enabled(w, ContinueDrain)
    ensures var t := Apply(w, ContinueDrain);
            && t.registered == w.registered && t.promises == w.promises
            && if Work(w) > 0 then t.drain.Some? && Work(t) == Work(w) - 1
               else t.queue == [] && t.drain.None? && t.scheduled == 0
  {
    assert w.drain.value.current.Some? ==>
        Carries(w, w.drain.value.current.value.promise, w.drain.value.current.value.value);
    var d := w.drain.value;
    if d.next < |w.queue| {
      assert w.queue[d.next..][1..] == w.queue[d.next + 1..];
    }
  }

  /** A drain takes exactly its work and one step more to end, with an empty queue; nothing is registered or
      settled by it. */
  lemma {:induction false} DrainEnds(w: World)
    requires Inv(w) && w.drain.Some?
    ensures var steps := Continuing(Work(w) + 1);
            Run(w, steps) &&
            var t := After(w, steps);
            t.queue == [] && t.drain.None? && t.registered == w.registered && t.promises == w.promises
    decreases Work(w)
  {
    hide Inv, Apply, Enabled, Work;
    var steps := Continuing(Work(w) + 1);
    assert steps[0] == ContinueDrain && steps[1..] == Continuing(Work(w));
    DrainStep(w);
    StepKeeps(w, ContinueDrain);
    if Work(w) > 0 {
      DrainEnds(Apply(w, ContinueDrain));
    }
  }

  /** The steps that empty the queue: a drain is begun if none is under way, and goes on to its end. */
  function Emptying(w: World): seq<Step> {
    if w.queue == [] then []
    else if w.drain.Some? then Continuing(Work(w) + 1)
    else [BeginDrain] + Continuing(Work(w.(drain := Some(Drain(0, None)))) + 1)
  }

  /** Nothing is left undelivered: after any run, the drain that is due or under way ends by itself, and then
      each handler registered with a settled promise has been run, once and in order. */
  lemma EverythingIsDelivered(steps: seq<Step>, p: nat)
    requires Run(Beginning(), steps) && p in After(Beginning(), steps).promises
    ensures var w := After(Beginning(), steps);
            Run(w, Emptying(w)) &&
            var t := After(w, Emptying(w));
            && t.queue == [] && t.drain.None? && p in t.delivered && p in w.registered && t.promises == w.promises
            && (w.promises[p].value.Some? ==>
                  var ran := Of(RanBy(Beginning(), steps), p) + Of(RanBy(w, Emptying(w)), p);
                  ran == t.delivered[p] && Handlers(ran) == w.registered[p])
  {
    RunKeeps(Beginning(), steps);
    FromBeginning(steps, p);
    var w := After(Beginning(), steps);
    EmptyingEnds(w);
    EmptiedIn(w, p);
  }

  lemma EmptiedIn(w: World, p: nat)
    requires Inv(w) && p in w.promises && Run(w, Emptying(w))
    requires var t := After(w, Emptying(w));
             t.queue == [] && t.drain.None? && t.registered == w.registered && t.promises == w.promises
    ensures var t := After(w, Emptying(w));
            && p in t.delivered && p in w.registered
            && t.delivered[p] == Recorded(w, p) + Of(RanBy(w, Emptying(w)), p)
            && (w.promises[p].value.Some? ==> Handlers(t.delivered[p]) == w.registered[p])
  {
    hide Inv, RanBy, Of, After, Emptying;
    RunKeeps(w, Emptying(w));
    RunRecords(w, Emptying(w), p);
    OrderedIn(w, p);
    OrderedIn(After(w, Emptying(w)), p);
  }

  lemma BeginStep(w: World)
    requires Inv(w) && w.queue != [] && w.drain.None?
    ensures Enabled(w, BeginDrain)
    ensures var t := Apply(w, BeginDrain);
            && t.drain.Some? && t.registered == w.registered && t.promises == w.promises
            && Work(t) == Work(w.(drain := Some(Drain(0, None))))
  {
  }

  lemma RunCons(w: World, step: Step, rest: seq<Step>)
    requires Enabled(w, step) && Run(Apply(w, step), rest)
    ensures Run(w, [step] + rest) && After(w, [step] + rest) == After(Apply(w, step), rest)
  {
    assert ([step] + rest)[1..] == rest;
  }

  lemma EmptyingEnds(w: World)
    requires Inv(w)
    ensures Run(w, Emptying(w))
    ensures var t := After(w, Emptying(w));
            t.queue == [] && t.drain.None? && t.registered == w.registered && t.promises == w.promises
  {
    if w.queue == [] {
      assert w.drain.None?;
    } else if w.drain.Some? {
      DrainEnds(w);
    } else {
      hide Inv, Apply, Enabled, Work, Run, After;
      BeginStep(w);
      StepKeeps(w, BeginDrain);
      var t := Apply(w, BeginDrain);
      DrainEnds(t);
      RunCons(w, BeginDrain, Continuing(Work(t) + 1));
    }
  }

  // ----- The closures, with their variables updated in place -----

  class Scheduler {
    var handlerQueue: seq<Task>
    var scheduled: nat
    var drain: Option<Drain>
    var promises: map<nat, Promise>
    ghost var registered: map<nat, seq<nat>>
    ghost var delivered: map<nat, seq<Delivery>>

    ghost function Now(): World
      reads this
    {
      World(handlerQueue, scheduled, drain, promises, registered, delivered)
    }

    constructor ()
      ensures Now() == Beginning()
    {
      handlerQueue, scheduled, drain, promises := [], 0, None, map[];
      registered, delivered := map[], map[];
    }

    /** Only the task that makes the queue non-empty schedules a drain. */
    method EnqueueTask(task: Task)
      modifies this`handlerQueue, this`scheduled
      ensures Now() == Enqueue(old(Now()), task)
      ensures handlerQueue == old(handlerQueue) + [task]
      ensures scheduled == old(scheduled) + (if old(handlerQueue) == [] then 1 else 0)
    {
      handlerQueue := handlerQueue + [task];
      if |handlerQueue| == 1 {
        scheduled := scheduled + 1;
      }
    }

    method CreatePromise(p: nat)
      requires Enabled(Now(), Create(p))
      modifies this
      ensures Now() == Apply(old(Now()), Create(p))
    {
      promises := promises[p := Promise(None, [])];
      registered, delivered := registered[p := []], delivered[p := []];
    }

    method Register(p: nat, handler: nat)
      requires Enabled(Now(), Then(p, handler))
      modifies this
      ensures Now() == Apply(old(Now()), Then(p, handler))
      ensures registered == old(registered)[p := old(registered)[p] + [handler]] && delivered == old(delivered)
    {
      var promise := promises[p];
      registered := registered[p := registered[p] + [handler]];
      if promise.value.None? {
        promises := promises[p := promise.(consumers := promise.consumers + [handler])];
      } else {
        EnqueueTask(Task(p, [handler], promise.value.value));
      }
    }

    method PromiseResolve(p: nat, v: int)
      requires Enabled(Now(), Resolve(p, v))
      modifies this
      ensures Now() == Apply(old(Now()), Resolve(p, v))
      ensures promises[p].value == if old(promises)[p].value.Some? then old(promises)[p].value else Some(v)
      ensures registered == old(registered) && delivered == old(delivered)
    {
      if promises[p].value.Some? {
        return;
      }
      var consumers := promises[p].consumers;
      promises := promises[p := Promise(Some(v), [])];
      EnqueueTask(Task(p, consumers, v));
    }

    method DrainQueue()
      requires Enabled(Now(), BeginDrain)
      modifies this
      ensures Now() == Apply(old(Now()), BeginDrain)
    {
      scheduled := scheduled - 1;
      drain := Some(Drain(0, None));
    }

    /** Runs one handler of the task in hand, or takes the next task, or ends the drain. A handler may call
        the other methods before the drain goes on. */
    method GoOn() returns (ran: Option<(nat, Delivery)>)
      requires Enabled(Now(), ContinueDrain)
      modifies this
      ensures Now() == Apply(old(Now()), ContinueDrain)
      ensures ran == Ran(old(Now())) && registered == old(registered)
      ensures ran.None? ==> delivered == old(delivered)
      ensures ran.Some? ==>
        var (p, call) := ran.value;
        p in old(delivered) && delivered == old(delivered)[p := old(delivered)[p] + [call]]
    {
      ran := None;
      var d := drain.value;
      if d.current.Some? && d.current.value.handlers != [] {
        var task := d.current.value;
        var call := Delivery(task.handlers[0], task.value);
        ran := Some((task.promise, call));
        drain := Some(d.(current := Some(task.(handlers := task.handlers[1..]))));
        delivered := delivered[task.promise := delivered[task.promise] + [call]];
      } else if d.next < |handlerQueue| {
        drain := Some(Drain(d.next + 1, Some(handlerQueue[d.next])));
      } else {
        handlerQueue, drain := [], None;
      }
    }
  }
}
