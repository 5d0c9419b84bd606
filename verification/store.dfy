/**
 * The store engine of `Sources/Ensemble/Store.swift`, stripped of Combine.
 *
 * A reducer is an initial state and a transition that rewrites a copy of the
 * state and may answer with an effect action.  The store keeps its current
 * state, an inbox of sent actions that the `scan` step has not consumed yet,
 * and the effect actions whose work is still running.  Concurrency is replaced
 * by explicit events: the environment either sends an action or announces
 * that one running effect has finished, with the action its work produced
 * (`None` for a nil result and for a thrown error alike).
 */
module Pipeline {
  import opened Options

  /** The two requirements `Store` places on its reducer. */
  datatype Reducer<!S, !A> = Reducer(initial: S, reduce: (S, A) -> (S, Option<A>))

  /** `state` is the accumulator of the `scan` (what the main-queue sink
      later publishes), `inbox` the actions sent but not yet scanned,
      `running` the effects handed to `runEffect` that have not finished. */
  datatype Store<S, A> = Store(state: S, inbox: seq<A>, running: seq<A>)

  /** One step of the `scan` closure: reduce a copy; if the reducer answers
      with an effect, reduce the effect against the same copy (dropping what
      that second reduction answers) and hand the effect to `runEffect`. */
  function Step<S, A>(r: Reducer<S, A>, s: S, a: A): (res: (S, Option<A>))
    ensures res.1 == r.reduce(s, a).1
    ensures res.1.None? ==> res.0 == r.reduce(s, a).0
    ensures res.1.Some? ==> res.0 == r.reduce(r.reduce(s, a).0, res.1.value).0
  {
    var (copy, effect) := r.reduce(s, a);
    match effect
    case None => (copy, None)
    case Some(e) => (r.reduce(copy, e).0, Some(e))
  }

  /** Reference semantics: the left fold of `Step` over a sequence of actions. */
  function Fold<S, A>(r: Reducer<S, A>, s: S, actions: seq<A>): S
    decreases |actions|
  {
    if |actions| == 0 then s
    else Fold(r, Step(r, s, actions[0]).0, actions[1..])
  }

  /** The effects the fold hands to `runEffect`, in order. */
  function Effects<S, A>(r: Reducer<S, A>, s: S, actions: seq<A>): (es: seq<A>)
    ensures |es| <= |actions|
    decreases |actions|
  {
    if |actions| == 0 then []
    else
      var (next, effect) := Step(r, s, actions[0]);
      effect.ToSeq() + Effects(r, next, actions[1..])
  }

  /** Folding over a concatenation folds over the parts in turn. */
  lemma {:induction false} FoldAppend<S, A>(r: Reducer<S, A>, s: S, xs: seq<A>, ys: seq<A>)
    ensures Fold(r, s, xs + ys) == Fold(r, Fold(r, s, xs), ys)
    ensures Effects(r, s, xs + ys) == Effects(r, s, xs) + Effects(r, Fold(r, s, xs), ys)
    decreases |xs|
  {
    if |xs| == 0 {
      assert xs + ys == ys;
    } else {
      var next := Step(r, s, xs[0]).0;
      assert (xs + ys)[0] == xs[0];
      assert (xs + ys)[1..] == xs[1..] + ys;
      FoldAppend(r, next, xs[1..], ys);
    }
  }

  /** The store right after `init`: the reducer's initial state, computed once,
      with nothing sent and no effect running. */
  function Init<S, A>(r: Reducer<S, A>): (st: Store<S, A>)
    ensures st.state == r.initial
    ensures st.inbox == [] && st.running == []
  {
    Store(r.initial, [], [])
  }

  /** Handing an action to the subject appends it to the inbox and touches
      nothing else.  The scan that `subject.send` then runs at once is
      `Drain`; the whole of Swift's `send` is `Deliver` on a `Dispatch`. */
  function Send<S, A>(st: Store<S, A>, a: A): (st': Store<S, A>)
    ensures st'.state == st.state && st'.running == st.running
    ensures |st'.inbox| == |st.inbox| + 1
    ensures st'.inbox[..|st.inbox|] == st.inbox && st'.inbox[|st.inbox|] == a
  {
    Store(st.state, st.inbox + [a], st.running)
  }

  /** The `scan` step consumes the oldest sent action; with nothing sent it has
      nothing to do. */
  function Process<S, A>(r: Reducer<S, A>, st: Store<S, A>): (st': Store<S, A>)
    ensures |st.inbox| == 0 ==> st' == st
    ensures |st.inbox| > 0 ==>
      && st'.inbox == st.inbox[1..]
      && st'.state == Fold(r, st.state, st.inbox[..1])
      && st'.running == st.running + Effects(r, st.state, st.inbox[..1])
  {
    if |st.inbox| == 0 then st
    else
      var (next, effect) := Step(r, st.state, st.inbox[0]);
      Store(next, st.inbox[1..], st.running + effect.ToSeq())
  }

  /** One `scan` step over a sent action `a`: without an effect the state is
      the reduced copy and nothing starts; with an effect `e` the state is the
      copy reduced once more by `e`, and `e` starts running exactly once. */
  lemma ProcessStartsEffectOnce<S, A>(r: Reducer<S, A>, st: Store<S, A>, a: A)
    requires st.inbox == [a]
    ensures var (copy, effect) := r.reduce(st.state, a);
      Process(r, st) == match effect
        case None => Store(copy, [], st.running)
        case Some(e) => Store(r.reduce(copy, e).0, [], st.running + [e])
  {
    assert st.inbox[..1] == [a];
  }

  /** Run the `scan` step until every sent action has been consumed. */
  function Drain<S, A>(r: Reducer<S, A>, st: Store<S, A>): (st': Store<S, A>)
    ensures st'.inbox == []
    ensures st'.state == Fold(r, st.state, st.inbox)
    ensures st'.running == st.running + Effects(r, st.state, st.inbox)
    decreases |st.inbox|
  {
    if |st.inbox| == 0 then st
    else
      var (next, effect) := Step(r, st.state, st.inbox[0]);
      assert Process(r, st) == Store(next, st.inbox[1..], st.running + effect.ToSeq());
      assert Fold(r, st.state, st.inbox) == Fold(r, next, st.inbox[1..]);
      Drain(r, Process(r, st))
  }

  /** The effect at position `k` of `running` finishes; `runEffect` sends its
      result back exactly when there is one. */
  function Complete<S, A>(st: Store<S, A>, k: nat, result: Option<A>): (st': Store<S, A>)
    requires k < |st.running|
    ensures st'.state == st.state
    ensures |st'.running| + 1 == |st.running|
    ensures multiset(st'.running) + multiset{st.running[k]} == multiset(st.running)
    ensures st'.inbox == st.inbox + result.ToSeq()
  {
    assert st.running == st.running[..k] + [st.running[k]] + st.running[k + 1..];
    Store(st.state, st.inbox + result.ToSeq(), st.running[..k] + st.running[k + 1..])
  }

  /** What the environment can do: send an action, or let the running effect at
      a position finish with the result its work produced. */
  datatype Event<A> = Dispatch(action: A) | Finish(task: nat, result: Option<A>)

  /** One event followed by the synchronous `scan` of whatever it sent.  A
      `Finish` naming no running effect cannot occur and yields `None`. */
  function Deliver<S, A>(r: Reducer<S, A>, st: Store<S, A>, ev: Event<A>): (out: Option<Store<S, A>>)
    ensures out.None? <==> ev.Finish? && ev.task >= |st.running|
    ensures out.Some? ==> out.value.inbox == []
  {
    match ev
    case Dispatch(a) => Some(Drain(r, Send(st, a)))
    case Finish(k, result) =>
      if k < |st.running| then Some(Drain(r, Complete(st, k, result))) else None
  }

  /** A whole run of the store: the events in the order they happen. */
  function Run<S, A>(r: Reducer<S, A>, st: Store<S, A>, events: seq<Event<A>>): (out: Option<Store<S, A>>)
    ensures out.Some? && |events| > 0 ==> out.value.inbox == []
    decreases |events|
  {
    if |events| == 0 then Some(st)
    else
      match Deliver(r, st, events[0])
      case None => None
      case Some(next) => Run(r, next, events[1..])
  }

  /** The actions an event puts through the `scan`: a dispatched action, or
      the result of a finished effect's work when it has one. */
  function Inputs<A>(events: seq<Event<A>>): (actions: seq<A>)
    ensures |actions| <= |events|
    decreases |events|
  {
    if |events| == 0 then []
    else
      var first := match events[0]
        case Dispatch(a) => [a]
        case Finish(_, result) => result.ToSeq();
      first + Inputs(events[1..])
  }

  /** A run over a concatenation of events runs the parts in turn. */
  lemma {:induction false} RunAppend<S, A>(r: Reducer<S, A>, st: Store<S, A>, xs: seq<Event<A>>, ys: seq<Event<A>>)
    ensures Run(r, st, xs + ys) == match Run(r, st, xs)
      case None => None
      case Some(mid) => Run(r, mid, ys)
    decreases |xs|
  {
    if |xs| == 0 {
      assert xs + ys == ys;
    } else {
      assert (xs + ys)[0] == xs[0];
      assert (xs + ys)[1..] == xs[1..] + ys;
      match Deliver(r, st, xs[0]) {
        case None =>
        case Some(next) => RunAppend(r, next, xs[1..], ys);
      }
    }
  }

  /** The store's whole contract: whatever interleaving of dispatches and
      finished effects the environment produces, the state is the left fold
      of `Step` over the actions that entered the `scan`, dispatched ones and
      fed-back results alike, in the order they entered it. */
  lemma {:induction false} RunIsFoldOfInputs<S, A>(r: Reducer<S, A>, st: Store<S, A>, events: seq<Event<A>>)
    requires st.inbox == []
    requires Run(r, st, events).Some?
    ensures Run(r, st, events).value.state == Fold(r, st.state, Inputs(events))
    decreases |events|
  {
    if |events| > 0 {
      var ev := events[0];
      var next := Deliver(r, st, ev).value;
      var first := match ev
        case Dispatch(a) => [a]
        case Finish(_, result) => result.ToSeq();
      assert Inputs(events) == first + Inputs(events[1..]);
      match ev {
        case Dispatch(a) =>
          assert Send(st, a).inbox == first;
        case Finish(k, result) =>
          assert Complete(st, k, result).inbox == first;
      }
      assert next.state == Fold(r, st.state, first);
      RunIsFoldOfInputs(r, next, events[1..]);
      FoldAppend(r, st.state, first, Inputs(events[1..]));
    }
  }

  /** The events that only send the given actions. */
  function Dispatches<A>(actions: seq<A>): (evs: seq<Event<A>>)
    ensures |evs| == |actions|
    ensures forall i :: 0 <= i < |actions| ==> evs[i] == Dispatch(actions[i])
  {
    seq(|actions|, i requires 0 <= i < |actions| => Dispatch(actions[i]))
  }

  /** With no effect finishing, the store is a faithful left fold: its state is
      `Fold` over the sent actions, and every effect the fold produces is
      running, each exactly once and in order. */
  lemma {:induction false} RunIsFold<S, A>(r: Reducer<S, A>, st: Store<S, A>, actions: seq<A>)
    requires st.inbox == []
    ensures Run(r, st, Dispatches(actions))
         == Some(Store(Fold(r, st.state, actions), [], st.running + Effects(r, st.state, actions)))
    decreases |actions|
  {
    var evs := Dispatches(actions);
    if |actions| == 0 {
      assert st.running + Effects(r, st.state, actions) == st.running;
      assert st == Store(st.state, [], st.running);
    } else {
      var a := actions[0];
      var next := Drain(r, Send(st, a));
      assert Send(st, a).inbox == [a];
      assert [a][1..] == [];
      assert next.state == Step(r, st.state, a).0;
      assert next.running == st.running + Step(r, st.state, a).1.ToSeq();
      assert Deliver(r, st, evs[0]) == Some(next);
      assert evs[1..] == Dispatches(actions[1..]);
      assert Run(r, st, evs) == Run(r, next, evs[1..]);
      RunIsFold(r, next, actions[1..]);
      assert Fold(r, st.state, actions) == Fold(r, next.state, actions[1..]);
      assert Effects(r, st.state, actions) == Step(r, st.state, a).1.ToSeq() + Effects(r, next.state, actions[1..]);
      assert next.running + Effects(r, next.state, actions[1..])
          == st.running + Effects(r, st.state, actions);
    }
  }

  /** From construction on, sending a1..an leaves the store in the state the
      scan seeded with the initial state reaches. */
  lemma StoreIsFoldFromInitial<S, A>(r: Reducer<S, A>, actions: seq<A>)
    ensures Run(r, Init(r), Dispatches(actions))
         == Some(Store(Fold(r, r.initial, actions), [], Effects(r, r.initial, actions)))
  {
    RunIsFold(r, Init(r), actions);
    assert [] + Effects(r, r.initial, actions) == Effects(r, r.initial, actions);
  }

  /** A finished effect whose work produced `b` feeds `b` back through one
      `scan` step; a nil or failed one only stops running. */
  lemma FinishFeedsBack<S, A>(r: Reducer<S, A>, st: Store<S, A>, k: nat, result: Option<A>)
    requires st.inbox == [] && k < |st.running|
    ensures var rest := st.running[..k] + st.running[k + 1..];
      Deliver(r, st, Finish(k, result)) == Some(
        match result
        case None => Store(st.state, [], rest)
        case Some(b) => Store(Step(r, st.state, b).0, [], rest + Step(r, st.state, b).1.ToSeq()))
  {
    var c := Complete(st, k, result);
    if result.Some? {
      assert c.inbox == [result.value];
      assert c.inbox[1..] == [];
    }
  }

  /** The `scan` operator as a loop: the states it emits, one per action, and
      the effects it hands to `runEffect`.  Each emitted state is the fold of
      the actions up to and including its own. */
  method Scan<S, A>(r: Reducer<S, A>, actions: seq<A>) returns (emitted: seq<S>, effects: seq<A>)
    ensures |emitted| == |actions|
    ensures forall i :: 0 <= i < |actions| ==> emitted[i] == Fold(r, r.initial, actions[..i + 1])
    ensures effects == Effects(r, r.initial, actions)
  {
    var current := r.initial;
    emitted, effects := [], [];
    var i := 0;
    while i < |actions|
      invariant 0 <= i <= |actions|
      invariant |emitted| == i
      invariant current == Fold(r, r.initial, actions[..i])
      invariant effects == Effects(r, r.initial, actions[..i])
      invariant forall j :: 0 <= j < i ==> emitted[j] == Fold(r, r.initial, actions[..j + 1])
    {
      FoldAppend(r, r.initial, actions[..i], [actions[i]]);
      assert actions[..i] + [actions[i]] == actions[..i + 1];
      var (next, effect) := Step(r, current, actions[i]);
      assert Fold(r, current, [actions[i]]) == next;
      assert Effects(r, current, [actions[i]]) == effect.ToSeq() + [];
      current := next;
      emitted := emitted + [current];
      effects := effects + effect.ToSeq();
      i := i + 1;
    }
    assert actions[..i] == actions;
  }
}
