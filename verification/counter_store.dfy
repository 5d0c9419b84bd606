/** The counter demo of `CounterStore.swift`: a counter, a simulated fetch
    and a bound text field. */
module Counter {
  import opened Options
  import opened Pipeline

  /** The closure a `Worker` wraps: sleep for `delaySeconds`, then report
      `message` as fetched. */
  datatype Job = Job(delaySeconds: nat, message: string)

  const FetchJob: Job := Job(1, "Hello, world!")
  const FetchTwoJob: Job := Job(3, "Hello, world again!")

  datatype Action =
    | Increment
    | Decrement
    | Fetch
    | FetchTwo
    | Fetched(text: string)
    | Worker(job: Job)
    | Name(name: string)

  datatype State = State(count: int, fetched: string, isFetching: bool, name: string)

  function InitialState(): (s: State)
    ensures s.count == 0 && s.fetched == "" && !s.isFetching && s.name == ""
  {
    State(0, "", false, "")
  }

  /** The reducer.  Each field is described by the actions that write it;
      only the two fetches answer with an effect. */
  function Reduce(s: State, a: Action): (r: (State, Option<Action>))
    ensures r.0.count == s.count + (if a.Increment? then 1 else if a.Decrement? then -1 else 0)
    ensures r.0.isFetching == (if a.Fetch? || a.FetchTwo? then true else if a.Fetched? then false else s.isFetching)
    ensures r.0.fetched == (if a.Fetched? then a.text else s.fetched)
    ensures r.0.name == (if a.Name? then a.name else s.name)
    ensures r.1.Some? <==> a.Fetch? || a.FetchTwo?
    ensures a.Fetch? ==> r.1 == Some(Worker(FetchJob))
    ensures a.FetchTwo? ==> r.1 == Some(Worker(FetchTwoJob))
  {
    match a
    case Increment => (s.(count := s.count + 1), None)
    case Decrement => (s.(count := s.count - 1), None)
    case Fetch => (s.(isFetching := true), Some(Worker(FetchJob)))
    case FetchTwo => (s.(isFetching := true), Some(Worker(FetchTwoJob)))
    case Fetched(text) => (s.(isFetching := false, fetched := text), None)
    case Name(name) => (s.(name := name), None)
    case Worker(_) => (s, None)
  }

  /** `Action.worker()`: only a `.worker` action has work to run; its work
      reports the job's message unless it throws. */
  function WorkerResult(a: Action, threw: bool): (r: Option<Action>)
    ensures r.Some? <==> a.Worker? && !threw
    ensures r.Some? ==> r.value == Fetched(a.job.message)
  {
    match a
    case Worker(job) => if threw then None else Some(Fetched(job.message))
    case _ => None
  }

  const CounterReducer: Reducer<State, Action> := Reducer(InitialState(), Reduce)

  /** A `.worker` action leaves the state alone and answers nothing. */
  lemma WorkerIsNoop(s: State, job: Job)
    ensures Reduce(s, Worker(job)) == (s, None)
  {
  }

  /** Increment and decrement undo each other, in either order. */
  lemma IncrementDecrementCancel(s: State)
    ensures Reduce(Reduce(s, Increment).0, Decrement) == (s, None)
    ensures Reduce(Reduce(s, Decrement).0, Increment) == (s, None)
  {
  }

  /** Reducing the effect a second time, as the store does, changes nothing,
      so a store step is a single reduction. */
  lemma StepIsReduce(s: State, a: Action)
    ensures Step(CounterReducer, s, a) == Reduce(s, a)
  {
    var (next, effect) := Reduce(s, a);
    if effect.Some? {
      WorkerIsNoop(next, effect.value.job);
    }
  }

  /** The number of increments minus the number of decrements. */
  function NetIncrements(actions: seq<Action>): int
    decreases |actions|
  {
    if |actions| == 0 then 0
    else
      var delta := if actions[0].Increment? then 1 else if actions[0].Decrement? then -1 else 0;
      delta + NetIncrements(actions[1..])
  }

  /** Through the store, only increments and decrements move the count. */
  lemma {:induction false} CountIsNetIncrements(s: State, actions: seq<Action>)
    ensures Fold(CounterReducer, s, actions).count == s.count + NetIncrements(actions)
    decreases |actions|
  {
    if |actions| > 0 {
      StepIsReduce(s, actions[0]);
      CountIsNetIncrements(Step(CounterReducer, s, actions[0]).0, actions[1..]);
    }
  }

  /** Sending a fetch and letting its work finish leaves the store with the
      fetched message, not fetching, every other field as before and nothing
      more running. */
  lemma {:induction false} FetchThenFinish(st: Store<State, Action>, two: bool)
    requires st.inbox == []
    ensures var job := if two then FetchTwoJob else FetchJob;
      Run(CounterReducer, st, [Dispatch(if two then FetchTwo else Fetch),
                               Finish(|st.running|, WorkerResult(Worker(job), false))])
      == Some(Store(st.state.(isFetching := false, fetched := job.message), [], st.running))
  {
    var job := if two then FetchTwoJob else FetchJob;
    var fetch := if two then FetchTwo else Fetch;
    StepIsReduce(st.state, fetch);
    var events := [Dispatch(fetch), Finish(|st.running|, WorkerResult(Worker(job), false))];
    RunIsFold(CounterReducer, st, [fetch]);
    assert Dispatches([fetch]) == [Dispatch(fetch)];
    var mid := Store(st.state.(isFetching := true), [], st.running + [Worker(job)]);
    assert Run(CounterReducer, st, [Dispatch(fetch)]) == Some(mid);
    assert Deliver(CounterReducer, st, events[0]) == Some(mid);
    var result := Fetched(job.message);
    FinishFeedsBack(CounterReducer, mid, |st.running|, Some(result));
    StepIsReduce(mid.state, result);
    assert mid.running[..|st.running|] + mid.running[|st.running| + 1..] == st.running;
    var final := Store(st.state.(isFetching := false, fetched := job.message), [], st.running);
    assert Reduce(mid.state, result).0 == final.state;
    assert Deliver(CounterReducer, mid, events[1]) == Some(final);
    assert events[1..] == [events[1]];
    assert Run(CounterReducer, st, events) == Run(CounterReducer, mid, [events[1]]);
    assert Run(CounterReducer, mid, [events[1]]) == Run(CounterReducer, final, []);
  }
}
