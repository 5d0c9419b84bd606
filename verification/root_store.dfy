/** The news reader of `RootStore.swift`: a section picker, the articles of
    the selected section, and a web view for the selected article. */
module Root {
  import opened Options
  import opened Pipeline
  import opened SectionModel
  import opened ArticleModel

  /** The closure a `Worker` wraps: fetch the articles of a section. */
  datatype Job = FetchSection(section: Section)

  datatype Action =
    | Articles(list: seq<Article>)
    | SelectSection(section: Section)
    | SelectArticle(article: Article)
    | Webview(isPresented: bool)
    | Worker(job: Job)

  /** The stored fields; the haptic feedback generator is not modelled. */
  datatype State = State(
    articles: seq<Article>,
    isFetching: bool,
    isPresentingWebView: bool,
    selectedArticle: Option<Article>,
    selectedSection: Section)

  /** The computed `sections` property: every section, whatever the state. */
  function Sections(s: State): (all: seq<Section>)
    ensures |all| == 7
    ensures forall sec: Section :: all[Ordinal(sec)] == sec
  {
    AllCases()
  }

  function InitialState(): (s: State)
    ensures s.articles == [] && !s.isFetching && !s.isPresentingWebView
    ensures s.selectedArticle == None && s.selectedSection == Home
  {
    State([], false, false, None, Home)
  }

  /** The reducer.  Each field is described by the actions that write it;
      only selecting a section answers with an effect, the fetch of that
      section. */
  function Reduce(s: State, a: Action): (r: (State, Option<Action>))
    ensures r.0.articles == (if a.Articles? then Presentable(a.list) else s.articles)
    ensures r.0.isFetching == (if a.Articles? then false else if a.SelectSection? then true else s.isFetching)
    ensures r.0.isPresentingWebView
         == (if a.Webview? then a.isPresented else if a.SelectArticle? then true else s.isPresentingWebView)
    ensures r.0.selectedArticle == (if a.SelectArticle? then Some(a.article) else s.selectedArticle)
    ensures r.0.selectedSection == (if a.SelectSection? then a.section else s.selectedSection)
    ensures r.1.Some? <==> a.SelectSection?
    ensures a.SelectSection? ==> r.1 == Some(Worker(FetchSection(a.section)))
  {
    match a
    case Articles(list) => (s.(isFetching := false, articles := Presentable(list)), None)
    case Webview(isPresented) => (s.(isPresentingWebView := isPresented), None)
    case SelectArticle(article) => (s.(selectedArticle := Some(article), isPresentingWebView := true), None)
    case SelectSection(section) =>
      (s.(selectedSection := section, isFetching := true), Some(Worker(FetchSection(section))))
    case Worker(_) => (s, None)
  }

  /** `Action.worker()`: only a `.worker` action has work to run; it asks the
      section provider (here a function of the section, `None` when it
      throws) and reports what it returns. */
  function WorkerResult(a: Action, provider: Section -> Option<seq<Article>>): (r: Option<Action>)
    ensures r.Some? <==> a.Worker? && provider(a.job.section).Some?
    ensures r.Some? ==> r.value == Articles(provider(a.job.section).value)
  {
    match a
    case Worker(FetchSection(section)) =>
      (match provider(section)
       case None => None
       case Some(list) => Some(Articles(list)))
    case _ => None
  }

  const RootReducer: Reducer<State, Action> := Reducer(InitialState(), Reduce)

  /** A `.worker` action leaves the state alone and answers nothing. */
  lemma WorkerIsNoop(s: State, job: Job)
    ensures Reduce(s, Worker(job)) == (s, None)
  {
  }

  /** Reducing the effect a second time, as the store does, changes nothing,
      so a store step is a single reduction. */
  lemma StepIsReduce(s: State, a: Action)
    ensures Step(RootReducer, s, a) == Reduce(s, a)
  {
    var (next, effect) := Reduce(s, a);
    if effect.Some? {
      WorkerIsNoop(next, effect.value.job);
    }
  }

  /** Received articles are stored filtered: all presentable, in input order,
      no more of them than received, and a second filtering is a no-op. */
  lemma StoredArticles(s: State, list: seq<Article>)
    ensures var stored := Reduce(s, Articles(list)).0.articles;
      && (forall i :: 0 <= i < |stored| ==> IsPresentable(stored[i]))
      && IsSubsequence(stored, list)
      && |stored| <= |list|
      && Presentable(stored) == stored
  {
    PresentableKeepsOrder(list);
    PresentableIdempotent(list);
  }

  predicate AllPresentable(s: State)
  {
    forall i :: 0 <= i < |s.articles| ==> IsPresentable(s.articles[i])
  }

  /** Every store step keeps the stored articles presentable, so every state
      the store ever publishes lists presentable articles only. */
  lemma {:induction false} FoldKeepsPresentable(s: State, actions: seq<Action>)
    requires AllPresentable(s)
    ensures AllPresentable(Fold(RootReducer, s, actions))
    decreases |actions|
  {
    if |actions| > 0 {
      StepIsReduce(s, actions[0]);
      FoldKeepsPresentable(Step(RootReducer, s, actions[0]).0, actions[1..]);
    }
  }

  /** From construction on, whatever is sent and whichever fetches finish,
      in whatever order, the store lists presentable articles only. */
  lemma ReachableIsPresentable(events: seq<Event<Action>>)
    requires Run(RootReducer, Init(RootReducer), events).Some?
    ensures AllPresentable(Run(RootReducer, Init(RootReducer), events).value.state)
  {
    RunIsFoldOfInputs(RootReducer, Init(RootReducer), events);
    FoldKeepsPresentable(InitialState(), Inputs(events));
  }

  /** Selecting a section and letting its fetch finish: when the provider
      returns a list, the store shows that section with the list filtered and
      is no longer fetching; when it throws, the section is selected and the
      store stays fetching.  Nothing else changes and nothing more runs. */
  lemma {:induction false} SelectThenFinish(
    st: Store<State, Action>, section: Section, provider: Section -> Option<seq<Article>>)
    requires st.inbox == []
    ensures var selected := st.state.(selectedSection := section);
      Run(RootReducer, st, [Dispatch(SelectSection(section)),
                            Finish(|st.running|, WorkerResult(Worker(FetchSection(section)), provider))])
      == Some(Store(
           match provider(section)
           case None => selected.(isFetching := true)
           case Some(list) => selected.(isFetching := false, articles := Presentable(list)),
           [], st.running))
  {
    var select := SelectSection(section);
    var job := FetchSection(section);
    var result := WorkerResult(Worker(job), provider);
    var events := [Dispatch(select), Finish(|st.running|, result)];
    StepIsReduce(st.state, select);
    RunIsFold(RootReducer, st, [select]);
    assert Dispatches([select]) == [Dispatch(select)];
    var mid := Store(st.state.(selectedSection := section, isFetching := true), [], st.running + [Worker(job)]);
    assert Run(RootReducer, st, [Dispatch(select)]) == Some(mid);
    assert Deliver(RootReducer, st, events[0]) == Some(mid);
    FinishFeedsBack(RootReducer, mid, |st.running|, result);
    assert mid.running[..|st.running|] + mid.running[|st.running| + 1..] == st.running;
    var final := Store(
      match provider(section)
      case None => st.state.(selectedSection := section, isFetching := true)
      case Some(list) => st.state.(selectedSection := section, isFetching := false, articles := Presentable(list)),
      [], st.running);
    if result.Some? {
      StepIsReduce(mid.state, result.value);
      assert Reduce(mid.state, result.value).0 == final.state;
    }
    assert Deliver(RootReducer, mid, events[1]) == Some(final);
    assert events[1..] == [events[1]];
    assert Run(RootReducer, st, events) == Run(RootReducer, mid, [events[1]]);
    assert Run(RootReducer, mid, [events[1]]) == Run(RootReducer, final, []);
  }

  /** Dispatching a section selection selects it, marks the store fetching
      and starts that section's fetch. */
  lemma SelectOnce(st: Store<State, Action>, section: Section)
    requires st.inbox == []
    ensures Run(RootReducer, st, [Dispatch(SelectSection(section))])
         == Some(Store(st.state.(selectedSection := section, isFetching := true), [],
                       st.running + [Worker(FetchSection(section))]))
  {
    var select := SelectSection(section);
    StepIsReduce(st.state, select);
    RunIsFold(RootReducer, st, [select]);
    assert Dispatches([select]) == [Dispatch(select)];
  }

  /** A fetch whose provider returned `list` finishing: the list is shown
      filtered and the store stops fetching, whichever section is selected. */
  lemma FetchLands(st: Store<State, Action>, k: nat, list: seq<Article>)
    requires st.inbox == [] && k < |st.running|
    ensures Run(RootReducer, st, [Finish(k, Some(Articles(list)))])
         == Some(Store(st.state.(isFetching := false, articles := Presentable(list)), [],
                       st.running[..k] + st.running[k + 1..]))
  {
    var ef := Finish(k, Some(Articles(list)));
    FinishFeedsBack(RootReducer, st, k, Some(Articles(list)));
    StepIsReduce(st.state, Articles(list));
    var rest := st.running[..k] + st.running[k + 1..];
    var shown := st.state.(isFetching := false, articles := Presentable(list));
    assert Reduce(st.state, Articles(list)) == (shown, None);
    assert rest + None.ToSeq() == rest;
    assert Deliver(RootReducer, st, ef) == Some(Store(shown, [], rest));
    assert Run(RootReducer, st, [ef]) == Run(RootReducer, Store(shown, [], rest), []);
  }

  /** The store after selecting `a` and then `b`. */
  function BothSelected(st: Store<State, Action>, a: Section, b: Section): Store<State, Action>
  {
    Store(st.state.(selectedSection := b, isFetching := true), [],
          st.running + [Worker(FetchSection(a)), Worker(FetchSection(b))])
  }

  /** Selecting `a` and then `b` leaves `b` selected, fetching, and both
      fetches running in that order. */
  lemma SelectTwice(st: Store<State, Action>, a: Section, b: Section)
    requires st.inbox == []
    ensures Run(RootReducer, st, [Dispatch(SelectSection(a)), Dispatch(SelectSection(b))])
         == Some(BothSelected(st, a, b))
  {
    var ea, eb := Dispatch(SelectSection(a)), Dispatch(SelectSection(b));
    var wa, wb := Worker(FetchSection(a)), Worker(FetchSection(b));
    var s1 := Store(st.state.(selectedSection := a, isFetching := true), [], st.running + [wa]);
    var s2 := Store(st.state.(selectedSection := b, isFetching := true), [], st.running + [wa, wb]);
    SelectOnce(st, a);
    SelectOnce(s1, b);
    assert s1.state.(selectedSection := b, isFetching := true) == s2.state;
    assert s1.running + [wb] == s2.running;
    RunAppend(RootReducer, st, [ea], [eb]);
    assert [ea] + [eb] == [ea, eb];
  }

  /** Nothing ties a fetch's result to the section it was started for: when
      section `a` is selected, then section `b` (reaching `BothSelected`, by
      `SelectTwice`), and then `a`'s fetch finishes, the store shows `b`
      selected with `a`'s articles and is no longer fetching, although `b`'s
      fetch is still running. */
  lemma LateFetchWins(st: Store<State, Action>, a: Section, b: Section, list: seq<Article>)
    requires st.inbox == []
    ensures Run(RootReducer, BothSelected(st, a, b), [Finish(|st.running|, Some(Articles(list)))])
         == Some(Store(st.state.(selectedSection := b, isFetching := false, articles := Presentable(list)),
                       [], st.running + [Worker(FetchSection(b))]))
  {
    var k := |st.running|;
    var both := BothSelected(st, a, b);
    FetchLands(both, k, list);
    assert both.running[..k] + both.running[k + 1..] == st.running + [Worker(FetchSection(b))];
  }

  /** The same scenario as one run: select `a`, select `b`, then `a`'s fetch
      finishes with `list`. */
  lemma LateFetchRun(st: Store<State, Action>, a: Section, b: Section, list: seq<Article>)
    requires st.inbox == []
    ensures Run(RootReducer, st, [Dispatch(SelectSection(a)), Dispatch(SelectSection(b)),
                                  Finish(|st.running|, Some(Articles(list)))])
      == Some(Store(st.state.(selectedSection := b, isFetching := false, articles := Presentable(list)),
                    [], st.running + [Worker(FetchSection(b))]))
  {
    var ea, eb := Dispatch(SelectSection(a)), Dispatch(SelectSection(b));
    var ef := Finish(|st.running|, Some(Articles(list)));
    SelectTwice(st, a, b);
    LateFetchWins(st, a, b, list);
    RunAppend(RootReducer, st, [ea, eb], [ef]);
    assert [ea, eb] + [ef] == [ea, eb, ef];
  }
}
