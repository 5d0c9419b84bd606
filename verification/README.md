# Ensemble store, modelled in Dafny

Ensemble is a small Redux-style state container for SwiftUI. A `Store` is
built from a reducer: it computes the reducer's initial state once, and from
then on folds every action sent to it through the reducer with Combine's
`scan`. The reducer rewrites a copy of the state and may answer with an
*effect* action. The store reduces that effect against the same copy, then
hands it to `runEffect`, which runs the effect's asynchronous work and sends
back whatever action the work produces. Two demo reducers instantiate the
store: a counter with a simulated fetch (`CounterStore`) and a news reader
(`RootStore`) built on `Article` and `Section` values.

The model is functional throughout:

- `options.dfy` (`Options`): Swift's `Optional`.
- `store.dfy` (`Pipeline`): the generic engine. A `Reducer` is an initial
  state and a transition `(S, A) -> (S, Option<A>)`. A `Store` holds the
  accumulator of the `scan` (the value the main-queue sink later assigns to
  the published `state`), the *inbox* of sent but not yet scanned actions,
  and the *running* effects. Concurrency becomes explicit events: the environment
  either dispatches an action or lets one running effect finish with the
  action its work produced (`None` stands for both a nil result and a thrown
  error). `Fold` and `Effects` are the reference left fold. `Drain` and the
  loop `Scan` are proved equal to it; a `Run` of any interleaving of
  dispatches and finished effects ends in the fold over the actions that
  entered the `scan`, dispatched and fed back alike. `Scan`'s emitted states
  are what the main-queue sink publishes, in the same order.
- `section.dfy` (`SectionModel`), `article.dfy` (`ArticleModel`): the demo's
  value types.
- `counter_store.dfy` (`Counter`), `root_store.dfy` (`Root`): the two demo
  reducers, each instantiated as a `Pipeline.Reducer`, with end-to-end
  lemmas that run them through the store.

The library is mid-refactor: `Reducing.swift` declares `reduce` as returning
a `Worker<Action>`, while `Store.swift` and both demos use an optional action.
The model follows `Store.swift` and the demos. `Worker.swift:15-18` has only
the operations `none` and `task`, and `Store.swift:84-90` keeps no handle on
the task it starts, so effects are never cancelled or superseded; the model
has no cancellation either.

Because nothing ties a fetch's result to the section it was started for, a
fetch that finishes after a later section selection still installs its
articles and clears `isFetching` (`Root.LateFetchRun`).

## Model

| member | source | states |
|---|---|---|
| Pipeline.Init | Sources/Ensemble/Store.swift:38-44 | after construction the state is the reducer's initial state, nothing is queued and no effect is running |
| Pipeline.Send | Sources/Ensemble/Store.swift:54-56 | handing the action to the subject appends it to the inbox and leaves the accumulator and the running effects unchanged; the scan that `subject.send` runs at once is `Drain` (see `Deliver`) |
| Pipeline.Step | Sources/Ensemble/Store.swift:66-72 | the effect handed on is the one the first reduce answered; without one the new state is the reduced copy, with one it is that copy reduced again by the effect |
| Pipeline.FoldAppend | Sources/Ensemble/Store.swift:66-72 | the fold over `xs + ys` equals the fold over `ys` started from the fold over `xs`, and its effects are those of `xs` followed by those of `ys` |
| Pipeline.Process | Sources/Ensemble/Store.swift:66-72 | one scan step consumes exactly the oldest queued action, moves the state by the fold over that action and starts the effects that fold produces; with nothing queued nothing changes |
| Pipeline.ProcessStartsEffectOnce | Sources/Ensemble/Store.swift:66-72 | without an effect the state becomes the reduced copy and nothing starts; with effect `e` the state is the copy reduced by `e` and `e` starts exactly once |
| Pipeline.Drain | Sources/Ensemble/Store.swift:66-72 | scanning until the queue is empty yields the left fold of the queued actions and starts exactly the fold's effects, in order, after those already running |
| Pipeline.Complete | Sources/Ensemble/Store.swift:84-90 | a finished effect leaves the running set (exactly one copy), the state is untouched, and its result is queued iff the work returned an action |
| Pipeline.Inputs | Sources/Ensemble/Store.swift:54-90 | an event puts at most one action into the scan: the dispatched action, or the finished effect's result when there is one |
| Pipeline.RunAppend | Sources/Ensemble/Store.swift:54-90 | a run over a concatenation of events is the run over the first part continued by the run over the second, and rejected if the first part is |
| Pipeline.RunIsFoldOfInputs | Sources/Ensemble/Store.swift:54-90 | for any accepted interleaving of dispatches and finished effects, the state is the left fold of `Step` over the actions that entered the scan, in order |
| Pipeline.Deliver | Sources/Ensemble/Store.swift:54-90 | an event is rejected exactly when it finishes an effect that is not running; otherwise everything it queued has been scanned |
| Pipeline.RunIsFold | Sources/Ensemble/Store.swift:66-72 | dispatching a1..an with no effect finishing leaves the store at the left fold of `Step` over them, with every produced effect running once, in order |
| Pipeline.StoreIsFoldFromInitial | Sources/Ensemble/Store.swift:43-72 | from construction, the store's state after a1..an is the fold seeded with the initial state |
| Pipeline.FinishFeedsBack | Sources/Ensemble/Store.swift:84-90 | a finished effect whose work returned `b` feeds `b` through one scan step; a nil or failed one only stops running |
| Pipeline.Scan | Sources/Ensemble/Store.swift:66-78 | the scan emits one state per action, the i-th being the fold over the first i+1 actions, and hands on exactly the fold's effects |
| SectionModel.AllCases | Example/EnsembleDemo/EnsembleDemo/Models/Section.swift:12-19 | `allCases` has seven entries, no repeats, each case at its declaration position |
| SectionModel.FromTitle | Example/EnsembleDemo/EnsembleDemo/Models/Section.swift:21-38 | a title recognised as a section's is that section's title |
| SectionModel.TitleRoundTrip | Example/EnsembleDemo/EnsembleDemo/Models/Section.swift:21-38 | `title` is total and inverted by `FromTitle`, hence injective |
| SectionModel.SelectedByTitle | Example/EnsembleDemo/EnsembleDemo/Views/SectionView.swift:59-61 | two sections have equal titles iff they are the same section, so selecting by title is selecting by section |
| SectionModel.FromJson | Example/EnsembleDemo/EnsembleDemo/Models/Section.swift:40-57 | a feed name recognised as a section's is that section's feed name |
| SectionModel.JsonRoundTrip | Example/EnsembleDemo/EnsembleDemo/Models/Section.swift:40-57 | `json` is total and inverted by `FromJson` |
| SectionModel.JsonInjective | Example/EnsembleDemo/EnsembleDemo/Models/Section.swift:40-57 | two sections have equal feed names iff they are the same section |
| SectionModel.JsonIsLowercaseWord | Example/EnsembleDemo/EnsembleDemo/Models/Section.swift:40-57 | every feed name is a non-empty string of lower-case ASCII letters, and `unitedStates` maps to "us" |
| ArticleModel.SameIsEquivalence | Example/EnsembleDemo/EnsembleDemo/Models/Article.swift:32-34 | url-only equality is reflexive, symmetric and transitive |
| ArticleModel.SameIgnoresContent | Example/EnsembleDemo/EnsembleDemo/Models/Article.swift:32-34 | articles with the same url are equal whatever their section, title, abstract and multimedia |
| ArticleModel.HashAgreesWithSame | Example/EnsembleDemo/EnsembleDemo/Models/Article.swift:36-38 | two articles feed the hasher the same values iff they are equal |
| ArticleModel.CoverImageURL | Example/EnsembleDemo/EnsembleDemo/Models/Article.swift:28-30 | nil exactly when there is no multimedia; otherwise the url of the entry at index 1, which must exist |
| ArticleModel.Presentable | Example/EnsembleDemo/EnsembleDemo/Models/Article.swift:18-20 | the filter keeps only presentable articles, each presentable article as often as the input has it, and is no longer than the input |
| ArticleModel.PresentableKeepsOrder | Example/EnsembleDemo/EnsembleDemo/Models/Article.swift:18-20 | the filtered list is a subsequence of the input |
| ArticleModel.PresentableOfPresentable | Example/EnsembleDemo/EnsembleDemo/Models/Article.swift:18-20 | a list of presentable articles passes the filter unchanged |
| ArticleModel.PresentableIdempotent | Example/EnsembleDemo/EnsembleDemo/Models/Article.swift:18-20 | filtering an already filtered list changes nothing |
| Counter.InitialState | Example/EnsembleDemo/EnsembleDemo/CounterStore.swift:24-31 | count 0, nothing fetched, not fetching, empty name |
| Counter.Reduce | Example/EnsembleDemo/EnsembleDemo/CounterStore.swift:33-67 | per field, exactly which actions write it and to what; an effect is returned iff the action is a fetch, and it is that fetch's worker |
| Counter.WorkerResult | Example/EnsembleDemo/EnsembleDemo/CounterStore.swift:82-85 | only a `.worker` action has a result, `fetched` of its job's message, and none when the work throws |
| Counter.WorkerIsNoop | Example/EnsembleDemo/EnsembleDemo/CounterStore.swift:62-66 | a `.worker` action leaves the state unchanged and returns nil |
| Counter.IncrementDecrementCancel | Example/EnsembleDemo/EnsembleDemo/CounterStore.swift:35-38 | increment then decrement, or the reverse, restores the state and starts nothing |
| Counter.StepIsReduce | Example/EnsembleDemo/EnsembleDemo/CounterStore.swift:33-67 | the store's second reduce of the effect is a no-op, so a store step equals one reduce |
| Counter.CountIsNetIncrements | Example/EnsembleDemo/EnsembleDemo/CounterStore.swift:35-38 | through the store, the count moves by the number of increments minus decrements and by nothing else |
| Counter.FetchThenFinish | Example/EnsembleDemo/EnsembleDemo/CounterStore.swift:39-59 | dispatching `fetch` (or `fetchTwo`) and letting its work finish leaves `isFetching` false, `fetched` the message ("Hello, world!" or "Hello, world again!"), all else as before and nothing more running than before the fetch |
| Root.Sections | Example/EnsembleDemo/EnsembleDemo/RootStore.swift:35-37 | `sections` is all seven sections in declaration order, whatever the state |
| Root.InitialState | Example/EnsembleDemo/EnsembleDemo/RootStore.swift:40-49 | no articles, not fetching, no web view, no selected article, section `home` |
| Root.Reduce | Example/EnsembleDemo/EnsembleDemo/RootStore.swift:51-76 | per field, exactly which actions write it and to what; an effect is returned iff the action selects a section, and it fetches that section |
| Root.WorkerResult | Example/EnsembleDemo/EnsembleDemo/RootStore.swift:89-92 | only a `.worker` action has a result, the provider's articles for its section, and none when the provider throws |
| Root.WorkerIsNoop | Example/EnsembleDemo/EnsembleDemo/RootStore.swift:72-73 | a `.worker` action leaves the state unchanged and returns nil |
| Root.StepIsReduce | Example/EnsembleDemo/EnsembleDemo/RootStore.swift:51-76 | the store's second reduce of the effect is a no-op, so a store step equals one reduce |
| Root.StoredArticles | Example/EnsembleDemo/EnsembleDemo/RootStore.swift:53-55 | received articles are stored all presentable, in input order, no more than received, and already filtered |
| Root.FoldKeepsPresentable | Example/EnsembleDemo/EnsembleDemo/RootStore.swift:53-55 | every store step preserves "all stored articles are presentable" |
| Root.ReachableIsPresentable | Example/EnsembleDemo/EnsembleDemo/RootStore.swift:40-55 | after any accepted run from construction, dispatches and finished fetches in any order, the stored articles are all presentable |
| Root.SelectOnce | Example/EnsembleDemo/EnsembleDemo/RootStore.swift:61-71 | dispatching a section selection selects it, sets fetching and starts exactly that section's fetch |
| Root.SelectTwice | Example/EnsembleDemo/EnsembleDemo/RootStore.swift:61-71 | selecting `a` then `b` leaves `b` selected, fetching, and both fetches running in that order |
| Root.FetchLands | Example/EnsembleDemo/EnsembleDemo/RootStore.swift:53-55 | a finished fetch that returned a list shows it filtered and clears fetching, whichever section is selected, and stops running |
| Root.LateFetchWins | Example/EnsembleDemo/EnsembleDemo/RootStore.swift:53-71 | after selecting `a` then `b`, `a`'s fetch finishing shows `b` selected with `a`'s filtered articles and not fetching, while `b`'s fetch still runs |
| Root.LateFetchRun | Example/EnsembleDemo/EnsembleDemo/RootStore.swift:53-71 | one run of select `a`, select `b`, then `a`'s fetch finishing with a list ends with `b` selected, `a`'s list filtered, not fetching, and only `b`'s fetch still running |
| Root.SelectThenFinish | Example/EnsembleDemo/EnsembleDemo/RootStore.swift:61-71 | selecting a section and letting its fetch finish shows that section with the provider's list filtered and not fetching; if the provider throws, the section stays selected and fetching stays true |

## Left out

- Combine plumbing: `PassthroughSubject`, delivery on the main queue and the `Task` that runs an effect are replaced by the explicit `Dispatch`/`Finish` events; the order in which effects finish is the environment's choice.
- Publication lag: `send` runs the scan step, the reducer and `runEffect` synchronously on the caller's thread, but the published `state` is assigned later on the main queue (`Store.swift:74-76`). The model's `state` is the scan's accumulator; the published value trails it through the same sequence of states.
- Serialisation: nothing in `Store.swift` serialises a `send` from an effect's `Task` (`Store.swift:85-87`) against a `send` from the main thread. The model assumes every event is handled whole before the next one, as a single ordered sequence.

- Rendering: `render`, `view`, `Screen.swift`, every SwiftUI view and the `Sink.bindState` binding are UI. `Sink.send` forwards to `Store.send`, which is modelled by `Pipeline.Deliver` on a `Dispatch` event. `send` leaves the published `state` untouched until the main-queue sink assigns it.
- Timing: the one- and three-second sleeps are kept only as the `delaySeconds` of a counter job; time itself is not modelled.
- Networking and decoding: `SectionProvider.swift` and `Data.swift` are I/O; the provider is a parameter, a function from section to an optional article list (`None` when it throws).
- `Worker.id` is a fresh UUID for each `Worker` value (`Worker.swift:20`) and `Article.id` a fresh UUID on every access (`Article.swift:14-16`); neither is modelled.
- The haptic feedback in `RootStore.reduce` and the generator stored in the state are side effects outside the model.
- Value semantics: `reduce` mutating a copy, so that the previous state value is never changed, holds by construction in a model of immutable values and needs no lemma.
- `Reducing.swift`, `AlwaysEqual.swift`, `StateInitializable.swift`: a protocol whose signature no user follows, an always-true `==` and a default initializer.
- Counter.Reduce: `count` is an unbounded integer, so Swift's trap on overflow of `count += 1` is not modelled.
- ArticleModel.CoverImageURL: a multimedia list with fewer than two entries makes the source trap; the model rules that input out by its precondition instead of modelling the crash.
- Dafny compares articles, and so states, structurally; the url-only `==` is the separate predicate `Same`. Every equality the lemmas state is structural, which implies Swift's equality.
- ArticleModel.Same: strings are compared by code points, whereas Swift's `String ==` (and the hash that `hasher.combine(url)` computes) uses Unicode canonical equivalence, so two urls spelling one accented letter differently are equal in Swift but not `Same` here. For the ASCII literals the model compares against (`"null"`, `""`, the section titles and feed names) the two equalities agree.
