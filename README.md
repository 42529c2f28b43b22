# Verified model of the state containers in react-sandbox-examples

The repository is a set of React demo widgets that compare state-management
strategies. Most of it is view code. This project models the parts that hold
real logic and proves what they promise:

- **Counter demos.** The hand-rolled custom store, the context+reducer pair and
  the Zustand store all keep `{countA, countB, totalCount}` and offer "increment A"
  and "increment B".
  - `counter.dfy` states the two transitions once: `Counter.IsStepA` and
    `Counter.IsStepB`, with the reference functions `StepA` and `StepB`.
  - Each encoding is proved against those transitions, so all three agree and keep
    `totalCount == countA + countB`.
- **Custom store** (`custom_store.dfy`). A class with a `state` field, a `listeners`
  set and a ghost log of listener calls. `IncrementA` and `IncrementB` replace the
  state, then call every listener exactly once. Each call observes the new state.
- **Listener calls** (`listeners.dfy`). `NotifyAll` is the verified loop behind
  `listeners.forEach(l => l())`. Its contract is exactly-once: the multiset of
  listeners called equals the listener set. The custom store and both
  `ExternalStore` classes use it.
- **`ExternalStore`** (`tearing_comparison.dfy`, `tearing_fixed.dfy`). The
  subscribe/notify container that the tearing demos pass to `useSyncExternalStore`.
  - `SetData` assigns, then notifies. It notifies even when the value is unchanged,
    because the code has no equality check.
  - `Subscribe` adds the callback with set semantics and returns the unsubscribe
    closure, modelled as the datatype `Unsubscribe`. `Invoke` calls that closure:
    it deletes exactly its callback and returns whether the callback was present.
  - `getData` and `getSnapshot` are the reads `GetData` and `GetSnapshot`. They
    have no effects.
  - The two demos each declare the class, with identical bodies. Each copy is
    modelled as its own class in its own module.
- **MobX `CounterStore`** (`mobx_counter.dfy`). `increment`, `reset`, the derived
  `isEven` (using JavaScript's truncating `%`) and `incrementLater`.
  - `incrementLater` is split at its `await` into `IncrementLaterStart` and
    `IncrementLaterFinish`. Other calls can interleave between the two halves.
  - The `finally` block clears `loading` on both exit paths.
  - `OverlappingIncrementLater` shows that when two calls overlap, the first to
    finish clears `loading` while the second is still waiting.
- **Feature selection** (`feature_filter.dfy`). The 8-entry catalogue and the
  updater expressions applied to the list of selected ids: toggle, remove, clear,
  select all, membership and the selected catalogue entries.
- **Fibonacci** (`fibonacci.dfy`). The iterative loop of `useFibonacci`, proved to
  equal the recursive definition. It runs `n - 1` times.

Where the prose and the code differ, the model follows the code:

- The code's `ExternalStore.setData` notifies even when the value does not change.
- `useFibonacci`'s doc comment claims memoization, but the code has none.

## Model

| member | source | states |
|---|---|---|
| `Counter.StepsMeanSteps` | src/features/custom-store/store-utils.ts:17-35 | "Increment A" raises `countA` by 1, keeps `countB` and sets the total to the new sum. No other successor does. Likewise for B. |
| `Counter.StepsCommute` | src/features/custom-store/store-utils.ts:17-35 | Incrementing A then B gives the same state as B then A, from any state. |
| `Counter.ExampleRun` | src/features/custom-store/store-utils.ts:17-35 | From `{0,0,0}`, A, B, A gives `{2,1,3}`. |
| `Listeners.NotifyAll` | src/features/custom-store/store-utils.ts:24 | `forEach` over the listener set calls every listener exactly once and no one else. Each call sees the current value. |
| `Listeners.EachListenerOnce` | src/features/tearing-example/TearingComparisonDemo.tsx:18 | Per listener: a registered listener is called once and an unregistered one never. The number of calls equals the number of listeners. |
| `CustomStore.Store.constructor` | src/features/custom-store/store-utils.ts:6-8 | `createStore(initial)` holds `initial` and has no listeners. |
| `CustomStore.IncrementA` | src/features/custom-store/store-utils.ts:17-25 | The state becomes the A-successor of the old state, so the sum invariant holds. The listener set is unchanged. Each listener is called once, after the assignment, and sees the new state. |
| `CustomStore.IncrementB` | src/features/custom-store/store-utils.ts:27-35 | The same for B: `countB` rises by 1, `countA` stays the same, and each listener is notified once with the new state. |
| `CustomStore.ProviderScenario` | src/features/custom-store/store.tsx:7-11 | From the provider's `{0,0,0}`, A, B, A yields `{2,1,3}`. A single subscribed listener is the only one called. It is called three times and sees `{1,0,1}`, `{1,1,2}` and `{2,1,3}` in turn. |
| `CounterReducer.InitialStateConsistent` | src/features/react-context/reducer.ts:26-30 | `initialState` is `{0,0,0}` and satisfies `totalCount == countA + countB`. |
| `CounterReducer.Reduce` | src/features/react-context/reducer.ts:3-24 | `INCREMENT_A` yields the A-successor and `INCREMENT_B` the B-successor, even from a state whose total is wrong. Any other `type` string returns the state unchanged. `Other` cannot carry `"INCREMENT_A"` or `"INCREMENT_B"`, so it covers exactly the `default` branch. |
| `CounterReducer.ReduceAgreesWithStore` | src/features/react-context/reducer.ts:5-20 | For each action, the reducer's result equals what the custom store's `incrementA`/`incrementB` produce from the same state. |
| `CounterReducer.DispatchAllCounts` | src/features/react-context/reducer.ts:3-24 | Dispatching any action sequence to any state adds the number of `INCREMENT_A`s to `countA` and the number of `INCREMENT_B`s to `countB`. After at least one increment the total is their sum; with none, it is left unchanged. |
| `CounterReducer.DispatchAllConsistent` | src/features/react-context/reducer.ts:3-30 | Every sequence of dispatches from `initialState` ends in a state with `totalCount == countA + countB`. |
| `CounterReducer.DispatchOrderIrrelevant` | src/features/react-context/reducer.ts:3-24 | Two dispatch sequences with the same actions in different orders reach the same state, from any starting state. |
| `ZustandCounter.Merge` | src/features/zustand/store.ts:15-28 | `set`'s shallow merge: each key present in the partial takes the partial's value. Keys the partial omits, including both action fields, are unchanged. |
| `ZustandCounter.InitialState` | src/features/zustand/store.ts:11-14 | The created store starts with all three counters at 0 and holds the given actions. |
| `ZustandCounter.IncrementAUpdater` | src/features/zustand/store.ts:15-21 | The partial sets `countA` to the old value plus 1 and the total to the new `countA` plus `countB`. It omits `countB`. |
| `ZustandCounter.IncrementBUpdater` | src/features/zustand/store.ts:22-28 | The partial sets `countB` to the old value plus 1 and the total to `countA` plus the new `countB`. It omits `countA`. |
| `ZustandCounter.IncrementA` | src/features/zustand/store.ts:15-21 | After the merge, the counters are the A-successor, so the sum holds. The action fields are unchanged. |
| `ZustandCounter.IncrementB` | src/features/zustand/store.ts:22-28 | After the merge, the counters are the B-successor, so the sum holds. The action fields are unchanged. |
| `ZustandCounter.AgreesWithReducerAndStore` | src/features/zustand/store.ts:15-28 | The Zustand actions, the reducer and the custom store compute the same next counters. |
| `TearingComparison.ExternalStore.constructor` | src/features/tearing-example/TearingComparisonDemo.tsx:10-12 | A new store holds `1` and has no listeners. |
| `TearingComparison.ExternalStore.SetData` | src/features/tearing-example/TearingComparisonDemo.tsx:16-19 | Afterwards `getSnapshot()` and `getData()` return the new value. The listener set is unchanged. Each current listener is called exactly once, seeing the new value, even if the value did not change. |
| `TearingComparison.ExternalStore.Subscribe` | src/features/tearing-example/TearingComparisonDemo.tsx:21-22 | Adds the callback with set semantics and leaves `data` unchanged. Returns the handle for that callback on this store. |
| `TearingComparison.Invoke` | src/features/tearing-example/TearingComparisonDemo.tsx:23 | The unsubscribe closure removes exactly its callback and leaves `data` unchanged. It reports whether the callback was present. |
| `TearingComparison.UnsubscribeTwice` | src/features/tearing-example/TearingComparisonDemo.tsx:21-23 | Calling the handle twice: the first call removes the callback, the second is a no-op that returns `false`, and other listeners are kept. |
| `TearingFixed.ExternalStore.constructor` | src/features/tearing-example/TearingFixedDemo.tsx:4-6 | A new store holds `1` and has no listeners. |
| `TearingFixed.ExternalStore.SetData` | src/features/tearing-example/TearingFixedDemo.tsx:12-15 | Assign first, so `getSnapshot()` and `getData()` return the new value. Then every current listener is called exactly once, unconditionally. The listener set is unchanged. |
| `TearingFixed.ExternalStore.Subscribe` | src/features/tearing-example/TearingFixedDemo.tsx:17-18 | Adds the callback with set semantics and returns its handle. `data` is unchanged. |
| `TearingFixed.Invoke` | src/features/tearing-example/TearingFixedDemo.tsx:19 | The handle removes exactly its callback and reports whether the callback was present. |
| `TearingFixed.UnsubscribeTwice` | src/features/tearing-example/TearingFixedDemo.tsx:17-20 | The unsubscribe handle is idempotent: the second call removes nothing and returns `false`. |
| `MobxCounter.JsRemainder` | src/features/mobx-concurrent/store.ts:15 | JavaScript's `%` with a positive divisor: the result differs from the dividend by a multiple of the divisor, its magnitude is below the divisor and its sign follows the dividend. These fix the value, so `-3 % 2` is `-1`. For non-negative operands it agrees with the Euclidean remainder. |
| `MobxCounter.IsEvenMeansDivisible` | src/features/mobx-concurrent/store.ts:14-16 | `isEven` holds exactly when the value is divisible by 2, for negative values too. |
| `MobxCounter.IncrementFlipsParity` | src/features/mobx-concurrent/store.ts:14-20 | Adding 1 flips `isEven`. |
| `MobxCounter.CounterStore.constructor` | src/features/mobx-concurrent/store.ts:4-5 | A new store has `value == 0` and `loading == false`. |
| `MobxCounter.CounterStore.Increment` | src/features/mobx-concurrent/store.ts:18-20 | Raises `value` by exactly 1, leaves `loading` unchanged and flips `isEven`. |
| `MobxCounter.CounterStore.Reset` | src/features/mobx-concurrent/store.ts:22-24 | Sets `value` to 0, so a second reset changes nothing. `isEven` holds afterwards and `loading` is unchanged. |
| `MobxCounter.CounterStore.IncrementLaterStart` | src/features/mobx-concurrent/store.ts:27-29 | Before the `await`, `loading` is set to true and `value` is untouched. |
| `MobxCounter.CounterStore.IncrementLaterFinish` | src/features/mobx-concurrent/store.ts:31-43 | After the `await`, `value` rises by 1 if the wait settled normally. `loading` is false on both exit paths. |
| `MobxCounter.CounterStore.IncrementLater` | src/features/mobx-concurrent/store.ts:27-44 | Net effect of an uninterrupted call: `value` rises by 1 and `loading` ends false. |
| `MobxCounter.OverlappingIncrementLater` | src/features/mobx-concurrent/store.ts:27-44 | With two overlapping calls, `loading` is already false when the first finishes, though the second is still pending. |
| `Fibonacci.CalculateFibonacci` | src/hooks/useFibonacci.ts:12-26 | Returns `num` itself for `num <= 1`, otherwise F(num). The loop runs `num - 1` times. |
| `Fibonacci.UseFibonacci` | src/hooks/useFibonacci.ts:7-29 | Returns 0 for negative `n`, 0 for 0, 1 for 1, and F(n) in general. |
| `Fibonacci.FibStep` | src/hooks/useFibonacci.ts:19-23 | F(n) <= F(n+1). |
| `Fibonacci.FibMonotone` | src/hooks/useFibonacci.ts:7-29 | `useFibonacci` never decreases as `n` grows from 0. |
| `FeatureFilter.Includes` | src/contexts/FeatureFilterContext.tsx:111 | `includes` holds exactly when the id occurs in the list. |
| `FeatureFilter.RemoveFeature` | src/contexts/FeatureFilterContext.tsx:117-119 | Removes every occurrence of the id. Other ids keep their counts and order. Removing an absent id changes nothing. |
| `FeatureFilter.ToggleFeature` | src/contexts/FeatureFilterContext.tsx:109-115 | The id is selected afterwards exactly when it was not before. An absent id is appended at the end, with earlier entries unchanged. A present id is removed, with the others kept in order. |
| `FeatureFilter.ToggleTwiceRestores` | src/contexts/FeatureFilterContext.tsx:109-115 | Toggling an unselected id twice restores the original list. |
| `FeatureFilter.ToggleTwiceMovesToEnd` | src/contexts/FeatureFilterContext.tsx:109-115 | Toggling a selected id twice removes its occurrences and appends it once at the end. |
| `FeatureFilter.UpdatesKeepDistinct` | src/contexts/FeatureFilterContext.tsx:109-119 | A selection without duplicates stays without duplicates under toggle and remove. |
| `FeatureFilter.ClearAll` | src/contexts/FeatureFilterContext.tsx:121-123 | Afterwards no feature is selected. |
| `FeatureFilter.SelectAll` | src/contexts/FeatureFilterContext.tsx:125-127 | The 8 catalogue ids, in catalogue order and all distinct. Every feature is selected afterwards. |
| `FeatureFilter.IsFeatureSelected` | src/contexts/FeatureFilterContext.tsx:129-131 | Holds exactly when the id occurs in the selection. |
| `FeatureFilter.KeepSelected` | src/contexts/FeatureFilterContext.tsx:134 | The filter keeps exactly the entries whose id is selected, in their original order. Each kept entry keeps its number of copies. |
| `FeatureFilter.GetSelectedFeatures` | src/contexts/FeatureFilterContext.tsx:133-135 | Exactly the catalogue entries whose id is selected, in catalogue order, with no id twice. This holds even if the selection has repeats or a different order. |
| `FeatureFilter.CatalogueIdsDistinct` | src/contexts/FeatureFilterContext.tsx:20-69 | Every `FeatureId` occurs in the catalogue exactly once. The 8 entries are distinct, and no two share an id. |
| `FeatureFilter.SubsequenceKeepsDistinct` | src/contexts/FeatureFilterContext.tsx:134 | Filtering a list without repeats gives a list without repeats, drawn from the original. |

## Left out

- Listener callbacks are identities (`ListenerId`) with no effect of their own. So the model leaves out:
  - what a callback does (`forceUpdate`, React's re-render);
  - a callback that subscribes or unsubscribes while a notification is in progress.
- JavaScript `Set`s iterate in insertion order. The model's listener set is unordered, so it does not fix the order of notifications, only that each listener is called exactly once.
- `Listeners.NotifyAll`: the value each listener could read is passed in, not read back from the store. This is sound only because the modelled callbacks change nothing.
- React rendering is not part of this model. This covers `useSyncExternalStore`, `startTransition`, render scheduling and therefore the tearing guarantee itself: that comes from React, not from the store.
- The demos' `setTimeout` timing and `Date.now()` busy-waits are timing only and are not modelled.
- The `problematicData` variable of the comparison demo is not part of this model.
- `ExternalStore.getData` and `getSnapshot` are plain field reads (`GetData`, `GetSnapshot`). They have no contract of their own; what they return is stated in the constructor's and `SetData`'s contracts.
- `custom-store/hooks.ts` and `store.tsx` are not part of this model. This covers the `useEffect` subscription lifecycle and the `useStore` error for a missing provider; only the provider's `{0,0,0}` initial value is used.
- The feature-filter context and the custom-store context each throw when used outside their provider. React context lookup is not modelled.
- Zustand's `create`/`set` internals are not modelled. `set` is taken to be a shallow merge of the returned partial (`ZustandCounter.Merge`), and the stored action closures are identities.
- `CounterReducer.Reduce`: the typed `CounterAction` union has only the two increments, so typed callers cannot reach the `default` branch. The constructor `Other` stands for an untyped dispatch with any other `type` string.
- MobX's `makeAutoObservable`, reactions and `observer` are library code and are not modelled. The one-second delay of `incrementLater` is not modelled. The awaited timer never rejects, so the rejected path of `IncrementLaterFinish` is there only to show the `finally` behaviour.
- MobX `CounterStore.pending` is a ghost count of calls waiting at their `await`. It exists only in the model.
- Persistence of the selection in `localStorage` (JSON parse and stringify) is I/O and is not modelled. Parsed arrays are not checked to be valid ids; the model's `FeatureId` datatype cannot hold an invalid one.
- The catalogue's `name`, `description` and `category` are kept as data only. The category drop-down and card views are UI.
- JavaScript numbers are floating point. Counters and `data` are modelled as unbounded integers. Fibonacci loses precision above F(78), overflows to `Infinity` for the demos' `useFibonacci(100000000)`, and accepts fractional `n`; the model computes exact integers for integer `n`.
- Console logging is left out.
