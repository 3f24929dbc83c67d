# StatusBar state machine

A Dafny model of the logic in the StatusBar demo application's
`ContentView.swift`: a segmented picker over the three-case enumeration
`Something`, an `AppState` holding the selected case, the colour scheme the
interface derives from it, and the reducer `appRecucer` that applies the one
action `somethingChanged`.

- `wrappers.dfy` — `Option`, the result of a lookup that may find nothing.
- `model.dfy` (module `Model`) — `Something` with its raw value, `id`,
  failable `init(rawValue:)` (`FromRaw`), `allCases` and `localizedName`;
  the value of `AppState` (`State`, default `Initial`) and
  `activeColorScheme`.
- `update.dfy` (module `Update`) — `AppAction`, the effect type, the reducer
  as a function (`AppReducer`) and the state object as a class `AppState`
  whose `Reduce` method overwrites its `someState` field in place; `Run`
  reduces a sequence of actions in order, as the store does one event after
  another.
- `view.dfy` (module `View`) — the picker binding's `get` (raw value of the
  selection) and `send` (force-unwrapped `Something(rawValue:)!`, modelled as
  a precondition), and the segments `ForEach(Something.allCases)` renders.

`FromRaw` is the failable initialiser and returns
`None` outside 0..2, while the binding's `send` unwraps it unchecked, so
`BindingSend` requires `FromRaw(i).Some?`; `OfferedIdsAccepted` and
`PickerOptions` show that every id the picker offers meets it.

## Model

| member | source | states |
|---|---|---|
| Model.RawValue | StatusBar/ContentView.swift:14-21 | every raw value lies in 0..2 |
| Model.Id | StatusBar/ContentView.swift:14-17 | the id of a case decodes back to that case |
| Model.FromRaw | StatusBar/ContentView.swift:14-21 | the failable initialiser succeeds exactly on 0, 1 and 2, and what it returns has the given raw value |
| Model.AllCases | StatusBar/ContentView.swift:14-21 | `allCases` has three entries, entry k has raw value k, and every case sits at the position of its raw value |
| Model.LocalizedName | StatusBar/ContentView.swift:23-32 | the label is total and never empty |
| Model.ActiveColorScheme | StatusBar/ContentView.swift:39-43 | dark exactly when the selection is not `baz`, light exactly when it is `baz` |
| Model.AllCasesComplete | StatusBar/ContentView.swift:14-21 | every case occurs in `allCases` |
| Model.FromRawRoundTrip | StatusBar/ContentView.swift:14-21 | decoding a case's raw value gives that case |
| Model.FromRawInverse | StatusBar/ContentView.swift:14-21 | `FromRaw(i)` is `Some(s)` if and only if `i` is the raw value of `s` |
| Model.IdInjective | StatusBar/ContentView.swift:14-17 | two cases have the same id if and only if they are the same case |
| Model.AllCasesDistinct | StatusBar/ContentView.swift:14-21 | no case occurs twice in `allCases` |
| Model.LabelsDistinct | StatusBar/ContentView.swift:23-32 | two cases have the same label if and only if they are the same case |
| Model.InitialIsDark | StatusBar/ContentView.swift:35-43 | a new state selects `foo` and is shown dark |
| Update.AppReducer | StatusBar/ContentView.swift:53-60 | after `somethingChanged(s)` the selection is `s`, and the effect is none |
| Update.Run | StatusBar/ContentView.swift:53-60 | reducing no actions leaves the state as it was |
| Update.ReduceForgetsPrior | StatusBar/ContentView.swift:56-58 | the result of an action does not depend on the prior state |
| Update.ReduceIdempotent | StatusBar/ContentView.swift:56-58 | re-sending the current selection leaves the state equal to what it was |
| Update.ReduceLastWins | StatusBar/ContentView.swift:53-60 | two successive actions leave the state the second alone would |
| Update.RunLastWins | StatusBar/ContentView.swift:53-60 | after any non-empty sequence of actions the state is the one the last action selected |
| Update.SelectBazIsLight | StatusBar/ContentView.swift:35-60 | selecting `baz` from the initial state gives selection `baz` and a light scheme |
| Update.BarThenFooIsInitial | StatusBar/ContentView.swift:35-60 | selecting `bar` then `foo` from the initial state returns to the initial state |
| Update.AppState.constructor | StatusBar/ContentView.swift:35-37 | a new `AppState` selects `foo` |
| Update.AppState.ActiveColorScheme | StatusBar/ContentView.swift:39-43 | the object's colour scheme is dark exactly when its selection is not `baz` |
| Update.SelectBazOnStore | StatusBar/ContentView.swift:35-60 | on a new `AppState` object, reducing `somethingChanged(baz)` gives a light scheme and no effect |
| Update.BarThenFooOnStore | StatusBar/ContentView.swift:35-60 | on a new `AppState` object, reducing `somethingChanged(bar)` then `somethingChanged(foo)` returns its value to the initial state |
| Update.AppState.Reduce | StatusBar/ContentView.swift:53-60 | the field is overwritten with the action's case, no effect is returned, and the new value is `AppReducer` of the old |
| View.BindingGet | StatusBar/ContentView.swift:72 | the id the picker shows decodes back to the current selection |
| View.BindingSend | StatusBar/ContentView.swift:73 | for an id the unwrap accepts, the action selects the case with that raw value |
| View.SendAcceptsExactly | StatusBar/ContentView.swift:73 | the force-unwrap succeeds exactly for ids 0, 1 and 2 |
| View.OfferedIdsAccepted | StatusBar/ContentView.swift:73-77 | every id the picker offers passes the force-unwrap |
| View.SendGetIsIdentity | StatusBar/ContentView.swift:71-74 | `send(get(state))` is `somethingChanged(state.someState)` and reducing it leaves the state unchanged |
| View.GetAfterSend | StatusBar/ContentView.swift:71-74 | after the picker sends an accepted id, `get` shows that id |
| View.SegmentTitles | StatusBar/ContentView.swift:77-79 | the segments read "Foo", "Boo", "Baz", in that order |
| View.PickerOptions | StatusBar/ContentView.swift:77-79 | one segment per case in `allCases` order, tagged with the case's id and titled with its label, and each tag decodes to its case |

## Left out

- SwiftUI layout and styling (`VStack`, `Text`, fonts, picker style, background, `.preferredColorScheme`): presentation only; `ActiveColorScheme` is the value handed to `.preferredColorScheme`.
- The ComposableArchitecture runtime (`Store`, `WithViewStore`, `viewStore.binding`, `Effect`): a foreign library; the store is the `AppState` object, effects are the one-value type `Effect` whose only value stands for `.none`, and `Run` stands for the store reducing dispatched actions one after another.
- `AppEnvironment`: an empty struct with no behaviour.
- `ContentView_Previews`: preview scaffolding.
- Re-rendering and observation of state changes: driven by the framework and not visible in the code.
- View.BindingSend: the trap of `!` on an invalid id is not modelled as behaviour; it is a precondition that callers must meet.
