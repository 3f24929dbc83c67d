/**
  The update section of ContentView: the single action, the reducer
  `appRecucer`, and the state object the reducer changes in place.
 */
module Update {

  import opened Model

  /** `AppAction`: the only action carries the newly selected case. */
  datatype Action = SomethingChanged(something: Something)

  /** The effect a reducer returns; this reducer only ever returns `.none`. */
  datatype Effect = NoEffect

  /** The reducer as a function from the old state and an action to the new state and effect. */
  function AppReducer(st: State, action: Action): (r: (State, Effect))
    ensures r.0.someState == action.something
    ensures r.1 == NoEffect
  {
    match action
    case SomethingChanged(s) => (st.(someState := s), NoEffect)
  }

  /** The state after the store has reduced the given actions in order. */
  function Run(st: State, actions: seq<Action>): (r: State)
    ensures actions == [] ==> r == st
    decreases |actions|
  {
    if actions == [] then st
    else Run(AppReducer(st, actions[0]).0, actions[1..])
  }

  /** The new state does not depend on the old one. */
  lemma ReduceForgetsPrior(st1: State, st2: State, action: Action)
    ensures AppReducer(st1, action) == AppReducer(st2, action)
  {
  }

  /** Re-sending the current selection changes nothing. */
  lemma ReduceIdempotent(st: State)
    ensures AppReducer(st, SomethingChanged(st.someState)).0 == st
  {
  }

  /** Two successive actions leave the state the last one alone would. */
  lemma ReduceLastWins(st: State, a: Action, b: Action)
    ensures AppReducer(AppReducer(st, a).0, b).0 == AppReducer(st, b).0
  {
  }

  /** After any non-empty run of actions, the state is what the last action selected. */
  lemma {:induction false} RunLastWins(st: State, actions: seq<Action>)
    requires |actions| > 0
    decreases |actions|
    ensures Run(st, actions) == State(actions[|actions| - 1].something)
  {
    var next := AppReducer(st, actions[0]).0;
    if |actions| == 1 {
      assert Run(next, actions[1..]) == next;
    } else {
      RunLastWins(next, actions[1..]);
    }
  }

  /** Selecting `baz` from the initial state gives a light interface. */
  lemma SelectBazIsLight()
    ensures Run(Initial, [SomethingChanged(Baz)]).someState == Baz
    ensures ActiveColorScheme(Run(Initial, [SomethingChanged(Baz)])) == Light
  {
  }

  /** Selecting `bar` and then `foo` returns to the initial state. */
  lemma BarThenFooIsInitial()
    ensures Run(Initial, [SomethingChanged(Bar), SomethingChanged(Foo)]) == Initial
  {
  }

  /** Selecting `baz` on a new state object gives a light interface and no effect. */
  method SelectBazOnStore() returns (scheme: ColorScheme, effect: Effect)
    ensures scheme == Light
    ensures effect == NoEffect
  {
    var st := new AppState();
    effect := st.Reduce(SomethingChanged(Baz));
    scheme := st.ActiveColorScheme();
  }

  /** Selecting `bar` and then `foo` on a new state object returns it to the initial value. */
  method BarThenFooOnStore() returns (final: State)
    ensures final == Initial
  {
    var st := new AppState();
    var _ := st.Reduce(SomethingChanged(Bar));
    var _ := st.Reduce(SomethingChanged(Foo));
    final := st.Value();
  }

  /** The store's `AppState`, which the reducer updates in place. */
  class AppState {
    var someState: Something

    /** `AppState()`: the selection starts at `foo`. */
    constructor ()
      ensures someState == Foo
      ensures Value() == Initial
    {
      someState := Foo;
    }

    /** The structural value of this state. */
    function Value(): State
      reads this
    {
      State(someState)
    }

    /** `activeColorScheme`, read off the current selection. */
    function ActiveColorScheme(): (r: ColorScheme)
      reads this
      ensures r == Dark <==> someState != Baz
    {
      Model.ActiveColorScheme(Value())
    }

    /** `appRecucer` on this state: overwrite the selection and return no effect. */
    method Reduce(action: Action) returns (effect: Effect)
      modifies this
      ensures someState == action.something
      ensures effect == NoEffect
      ensures (Value(), effect) == AppReducer(old(Value()), action)
    {
      match action {
        case SomethingChanged(something) =>
          someState := something;
          effect := NoEffect;
      }
    }
  }
}
