/**
  The model section of ContentView: the three-valued `Something` enumeration,
  the application state value and the colour scheme derived from it.
 */
module Model {

  import opened Wrappers

  /** The closed enumeration `Something`, in declaration order. */
  datatype Something = Foo | Bar | Baz

  /** The integer raw value Swift assigns: `foo = 0`, then one more per case. */
  function RawValue(s: Something): (r: int)
    ensures 0 <= r <= 2
  {
    match s
    case Foo => 0
    case Bar => 1
    case Baz => 2
  }

  /** `Identifiable.id`, which the enumeration defines as its raw value. */
  function Id(s: Something): (r: int)
    ensures FromRaw(r) == Some(s)
  {
    RawValue(s)
  }

  /**
    The failable initialiser `Something(rawValue:)`: `None` for every integer
    that is not the raw value of a case.
   */
  function FromRaw(i: int): (r: Option<Something>)
    ensures r.Some? <==> 0 <= i <= 2
    ensures r.Some? ==> RawValue(r.value) == i
  {
    if i == 0 then Some(Foo)
    else if i == 1 then Some(Bar)
    else if i == 2 then Some(Baz)
    else None
  }

  /** `CaseIterable.allCases`: every case once, in declaration order. */
  function AllCases(): (r: seq<Something>)
    ensures |r| == 3
    ensures forall s: Something :: r[RawValue(s)] == s
    ensures forall k :: 0 <= k < |r| ==> RawValue(r[k]) == k
  {
    [Foo, Bar, Baz]
  }

  /** The display label of a case; note that `bar` is shown as "Boo". */
  function LocalizedName(s: Something): (r: string)
    ensures |r| > 0
  {
    match s
    case Foo => "Foo"
    case Bar => "Boo"
    case Baz => "Baz"
  }

  /** SwiftUI's two colour schemes. */
  datatype ColorScheme = Dark | Light

  /** The value of the `AppState` struct: one field, compared structurally. */
  datatype State = State(someState: Something)

  /** `AppState()`: the field defaults to `foo`. */
  const Initial: State := State(Foo)

  /** `activeColorScheme`: dark for `foo` and `bar`, light for `baz`. */
  function ActiveColorScheme(st: State): (r: ColorScheme)
    ensures r == Dark <==> st.someState != Baz
    ensures r == Light <==> st.someState == Baz
  {
    match st.someState
    case Foo => Dark
    case Bar => Dark
    case Baz => Light
  }

  /** `allCases` omits no case. */
  lemma AllCasesComplete(s: Something)
    ensures s in AllCases()
  {
  }

  /** Decoding the raw value of a case gives that case back. */
  lemma FromRawRoundTrip(s: Something)
    ensures FromRaw(RawValue(s)) == Some(s)
  {
  }

  /** `FromRaw` succeeds on `i` exactly when `i` is the raw value of that case. */
  lemma FromRawInverse(i: int, s: Something)
    ensures FromRaw(i) == Some(s) <==> RawValue(s) == i
  {
  }

  /** No two cases share an id, as `Identifiable` requires. */
  lemma IdInjective(a: Something, b: Something)
    ensures Id(a) == Id(b) <==> a == b
  {
  }

  /** `allCases` holds no case twice. */
  lemma AllCasesDistinct()
    ensures forall i, j :: 0 <= i < j < |AllCases()| ==> AllCases()[i] != AllCases()[j]
  {
  }

  /** No two cases share a label, so the picker's segments can be told apart. */
  lemma LabelsDistinct(a: Something, b: Something)
    ensures LocalizedName(a) == LocalizedName(b) <==> a == b
  {
  }

  /** A freshly made state selects `foo` and is shown dark. */
  lemma InitialIsDark()
    ensures Initial.someState == Foo
    ensures ActiveColorScheme(Initial) == Dark
  {
  }
}
