/**
  The view section of ContentView: the picker's binding between the selected
  case and the integer id it shows, and the options it renders.
 */
module View {

  import opened Wrappers
  import opened Model
  import opened Update

  /** The binding's `get`: the picker shows the raw value of the selection. */
  function BindingGet(st: State): (i: int)
    ensures FromRaw(i) == Some(st.someState)
  {
    RawValue(st.someState)
  }

  /**
    The binding's `send`: rebuild the case with the force-unwrapped
    `Something(rawValue:)!`, which traps unless `i` is a raw value.
   */
  function BindingSend(i: int): (a: Action)
    requires FromRaw(i).Some?
    ensures RawValue(a.something) == i
  {
    SomethingChanged(FromRaw(i).value)
  }

  /** The unwrap in `send` succeeds exactly for the integers 0, 1 and 2. */
  lemma SendAcceptsExactly(i: int)
    ensures FromRaw(i).Some? <==> 0 <= i <= 2
  {
  }

  /** Every id the picker offers is one `send` accepts. */
  lemma OfferedIdsAccepted()
    ensures forall k :: 0 <= k < |AllCases()| ==> FromRaw(Id(AllCases()[k])).Some?
  {
  }

  /** Sending back what `get` shows re-selects the current case and changes nothing. */
  lemma SendGetIsIdentity(st: State)
    ensures BindingSend(BindingGet(st)) == SomethingChanged(st.someState)
    ensures AppReducer(st, BindingSend(BindingGet(st))).0 == st
  {
  }

  /** After the picker sends an accepted id, `get` shows that id. */
  lemma GetAfterSend(st: State, i: int)
    requires FromRaw(i).Some?
    ensures BindingGet(AppReducer(st, BindingSend(i)).0) == i
  {
  }

  /** The segments read "Foo", "Boo" and "Baz", in that order. */
  lemma SegmentTitles()
    ensures forall k :: 0 <= k < |AllCases()| ==> LocalizedName(AllCases()[k]) == ["Foo", "Boo", "Baz"][k]
  {
  }

  /** One picker segment: the id it is tagged with and the title it shows. */
  datatype Segment = Segment(id: int, title: string)

  /** `ForEach(Something.allCases)`: one segment per case, in `allCases` order. */
  method PickerOptions() returns (options: seq<Segment>)
    ensures |options| == |AllCases()|
    ensures forall k :: 0 <= k < |options| ==>
      options[k] == Segment(k, LocalizedName(AllCases()[k]))
    ensures forall k :: 0 <= k < |options| ==> FromRaw(options[k].id) == Some(AllCases()[k])
  {
    var all := AllCases();
    options := [];
    for n := 0 to |all|
      invariant |options| == n
      invariant forall k :: 0 <= k < n ==> options[k] == Segment(k, LocalizedName(all[k]))
      invariant forall k :: 0 <= k < n ==> FromRaw(options[k].id) == Some(all[k])
    {
      options := options + [Segment(Id(all[n]), LocalizedName(all[n]))];
    }
  }
}
