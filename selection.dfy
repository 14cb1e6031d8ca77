/** The selection list shared by the Users and Media screens: an array of
    record ids with a per-row checkbox (toggle) and a header checkbox
    (select all / deselect all). */
module Selection {
  import opened Seqs

  /** `prev.filter(x => x !== id)`: every occurrence of `id` removed. */
  function RemoveId(selected: seq<int>, id: int): (r: seq<int>)
    ensures id !in r
    ensures forall x :: x != id ==> (x in r <==> x in selected)
  {
    Filter(x => x != id, selected)
  }

  /** The row checkbox: `prev.includes(id) ? prev.filter(x => x !== id)
      : [...prev, id]`. */
  function Toggle(selected: seq<int>, id: int): (r: seq<int>)
    ensures (id in r) <==> (id !in selected)
    ensures forall x :: x != id ==> (x in r <==> x in selected)
    ensures id !in selected ==> r == selected + [id]
    ensures id in selected ==> |r| < |selected|
  {
    if id in selected then
      FilterDropsSomething(selected, id);
      RemoveId(selected, id)
    else selected + [id]
  }

  lemma {:induction false} FilterDropsSomething(s: seq<int>, id: int)
    requires id in s
    ensures |Filter(x => x != id, s)| < |s|
    decreases |s|
  {
    if s[0] != id {
      FilterDropsSomething(s[1..], id);
    }
  }

  /** Ticking an unticked row and unticking it again restores the
      selection exactly, order included. */
  lemma ToggleTwiceRestores(selected: seq<int>, id: int)
    requires id !in selected
    ensures Toggle(Toggle(selected, id), id) == selected
  {
    var p := x => x != id;
    FilterAppend(p, selected, [id]);
    FilterKeepsAll(p, selected);
  }

  /** The header checkbox compares lengths only: a selection as long as the
      view is cleared, anything else becomes the view's ids in view order. */
  function SelectAll(selected: seq<int>, viewIds: seq<int>): (r: seq<int>)
    ensures |selected| == |viewIds| ==> r == []
    ensures |selected| != |viewIds| ==> r == viewIds
  {
    if |selected| == |viewIds| then [] else viewIds
  }

  /** Clicking the header checkbox twice restores an empty selection and a
      selection of exactly the view's ids; every other non-empty selection
      of a different length from the view ends up cleared. */
  lemma SelectAllTwice(selected: seq<int>, viewIds: seq<int>)
    ensures selected == [] || selected == viewIds ==>
              SelectAll(SelectAll(selected, viewIds), viewIds) == selected
    ensures selected != [] && |selected| != |viewIds| ==>
              SelectAll(SelectAll(selected, viewIds), viewIds) == [] != selected
  {
  }

  /** A selection of the same length as the view but other ids is cleared,
      not completed: the comparison never looks at the ids. */
  lemma SelectAllIgnoresIds(selected: seq<int>, viewIds: seq<int>)
    requires |selected| == |viewIds| && selected != viewIds
    ensures SelectAll(selected, viewIds) == [] && SelectAll(viewIds, viewIds) == []
  {
  }
}
