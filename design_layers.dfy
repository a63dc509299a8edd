/**
 * The layers panel (src/app/design-lab/_components/design-layers.tsx):
 * visibility toggle, DPI input and drag-and-drop reordering. Each handler
 * computes the new layer list that it passes to `onChange`.
 */
module DesignLayers {
  import opened Wrappers
  import opened DesignModel

  /** The visibility toggle: flips `visible` on the layers whose id is `layerId`. */
  function ToggleVisibility(layers: seq<Layer>, layerId: string): (r: seq<Layer>)
    ensures |r| == |layers|
    ensures forall i :: 0 <= i < |r| ==>
      && r[i].visible == (if layers[i].id == layerId then !layers[i].visible else layers[i].visible)
      && r[i].(visible := layers[i].visible) == layers[i]
  {
    if layers == [] then []
    else
      var head := if layers[0].id == layerId then layers[0].(visible := !layers[0].visible) else layers[0];
      [head] + ToggleVisibility(layers[1..], layerId)
  }

  /** The DPI input: stores `dpi` verbatim on the layers whose id is `layerId`. */
  function UpdateDpi(layers: seq<Layer>, layerId: string, dpi: real): (r: seq<Layer>)
    ensures |r| == |layers|
    ensures forall i :: 0 <= i < |r| ==>
      && r[i].dpi == (if layers[i].id == layerId then dpi else layers[i].dpi)
      && r[i].(dpi := layers[i].dpi) == layers[i]
  {
    if layers == [] then []
    else
      var head := if layers[0].id == layerId then layers[0].(dpi := dpi) else layers[0];
      [head] + UpdateDpi(layers[1..], layerId, dpi)
  }

  /** Toggling the same layer twice gives back the original list. */
  lemma ToggleTwice(layers: seq<Layer>, layerId: string)
    ensures ToggleVisibility(ToggleVisibility(layers, layerId), layerId) == layers
  {
    var once := ToggleVisibility(layers, layerId);
    var twice := ToggleVisibility(once, layerId);
    forall i | 0 <= i < |layers|
      ensures twice[i] == layers[i]
    {
      assert once[i].id == layers[i].id by {
        assert once[i].(visible := layers[i].visible) == layers[i];
      }
    }
  }

  /** Both handlers keep the ids in their order, so the list keeps its length and order. */
  lemma HandlersKeepIds(layers: seq<Layer>, layerId: string, dpi: real)
    ensures Ids(ToggleVisibility(layers, layerId)) == Ids(layers)
    ensures Ids(UpdateDpi(layers, layerId, dpi)) == Ids(layers)
  {
    var t := ToggleVisibility(layers, layerId);
    var u := UpdateDpi(layers, layerId, dpi);
    forall i | 0 <= i < |layers|
      ensures t[i].id == layers[i].id && u[i].id == layers[i].id
    {
      assert t[i].(visible := layers[i].visible) == layers[i];
      assert u[i].(dpi := layers[i].dpi) == layers[i];
    }
  }

  /** An id that no layer carries leaves the list as it was. */
  lemma UnknownIdChangesNothing(layers: seq<Layer>, layerId: string, dpi: real)
    requires layerId !in Ids(layers)
    ensures ToggleVisibility(layers, layerId) == layers
    ensures UpdateDpi(layers, layerId, dpi) == layers
  {
    var t := ToggleVisibility(layers, layerId);
    var u := UpdateDpi(layers, layerId, dpi);
    forall i | 0 <= i < |layers|
      ensures t[i] == layers[i] && u[i] == layers[i]
    {
      assert Ids(layers)[i] == layers[i].id;
    }
  }

  /**
   * The reorder of a drag: the item at `from` is taken out and put back at
   * index `to` of the shortened list.
   */
  function Move<T>(xs: seq<T>, from: nat, to: nat): (r: seq<T>)
    requires from < |xs| && to < |xs|
    ensures |r| == |xs| && r[to] == xs[from]
  {
    var rest := xs[..from] + xs[from + 1..];
    rest[..to] + [xs[from]] + rest[to..]
  }

  /** The moved item ends at `to`, and the other items keep their relative order. */
  lemma MovePlacesItem<T>(xs: seq<T>, from: nat, to: nat)
    requires from < |xs| && to < |xs|
    ensures |Move(xs, from, to)| == |xs|
    ensures Move(xs, from, to)[to] == xs[from]
    ensures Move(xs, from, to)[..to] + Move(xs, from, to)[to + 1..] == xs[..from] + xs[from + 1..]
  {
    var rest := xs[..from] + xs[from + 1..];
    var r := Move(xs, from, to);
    assert r[..to] == rest[..to];
    assert r[to + 1..] == rest[to..];
  }

  /** A move is a permutation. */
  lemma MoveIsPermutation<T>(xs: seq<T>, from: nat, to: nat)
    requires from < |xs| && to < |xs|
    ensures multiset(Move(xs, from, to)) == multiset(xs)
  {
    var rest := xs[..from] + xs[from + 1..];
    assert xs == xs[..from] + [xs[from]] + xs[from + 1..];
    assert rest == rest[..to] + rest[to..];
    calc {
      multiset(Move(xs, from, to));
      multiset(rest[..to]) + multiset([xs[from]]) + multiset(rest[to..]);
      multiset(rest) + multiset([xs[from]]);
      multiset(xs[..from]) + multiset(xs[from + 1..]) + multiset([xs[from]]);
      multiset(xs);
    }
  }

  /** Dragging the item back from `to` to `from` undoes the move. */
  lemma MoveBack<T>(xs: seq<T>, from: nat, to: nat)
    requires from < |xs| && to < |xs|
    ensures Move(Move(xs, from, to), to, from) == xs
  {
    var r := Move(xs, from, to);
    MovePlacesItem(xs, from, to);
    var rest := r[..to] + r[to + 1..];
    assert Move(r, to, from) == rest[..from] + [r[to]] + rest[from..];
    assert xs == xs[..from] + [xs[from]] + xs[from + 1..];
  }

  /** The renumbering after a drag: the first layer gets the highest z-index, the last gets 1. */
  function Renumber(items: seq<Layer>): (r: seq<Layer>)
    ensures |r| == |items|
    ensures forall i :: 0 <= i < |r| ==> r[i].(zIndex := items[i].zIndex) == items[i]
    ensures forall i :: 0 <= i < |r| ==> 1 <= r[i].zIndex <= |items|
  {
    seq(|items|, i requires 0 <= i < |items| => items[i].(zIndex := |items| - i))
  }

  /** After renumbering, only `zIndex` has changed, and it runs n, n-1, ..., 1 down the list. */
  lemma RenumberStacking(items: seq<Layer>)
    ensures |Renumber(items)| == |items|
    ensures forall i :: 0 <= i < |items| ==>
      Renumber(items)[i].zIndex == |items| - i && Renumber(items)[i].(zIndex := items[i].zIndex) == items[i]
    ensures forall i, j :: 0 <= i < j < |items| ==> Renumber(items)[i].zIndex > Renumber(items)[j].zIndex
  {
  }

  /** The set of z-indices used by a layer list. */
  function ZIndices(layers: seq<Layer>): set<int>
  {
    set i | 0 <= i < |layers| :: layers[i].zIndex
  }

  /** The z-indices after a renumbering are exactly 1..n, with no gap and no duplicate. */
  lemma RenumberIsDense(items: seq<Layer>)
    ensures forall z :: z in ZIndices(Renumber(items)) <==> 1 <= z <= |items|
  {
    var r := Renumber(items);
    forall z | 1 <= z <= |items|
      ensures z in ZIndices(r)
    {
      var i := |items| - z;
      assert r[i].zIndex == z;
    }
  }

  /** The drag-and-drop result: the source index and the drop index, absent when dropped outside. */
  datatype DragResult = DragResult(source: int, destination: Option<int>)

  /**
   * Removing one item from an array of fixed length: the items after `from`
   * shift one place left, and the removed item is returned; the last slot is
   * left over.
   */
  method SpliceOut(items: array<Layer>, from: int) returns (removed: Layer)
    requires 0 <= from < items.Length
    modifies items
    ensures removed == old(items[from])
    ensures items[..items.Length - 1] == old(items[..from]) + old(items[from + 1..])
  {
    ghost var before := items[..];
    removed := items[from];
    var i := from;
    while i < items.Length - 1
      invariant from <= i <= items.Length - 1
      invariant forall k :: 0 <= k < from ==> items[k] == before[k]
      invariant forall k :: from <= k < i ==> items[k] == before[k + 1]
      invariant forall k :: i <= k < items.Length ==> items[k] == before[k]
    {
      items[i] := items[i + 1];
      i := i + 1;
    }
    assert items[..items.Length - 1] == before[..from] + before[from + 1..];
  }

  /**
   * Inserting one item into an array whose last slot is free: the items
   * from `to` on shift one place right, and `item` is written at `to`.
   */
  method SpliceIn(items: array<Layer>, to: int, item: Layer)
    requires 0 <= to < items.Length
    modifies items
    ensures items[..] == old(items[..to]) + [item] + old(items[to..items.Length - 1])
  {
    ghost var before := items[..];
    var j := items.Length - 1;
    while j > to
      invariant to <= j <= items.Length - 1
      invariant forall k :: 0 <= k < j ==> items[k] == before[k]
      invariant forall k :: j < k < items.Length ==> items[k] == before[k - 1]
    {
      items[j] := items[j - 1];
      j := j - 1;
    }
    items[to] := item;
    assert items[..] == before[..to] + [item] + before[to..items.Length - 1];
  }

  /**
   * The end of a drag: `None` when there is no destination (`onChange` is
   * not called); otherwise the list handed to `onChange`. The drag library only
   * reports indices of the list it shows.
   */
  method HandleDragEnd(layers: seq<Layer>, result: DragResult) returns (changed: Option<seq<Layer>>)
    requires result.destination.Some? ==>
      0 <= result.source < |layers| && 0 <= result.destination.value < |layers|
    ensures result.destination.None? ==> changed == None
    ensures result.destination.Some? ==>
      changed == Some(Renumber(Move(layers, result.source, result.destination.value)))
  {
    if result.destination.None? {
      return None;
    }
    var from, to := result.source, result.destination.value;
    var n := |layers|;
    // a fresh copy of the list
    var items := new Layer[n](i requires 0 <= i < n => layers[i]);
    assert items[..] == layers;
    var moved := SpliceOut(items, from);
    SpliceIn(items, to, moved);
    assert items[..] == Move(layers, from, to);
    // renumber the z-indices
    var updated := Renumber(items[..]);
    changed := Some(updated);
  }

  /**
   * Three layers A, B, C appended in that order (z-indices 0, 1, 2); dragging C
   * to the top of the list gives C, A, B with z-indices 3, 2, 1.
   */
  lemma DragScenario(a: Layer, b: Layer, c: Layer)
    requires a.zIndex == 0 && b.zIndex == 1 && c.zIndex == 2
    ensures Renumber(Move([a, b, c], 2, 0)) == [c.(zIndex := 3), a.(zIndex := 2), b.(zIndex := 1)]
  {
    assert Move([a, b, c], 2, 0) == [c, a, b];
  }
}
