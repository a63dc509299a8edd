/**
 * The saved-designs panel (src/app/design-lab/_components/design-selector.tsx):
 * a list of designs kept in component state, a save dialog and a name field.
 */
module DesignSelector {
  import opened Wrappers
  import opened DesignModel

  /** The copy saved from the current design: the entered name and the save time; `now` stands for the clock. */
  function SaveCopy(d: Design, name: string, now: int): (r: Design)
    ensures r.name == name && r.updatedAt == Some(now)
    ensures r.(name := d.name, updatedAt := d.updatedAt) == d
  {
    d.(name := name, updatedAt := Some(now))
  }

  /** The delete filter: keeps, in order, the entries whose id differs from `designId`. */
  function DeleteById(designs: seq<Design>, designId: Option<string>): (r: seq<Design>)
    ensures |r| <= |designs|
    ensures forall d :: d in r ==> d in designs && d.id != designId
    ensures forall d :: d in designs && d.id != designId ==> d in r
  {
    if designs == [] then []
    else
      (if designs[0].id != designId then [designs[0]] else [])
      + DeleteById(designs[1..], designId)
  }

  /** The filter keeps the surviving entries in order: it distributes over concatenation. */
  lemma {:induction false} DeleteKeepsOrder(a: seq<Design>, b: seq<Design>, designId: Option<string>)
    ensures DeleteById(a + b, designId) == DeleteById(a, designId) + DeleteById(b, designId)
    decreases |a|
  {
    if a != [] {
      var head := if a[0].id != designId then [a[0]] else [];
      assert (a + b)[0] == a[0];
      assert (a + b)[1..] == a[1..] + b;
      assert DeleteById(a + b, designId) == head + DeleteById(a[1..] + b, designId);
      DeleteKeepsOrder(a[1..], b, designId);
      assert DeleteById(a, designId) == head + DeleteById(a[1..], designId);
    } else {
      assert a + b == b;
    }
  }

  /** Deleting an id no entry carries leaves the list unchanged. */
  lemma {:induction false} DeleteAbsent(designs: seq<Design>, designId: Option<string>)
    requires forall k :: 0 <= k < |designs| ==> designs[k].id != designId
    ensures DeleteById(designs, designId) == designs
    decreases |designs|
  {
    if designs != [] {
      DeleteAbsent(designs[1..], designId);
    }
  }

  /** A second delete of the same id changes nothing. */
  lemma DeleteIdempotent(designs: seq<Design>, designId: Option<string>)
    ensures DeleteById(DeleteById(designs, designId), designId) == DeleteById(designs, designId)
  {
    var r := DeleteById(designs, designId);
    forall k | 0 <= k < |r|
      ensures r[k].id != designId
    {
      assert r[k] in r;
    }
    DeleteAbsent(r, designId);
  }

  /**
   * Saved copies never get an id, so the delete button of any listed entry
   * passes `undefined` and the filter removes every entry.
   */
  lemma DeleteWithoutIds(designs: seq<Design>, k: nat)
    requires k < |designs|
    requires forall j :: 0 <= j < |designs| ==> designs[j].id == None
    ensures DeleteById(designs, designs[k].id) == []
  {
    DeleteUndefined(designs);
  }

  lemma {:induction false} DeleteUndefined(designs: seq<Design>)
    requires forall j :: 0 <= j < |designs| ==> designs[j].id == None
    ensures DeleteById(designs, None) == []
    decreases |designs|
  {
    if designs != [] {
      DeleteUndefined(designs[1..]);
    }
  }

  /** The panel's three state cells. */
  class SavedDesigns {
    var designs: seq<Design>
    var isDialogOpen: bool
    var designName: string

    constructor ()
      ensures designs == [] && !isDialogOpen && designName == ""
    {
      designs := [];
      isDialogOpen := false;
      designName := "";
    }

    /** The name field's `onChange`. */
    method SetDesignName(name: string)
      modifies this
      ensures designName == name && designs == old(designs) && isDialogOpen == old(isDialogOpen)
    {
      designName := name;
    }

    /** The dialog's `onOpenChange`. */
    method SetDialogOpen(open: bool)
      modifies this
      ensures isDialogOpen == open && designs == old(designs) && designName == old(designName)
    {
      isDialogOpen := open;
    }

    /**
     * `handleSave`: without a current design or with an empty name nothing
     * happens; otherwise the copy handed to `onSave` is appended (saves are not
     * de-duplicated), the dialog closes and the name field is cleared.
     */
    method HandleSave(currentDesign: Option<Design>, now: int) returns (saved: Option<Design>)
      modifies this
      ensures currentDesign.None? || old(designName) == "" ==>
        && saved == None
        && designs == old(designs) && isDialogOpen == old(isDialogOpen) && designName == old(designName)
      ensures currentDesign.Some? && old(designName) != "" ==>
        && saved == Some(SaveCopy(currentDesign.value, old(designName), now))
        && designs == old(designs) + [saved.value]
        && !isDialogOpen && designName == ""
    {
      if currentDesign.None? || designName == "" {
        return None;
      }
      var designToSave := SaveCopy(currentDesign.value, designName, now);
      saved := Some(designToSave);
      designs := designs + [designToSave];
      isDialogOpen := false;
      designName := "";
    }

    /** `handleDelete(designId)`: only the list changes. */
    method HandleDelete(designId: Option<string>)
      modifies this
      ensures designs == DeleteById(old(designs), designId)
      ensures isDialogOpen == old(isDialogOpen) && designName == old(designName)
    {
      designs := DeleteById(designs, designId);
    }
  }
}
