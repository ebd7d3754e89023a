/**
 * The checkbox selections kept as `Set<number>` by the delivery report, the
 * pickup history and the reminder screen: toggling one id, selecting every
 * listed id and the "all selected" flag of the header checkbox.
 */
module Selection {

  /** `checked ? set.add(id) : set.delete(id)` on a copy of the selection. */
  function Toggle(sel: set<nat>, id: nat, checked: bool): (r: set<nat>)
    ensures id in r <==> checked
    ensures forall x :: x != id ==> (x in r <==> x in sel)
  {
    if checked then sel + {id} else sel - {id}
  }

  /** The ids of a list, as `new Set(list.map(x => x.id))` builds them. */
  function IdSet(ids: seq<nat>): (r: set<nat>)
    ensures forall x :: x in r <==> x in ids
  {
    set i | 0 <= i < |ids| :: ids[i]
  }

  /** `checked ? new Set(ids) : new Set()`. */
  function SelectAll(ids: seq<nat>, checked: bool): (r: set<nat>)
    ensures checked ==> forall x :: x in r <==> x in ids
    ensures !checked ==> r == {}
  {
    if checked then IdSet(ids) else {}
  }

  /** `ids.length > 0 && ids.every(id => sel.has(id))`. */
  predicate IsAllSelected(ids: seq<nat>, sel: set<nat>)
  {
    |ids| > 0 && forall i :: 0 <= i < |ids| ==> ids[i] in sel
  }

  /** Selecting all and then reading the header flag gives `true` exactly when the list is non-empty. */
  lemma SelectAllThenAllSelected(ids: seq<nat>)
    ensures IsAllSelected(ids, SelectAll(ids, true)) <==> |ids| > 0
    ensures !IsAllSelected(ids, SelectAll(ids, false))
  {
    if |ids| > 0 {
      assert ids[0] !in SelectAll(ids, false);
    }
  }

  /** Un-ticking one listed id always clears the header flag. */
  lemma ToggleOffClearsAll(ids: seq<nat>, sel: set<nat>, k: nat)
    requires k < |ids|
    ensures !IsAllSelected(ids, Toggle(sel, ids[k], false))
  {
  }
}
