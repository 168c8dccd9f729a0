/**
 * The editable protocol cheat-sheet: a list of items keyed by id, edited in
 * place while in edit mode and written to storage only by the save button.
 */
module ProtocolSpec {
  import opened Wrappers
  import opened Seqs
  import opened Types

  /** The items shown before anything is saved. */
  const DefaultSpecs: seq<ProtocolSpecItem> := [
    ProtocolSpecItem("1", "Ping", "text-netty-600", "{\"type\":\"PING\"}"),
    ProtocolSpecItem("2", "Auth", "text-amber-600", "{\"type\":\"AUTH\",\"token\":\"...\"}"),
    ProtocolSpecItem("3", "Msg", "text-emerald-600", "{\"type\":\"MESSAGE\",\"content\":\"...\"}")
  ]

  /** A property name of an item (`keyof ProtocolSpecItem`). */
  datatype Field = Id | LabelText | Color | Format

  /** `{ ...s, [field]: value }`: the named field holds `value`, every other field is as before. */
  function WithField(s: ProtocolSpecItem, field: Field, value: string): (r: ProtocolSpecItem)
    ensures r.id == if field == Id then value else s.id
    ensures r.labelText == if field == LabelText then value else s.labelText
    ensures r.color == if field == Color then value else s.color
    ensures r.format == if field == Format then value else s.format
  {
    match field
    case Id => s.(id := value)
    case LabelText => s.(labelText := value)
    case Color => s.(color := value)
    case Format => s.(format := value)
  }

  /** Some item of `specs` has id `id`. */
  predicate HasId(specs: seq<ProtocolSpecItem>, id: string)
  {
    exists i :: 0 <= i < |specs| && specs[i].id == id
  }

  /**
   * The panel: whether it is in edit mode, the items shown, and what the
   * storage key holds.
   */
  datatype SpecPanel = SpecPanel(isEditing: bool, specs: seq<ProtocolSpecItem>, stored: Option<seq<ProtocolSpecItem>>)

  /** Mounting: the stored items, or the defaults when none are stored; not editing. */
  function Mount(saved: Option<seq<ProtocolSpecItem>>): (p: SpecPanel)
    ensures !p.isEditing && p.stored == saved
    ensures p.specs == if saved.Some? then saved.value else DefaultSpecs
  {
    SpecPanel(false, if saved.Some? then saved.value else DefaultSpecs, saved)
  }

  /**
   * `updateSpec`: `field` set to `value` on every item with id `id`; every
   * other item, the order, the length and the storage are unchanged.
   */
  function UpdateSpec(p: SpecPanel, id: string, field: Field, value: string): (r: SpecPanel)
    ensures |r.specs| == |p.specs| && r.stored == p.stored && r.isEditing == p.isEditing
    ensures forall i :: 0 <= i < |p.specs| && p.specs[i].id != id ==> r.specs[i] == p.specs[i]
    ensures forall i :: 0 <= i < |p.specs| && p.specs[i].id == id ==> r.specs[i] == WithField(p.specs[i], field, value)
  {
    var specs := seq(|p.specs|, i requires 0 <= i < |p.specs| =>
      if p.specs[i].id == id then WithField(p.specs[i], field, value) else p.specs[i]);
    p.(specs := specs)
  }

  /** An edit to any field but the id keeps every id where it was. */
  lemma UpdateKeepsIds(p: SpecPanel, id: string, field: Field, value: string)
    requires field != Id
    ensures var r := UpdateSpec(p, id, field, value);
            forall i :: 0 <= i < |p.specs| ==> r.specs[i].id == p.specs[i].id
  {
  }

  /** Typing the same value again changes nothing. */
  lemma {:induction false} UpdateIdempotent(p: SpecPanel, id: string, field: Field, value: string)
    requires field != Id
    ensures var r := UpdateSpec(p, id, field, value);
            UpdateSpec(r, id, field, value) == r
  {
    var r := UpdateSpec(p, id, field, value);
    var r2 := UpdateSpec(r, id, field, value);
    forall i | 0 <= i < |p.specs|
      ensures r2.specs[i] == r.specs[i]
    {
      if p.specs[i].id == id {
        assert r.specs[i].id == id;
      }
    }
  }

  /** `addSpec`: one item with the placeholder label, color and format appended under `freshId`. */
  function AddSpec(p: SpecPanel, freshId: string): (r: SpecPanel)
    ensures |r.specs| == |p.specs| + 1 && r.specs[..|p.specs|] == p.specs
    ensures r.specs[|p.specs|] == ProtocolSpecItem(freshId, "New", "text-slate-600", "{}")
    ensures r.stored == p.stored && r.isEditing == p.isEditing
  {
    var specs := p.specs + [ProtocolSpecItem(freshId, "New", "text-slate-600", "{}")];
    assert specs[..|p.specs|] == p.specs;
    p.(specs := specs)
  }

  /** `removeSpec`: the items with id `id` dropped, the others kept in their order; storage unchanged. */
  function RemoveSpec(p: SpecPanel, id: string): (r: SpecPanel)
    ensures |r.specs| <= |p.specs|
    ensures forall i :: 0 <= i < |r.specs| ==> r.specs[i].id != id && r.specs[i] in p.specs
    ensures forall i :: 0 <= i < |p.specs| && p.specs[i].id != id ==> p.specs[i] in r.specs
    ensures !HasId(p.specs, id) ==> r.specs == p.specs
    ensures r.stored == p.stored && r.isEditing == p.isEditing
  {
    p.(specs := Filter(p.specs, (s: ProtocolSpecItem) => s.id != id))
  }

  /** Removing the item just added under a fresh id gives back the list before it. */
  lemma RemoveUndoesAdd(p: SpecPanel, freshId: string)
    requires !HasId(p.specs, freshId)
    ensures RemoveSpec(AddSpec(p, freshId), freshId) == p
  {
    var keep := (s: ProtocolSpecItem) => s.id != freshId;
    var item := ProtocolSpecItem(freshId, "New", "text-slate-600", "{}");
    FilterConcat(p.specs, [item], keep);
    assert Filter([item], keep) == [];
    assert AddSpec(p, freshId).specs == p.specs + [item];
  }

  /** `handleSave`: the items shown are stored, and edit mode ends. */
  function HandleSave(p: SpecPanel): (r: SpecPanel)
    ensures r.stored == Some(p.specs) && r.specs == p.specs && !r.isEditing
  {
    p.(stored := Some(p.specs), isEditing := false)
  }

  /** The header button: save when editing, otherwise enter edit mode. */
  function ToggleEdit(p: SpecPanel): (r: SpecPanel)
    ensures p.isEditing ==> r == HandleSave(p)
    ensures !p.isEditing ==> r.isEditing && r.specs == p.specs && r.stored == p.stored
  {
    if p.isEditing then HandleSave(p) else p.(isEditing := true)
  }

  /** One edit while the panel is open. */
  datatype Edit = Update(id: string, field: Field, value: string) | Add(freshId: string) | Remove(id: string)

  function ApplyEdit(p: SpecPanel, e: Edit): SpecPanel
  {
    match e
    case Update(id, field, value) => UpdateSpec(p, id, field, value)
    case Add(freshId) => AddSpec(p, freshId)
    case Remove(id) => RemoveSpec(p, id)
  }

  function ApplyEdits(p: SpecPanel, es: seq<Edit>): SpecPanel
    decreases |es|
  {
    if es == [] then p else ApplyEdits(ApplyEdit(p, es[0]), es[1..])
  }

  /**
   * Edits are not written to storage by themselves: after any series of
   * them the storage and the edit mode are as before; only saving stores
   * the edited list.
   */
  lemma {:induction false} EditsPersistOnlyOnSave(p: SpecPanel, es: seq<Edit>)
    ensures ApplyEdits(p, es).stored == p.stored && ApplyEdits(p, es).isEditing == p.isEditing
    ensures HandleSave(ApplyEdits(p, es)).stored == Some(ApplyEdits(p, es).specs)
    decreases |es|
  {
    if es != [] {
      EditsPersistOnlyOnSave(ApplyEdit(p, es[0]), es[1..]);
    }
  }
}
