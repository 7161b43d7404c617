/** The GtkComboBoxText behaviour the simulation pages rely on: a list of
    texts with an active index, emptied, appended to and selected by the
    views, and the ordered, filtered lists of names the views fill it
    with. */
module ComboBox {
  import opened Common

  class ComboBoxText {
    var items: seq<string>
    /** The active row, -1 when none is. */
    var active: int

    predicate Valid()
      reads this
    {
      -1 <= active < |items|
    }

    constructor()
      ensures items == [] && active == -1
      ensures Valid()
    {
      items := [];
      active := -1;
    }

    /** gtk_combo_box_text_get_active_text: the active row's text, NULL
        (None) when no row is active. */
    function ActiveText(): (r: Option<string>)
      requires Valid()
      reads this
      ensures r.Some? <==> active >= 0
      ensures r.Some? ==> r.value == items[active]
    {
      if active >= 0 then Some(items[active]) else None
    }

    /** gtk_combo_box_text_remove_all: no rows, none active. */
    method RemoveAll()
      modifies this
      ensures items == [] && active == -1
      ensures Valid()
    {
      items := [];
      active := -1;
    }

    /** gtk_combo_box_text_append_text. */
    method AppendText(text: string)
      requires Valid()
      modifies this
      ensures items == old(items) + [text] && active == old(active)
      ensures Valid()
    {
      items := items + [text];
    }

    /** gtk_combo_box_set_active: an index without a row leaves none
        active. */
    method SetActive(index: int)
      modifies this
      ensures items == old(items)
      ensures active == if 0 <= index < |items| then index else -1
      ensures Valid()
    {
      if 0 <= index < |items| {
        active := index;
      } else {
        active := -1;
      }
    }
  }

  /** The labels of the elements `keep` accepts, in their order: what a
      loop appending `nameOf(x)` for every kept `x` produces. */
  function Filtered<T>(xs: seq<T>, keep: T -> bool, nameOf: T -> string): (r: seq<string>)
    ensures |r| <= |xs|
  {
    if |xs| == 0 then []
    else Filtered(xs[..|xs| - 1], keep, nameOf) + (if keep(xs[|xs| - 1]) then [nameOf(xs[|xs| - 1])] else [])
  }

  /** A text is listed exactly when some kept element carries it. */
  lemma {:induction false} FilteredMembers<T>(xs: seq<T>, keep: T -> bool, nameOf: T -> string, text: string)
    ensures text in Filtered(xs, keep, nameOf) <==> exists i :: 0 <= i < |xs| && keep(xs[i]) && nameOf(xs[i]) == text
  {
    if |xs| > 0 {
      var front := xs[..|xs| - 1];
      FilteredMembers(front, keep, nameOf, text);
      assert forall i :: 0 <= i < |front| ==> front[i] == xs[i];
      if text in Filtered(front, keep, nameOf) {
        var i :| 0 <= i < |front| && keep(front[i]) && nameOf(front[i]) == text;
        assert keep(xs[i]) && nameOf(xs[i]) == text;
      }
    }
  }

  /** When every element is kept, all labels are listed in order; when
      none is, the list is empty. */
  lemma {:induction false} FilteredExtremes<T>(xs: seq<T>, keep: T -> bool, nameOf: T -> string)
    ensures (forall i :: 0 <= i < |xs| ==> keep(xs[i])) ==> Filtered(xs, keep, nameOf) == seq(|xs|, i requires 0 <= i < |xs| => nameOf(xs[i]))
    ensures (forall i :: 0 <= i < |xs| ==> !keep(xs[i])) ==> Filtered(xs, keep, nameOf) == []
  {
    if |xs| > 0 {
      var front := xs[..|xs| - 1];
      FilteredExtremes(front, keep, nameOf);
      assert forall i :: 0 <= i < |front| ==> front[i] == xs[i];
    }
  }

  /** One more element scanned. */
  lemma FilteredStep<T>(xs: seq<T>, i: nat, keep: T -> bool, nameOf: T -> string)
    requires i < |xs|
    ensures Filtered(xs[..i + 1], keep, nameOf) ==
              Filtered(xs[..i], keep, nameOf) + (if keep(xs[i]) then [nameOf(xs[i])] else [])
  {
    assert xs[..i + 1][..i] == xs[..i];
  }

  /** The element a selection names: the first one carrying the
      selected text, None without a selection. */
  function SelectedIndex<T>(xs: seq<T>, nameOf: T -> string, selected: Option<string>): (r: Option<nat>)
    ensures r.Some? ==> selected.Some? && r.value < |xs| && nameOf(xs[r.value]) == selected.value
    ensures selected.Some? && (exists i :: 0 <= i < |xs| && nameOf(xs[i]) == selected.value) ==> r.Some?
  {
    if selected.None? then None else FirstLabelled(xs, nameOf, selected.value)
  }

  /** The search loop of the views: the first element whose name is
      `text`. */
  method IndexOfLabel<T>(xs: seq<T>, nameOf: T -> string, text: string) returns (r: Option<nat>)
    ensures r == FirstLabelled(xs, nameOf, text)
  {
    var i := 0;
    while i < |xs|
      invariant 0 <= i <= |xs|
      invariant forall j :: 0 <= j < i ==> nameOf(xs[j]) != text
    {
      if nameOf(xs[i]) == text {
        return Some(i);
      }
      i := i + 1;
    }
    return None;
  }

  /** The loop that appends the kept labels to a combo box. */
  method AppendFiltered<T>(combo: ComboBoxText, xs: seq<T>, keep: T -> bool, nameOf: T -> string)
    requires combo.Valid()
    modifies combo
    ensures combo.items == old(combo.items) + Filtered(xs, keep, nameOf)
    ensures combo.active == old(combo.active)
    ensures combo.Valid()
  {
    var i := 0;
    while i < |xs|
      invariant 0 <= i <= |xs|
      invariant combo.items == old(combo.items) + Filtered(xs[..i], keep, nameOf)
      invariant combo.active == old(combo.active) && combo.Valid()
    {
      FilteredStep(xs, i, keep, nameOf);
      if keep(xs[i]) {
        combo.AppendText(nameOf(xs[i]));
      }
      i := i + 1;
    }
    assert xs[..i] == xs;
  }
}
