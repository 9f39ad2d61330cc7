/**
 * The selection list of `components/Select/MultiSelect.tsx`: a dropdown over
 * `data` that keeps `selectedItems`, in single or multiple mode, frozen when
 * disabled, with a case-insensitive label filter. Options are compared by `id`
 * only (`===` on a string or a number).
 */
module MultiSelect {
  import opened Text

  /** A `string | number` id; `===` never equates a string with a number. */
  datatype Key = Str(s: string) | Num(n: int)

  datatype SelectOption = SelectOption(id: Key, caption: string)

  /** The `selected` prop: absent, one option (single mode) or an array (multiple mode). */
  datatype SelectedProp = Absent | Single(option: SelectOption) | Several(options: seq<SelectOption>)

  /** The prop has the shape the mode casts it to. */
  predicate PropFits(prop: SelectedProp, multiple: bool) {
    (multiple ==> !prop.Single?) && (!multiple ==> !prop.Several?)
  }

  /** What a handler passes to `onChange`: the new array, or in single mode the option itself. */
  datatype Emitted = Nothing | EmitList(items: seq<SelectOption>) | EmitOption(option: SelectOption)

  /** Some item of `s` has id `id` (`selectedItems.find(item => item.id === id)`). */
  predicate HasId(s: seq<SelectOption>, id: Key) {
    exists k :: 0 <= k < |s| && s[k].id == id
  }

  /** `s.filter(item => item.id !== id)`. */
  function RemoveId(s: seq<SelectOption>, id: Key): (r: seq<SelectOption>)
    ensures |r| <= |s|
    ensures forall x :: x in r <==> x in s && x.id != id
    ensures !HasId(r, id)
  {
    if s == [] then []
    else if s[0].id == id then RemoveId(s[1..], id)
    else [s[0]] + RemoveId(s[1..], id)
  }

  /** Filtering distributes over concatenation, so the kept items stay in their order. */
  lemma {:induction false} RemoveIdAppend(a: seq<SelectOption>, b: seq<SelectOption>, id: Key)
    ensures RemoveId(a + b, id) == RemoveId(a, id) + RemoveId(b, id)
  {
    if a == [] {
      assert a + b == b;
    } else {
      var ab := a + b;
      assert ab[0] == a[0];
      assert ab[1..] == a[1..] + b;
      RemoveIdAppend(a[1..], b, id);
      if a[0].id == id {
        calc {
          RemoveId(ab, id);
          RemoveId(a[1..] + b, id);
          RemoveId(a[1..], id) + RemoveId(b, id);
          RemoveId(a, id) + RemoveId(b, id);
        }
      } else {
        calc {
          RemoveId(ab, id);
          [a[0]] + RemoveId(a[1..] + b, id);
          [a[0]] + (RemoveId(a[1..], id) + RemoveId(b, id));
          ([a[0]] + RemoveId(a[1..], id)) + RemoveId(b, id);
          RemoveId(a, id) + RemoveId(b, id);
        }
      }
    }
  }

  /** Removing an id nobody has changes nothing. */
  lemma {:induction false} RemoveAbsentId(s: seq<SelectOption>, id: Key)
    requires !HasId(s, id)
    ensures RemoveId(s, id) == s
  {
    if s != [] {
      assert !HasId(s[1..], id) by {
        forall k | 0 <= k < |s[1..]|
          ensures s[1..][k].id != id
        {
          assert s[1..][k] == s[k + 1];
        }
      }
      RemoveAbsentId(s[1..], id);
      assert s[0].id != id;
      assert s == [s[0]] + s[1..];
    }
  }

  /** The selection `toggleSelect(option)` produces when the list is enabled. */
  function Toggled(s: seq<SelectOption>, option: SelectOption, multiple: bool): (r: seq<SelectOption>)
    ensures !multiple ==> r == [option]
    ensures multiple && HasId(s, option.id) ==> !HasId(r, option.id) && forall x :: x in r <==> x in s && x.id != option.id
    ensures multiple && !HasId(s, option.id) ==> |r| == |s| + 1 && r[..|s|] == s && r[|s|] == option
  {
    if multiple then
      if HasId(s, option.id) then RemoveId(s, option.id) else s + [option]
    else [option]
  }

  /** In multiple mode, toggling the same absent option twice gives back the selection. */
  lemma ToggleTwiceRestores(s: seq<SelectOption>, option: SelectOption)
    requires !HasId(s, option.id)
    ensures Toggled(Toggled(s, option, true), option, true) == s
  {
    var t := s + [option];
    assert t[|s|].id == option.id;
    assert HasId(t, option.id);
    RemoveIdAppend(s, [option], option.id);
    RemoveAbsentId(s, option.id);
    assert RemoveId([option], option.id) == [];
  }

  /** In multiple mode, removing by toggle keeps the other items in their order. */
  lemma ToggleRemoveKeepsOrder(a: seq<SelectOption>, b: seq<SelectOption>, option: SelectOption)
    requires HasId(a + b, option.id)
    ensures Toggled(a + b, option, true) == RemoveId(a, option.id) + RemoveId(b, option.id)
  {
    RemoveIdAppend(a, b, option.id);
  }

  /** The initial state: `multiple ? [] : selected ? [selected] : []`. */
  function InitialSelection(prop: SelectedProp, multiple: bool): (r: seq<SelectOption>)
    requires PropFits(prop, multiple)
    ensures multiple ==> r == []
    ensures !multiple && prop.Single? ==> r == [prop.option]
    ensures prop.Absent? ==> r == []
  {
    if multiple then [] else if prop.Single? then [prop.option] else []
  }

  /** `option.label.toLowerCase().includes(filter.toLowerCase())`. */
  predicate Matches(option: SelectOption, filter: string) {
    Includes(ToLower(option.caption), ToLower(filter))
  }

  /** `filteredData`: the options whose lower-cased label contains the lower-cased filter, in order. */
  function FilteredData(data: seq<SelectOption>, filter: string): (r: seq<SelectOption>)
    ensures |r| <= |data|
    ensures forall x :: x in r <==> x in data && Matches(x, filter)
  {
    if data == [] then []
    else if Matches(data[0], filter) then [data[0]] + FilteredData(data[1..], filter)
    else FilteredData(data[1..], filter)
  }

  /** Filtering distributes over concatenation, so the listed options keep the data order. */
  lemma {:induction false} FilteredDataAppend(a: seq<SelectOption>, b: seq<SelectOption>, filter: string)
    ensures FilteredData(a + b, filter) == FilteredData(a, filter) + FilteredData(b, filter)
  {
    if a == [] {
      assert a + b == b;
    } else {
      var ab := a + b;
      assert ab[0] == a[0];
      assert ab[1..] == a[1..] + b;
      FilteredDataAppend(a[1..], b, filter);
      if Matches(a[0], filter) {
        calc {
          FilteredData(ab, filter);
          [a[0]] + FilteredData(a[1..] + b, filter);
          [a[0]] + (FilteredData(a[1..], filter) + FilteredData(b, filter));
          ([a[0]] + FilteredData(a[1..], filter)) + FilteredData(b, filter);
          FilteredData(a, filter) + FilteredData(b, filter);
        }
      } else {
        calc {
          FilteredData(ab, filter);
          FilteredData(a[1..] + b, filter);
          FilteredData(a, filter) + FilteredData(b, filter);
        }
      }
    }
  }

  /** An empty filter keeps every option. */
  lemma {:induction false} EmptyFilterKeepsAll(data: seq<SelectOption>)
    ensures FilteredData(data, "") == data
  {
    if data != [] {
      IncludesEmpty(ToLower(data[0].caption));
      assert ToLower("") == "";
      EmptyFilterKeepsAll(data[1..]);
      assert data == [data[0]] + data[1..];
    }
  }

  /** What a single-mode list hands to `onChange` always holds at most one option. */
  predicate SingleModeEmission(e: Emitted) {
    e.EmitList? ==> |e.items| <= 1
  }

  /** The component's state; `data`, `multiple` and `disabled` are props. */
  class Select {
    const data: seq<SelectOption>
    const multiple: bool
    const disabled: bool
    var selectedItems: seq<SelectOption>
    var open: bool
    var filter: string

    /** In single mode at most one option is ever selected. */
    ghost predicate Valid()
      reads this
    {
      !multiple ==> |selectedItems| <= 1
    }

    constructor(data: seq<SelectOption>, selected: SelectedProp, multiple: bool, disabled: bool)
      requires PropFits(selected, multiple)
      ensures Valid()
      ensures this.data == data && this.multiple == multiple && this.disabled == disabled
      ensures selectedItems == InitialSelection(selected, multiple)
      ensures !open && filter == ""
    {
      this.data := data;
      this.multiple := multiple;
      this.disabled := disabled;
      selectedItems := if multiple then [] else if selected.Single? then [selected.option] else [];
      open := false;
      filter := "";
    }

    /** A click on the header toggles the dropdown; a disabled header ignores clicks. */
    method ClickHeader()
      requires Valid()
      modifies this`open
      ensures Valid()
      ensures disabled ==> open == old(open)
      ensures !disabled ==> open == !old(open)
    {
      if !disabled {
        open := !open;
      }
    }

    /** The options the open dropdown lists. */
    function Visible(): (r: seq<SelectOption>)
      reads this
      ensures forall x :: x in r <==> x in data && Matches(x, filter)
    {
      FilteredData(data, filter)
    }

    method SetFilter(f: string)
      requires Valid()
      modifies this
      ensures Valid()
      ensures filter == f && selectedItems == old(selectedItems) && open == old(open)
    {
      filter := f;
    }

    /** `toggleSelect(option)`: frozen when disabled; otherwise see `Toggled`. */
    method Toggle(option: SelectOption) returns (emitted: Emitted)
      requires Valid()
      modifies this
      ensures Valid()
      ensures disabled ==> selectedItems == old(selectedItems) && open == old(open) && emitted == Nothing
      ensures !disabled ==> selectedItems == Toggled(old(selectedItems), option, multiple)
      ensures !disabled && multiple ==> open == old(open) && emitted == EmitList(selectedItems)
      ensures !disabled && !multiple ==> !open && emitted == EmitOption(option)
      ensures !multiple ==> SingleModeEmission(emitted)
      ensures filter == old(filter)
    {
      if disabled {
        return Nothing;
      }
      if multiple {
        if HasId(selectedItems, option.id) {
          selectedItems := RemoveId(selectedItems, option.id);
        } else {
          selectedItems := selectedItems + [option];
        }
        emitted := EmitList(selectedItems);
      } else {
        selectedItems := [option];
        emitted := EmitOption(option);
        open := false;
      }
    }

    /** `removeItem(id)`: frozen when disabled; otherwise drops every item with that id. */
    method RemoveItem(id: Key) returns (emitted: Emitted)
      requires Valid()
      modifies this
      ensures Valid()
      ensures disabled ==> selectedItems == old(selectedItems) && emitted == Nothing
      ensures !disabled ==> selectedItems == RemoveId(old(selectedItems), id) && emitted == EmitList(selectedItems)
      ensures !multiple ==> SingleModeEmission(emitted)
      ensures open == old(open) && filter == old(filter)
    {
      if disabled {
        return Nothing;
      }
      selectedItems := RemoveId(selectedItems, id);
      emitted := EmitList(selectedItems);
    }

    /** The reset effect: a truthy `resetSignal` empties the selection. */
    method Reset(resetSignal: bool)
      requires Valid()
      modifies this
      ensures Valid()
      ensures selectedItems == if resetSignal then [] else old(selectedItems)
      ensures open == old(open) && filter == old(filter)
    {
      if resetSignal {
        selectedItems := [];
      }
    }

    /** The sync effect: a present `selected` prop replaces the selection. */
    method Sync(selected: SelectedProp)
      requires Valid() && PropFits(selected, multiple)
      modifies this
      ensures Valid()
      ensures selected.Absent? ==> selectedItems == old(selectedItems)
      ensures selected.Single? ==> selectedItems == [selected.option]
      ensures selected.Several? ==> selectedItems == selected.options
      ensures open == old(open) && filter == old(filter)
    {
      match selected
      case Absent =>
      case Single(o) => selectedItems := [o];
      case Several(os) => selectedItems := os;
    }
  }
}
