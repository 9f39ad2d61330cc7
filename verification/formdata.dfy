/**
 * The browser's `FormData` as the forms use it: an ordered list of
 * (name, value) entries that `append` extends, `delete` filters and `get`
 * reads (first entry with that name). Also the image slot arrays the forms
 * keep, and the rule that only picked files are sent.
 */
module FormDataModel {
  import opened Wrappers
  import opened Interfaces

  /** A file picked in a file input. */
  datatype File = File(name: string, mimeType: string, size: nat)

  /** A FormData value: text, or a file blob. */
  datatype Value = Text(s: string) | Blob(file: File)

  type Entry = (string, Value)

  /** One image slot of a form: empty (`null`/`undefined`), an existing URL, or a picked file. */
  datatype Slot = Empty | Existing(url: string) | Picked(file: File)

  /** The entries without any named `name`, in their order (`formData.delete(name)`). */
  function Without(es: seq<Entry>, name: string): (r: seq<Entry>)
    ensures |r| <= |es|
    ensures forall e :: e in r <==> e in es && e.0 != name
  {
    if es == [] then [] else if es[0].0 == name then Without(es[1..], name) else [es[0]] + Without(es[1..], name)
  }

  /** `formData.get(name)`: the value of the first entry with that name, or null. */
  function First(es: seq<Entry>, name: string): (r: Option<Value>)
    ensures r.Some? ==> (name, r.value) in es
    ensures r.None? <==> forall e :: e in es ==> e.0 != name
  {
    if es == [] then None else if es[0].0 == name then Some(es[0].1) else First(es[1..], name)
  }

  /** How many entries carry `name`. */
  function Count(es: seq<Entry>, name: string): nat {
    if es == [] then 0 else (if es[0].0 == name then 1 else 0) + Count(es[1..], name)
  }

  lemma {:induction false} CountAppend(a: seq<Entry>, b: seq<Entry>, name: string)
    ensures Count(a + b, name) == Count(a, name) + Count(b, name)
  {
    if a == [] {
      assert a + b == b;
    } else {
      assert (a + b)[1..] == a[1..] + b;
      CountAppend(a[1..], b, name);
    }
  }

  /** Once deleted, a name reads back as null, and the other names read as before. */
  lemma {:induction false} GetAfterDelete(es: seq<Entry>, name: string, other: string)
    ensures First(Without(es, name), name).None?
    ensures other != name ==> First(Without(es, name), other) == First(es, other)
  {
    if es != [] {
      GetAfterDelete(es[1..], name, other);
    }
  }

  /** Reading the first entry is unaffected by entries appended after it. */
  lemma {:induction false} FirstAppend(a: seq<Entry>, b: seq<Entry>, name: string)
    ensures First(a + b, name) == if First(a, name).Some? then First(a, name) else First(b, name)
  {
    if a == [] {
      assert a + b == b;
    } else {
      assert (a + b)[1..] == a[1..] + b;
      FirstAppend(a[1..], b, name);
    }
  }

  /** `get` returns the entry at `k` when no earlier entry has that name. */
  lemma {:induction false} FirstAt(es: seq<Entry>, name: string, k: nat)
    requires k < |es| && es[k].0 == name
    requires forall j :: 0 <= j < k ==> es[j].0 != name
    ensures First(es, name) == Some(es[k].1)
  {
    if k > 0 {
      FirstAt(es[1..], name, k - 1);
    }
  }

  /** A name no entry carries is counted zero times. */
  lemma {:induction false} CountAbsent(es: seq<Entry>, name: string)
    requires forall j :: 0 <= j < |es| ==> es[j].0 != name
    ensures Count(es, name) == 0
  {
    if es != [] {
      CountAbsent(es[1..], name);
    }
  }

  /** One `append(name, file)` per picked file of `slots`, in slot order; other slots send nothing. */
  function FileEntries(name: string, slots: seq<Slot>): (r: seq<Entry>)
    ensures |r| <= |slots|
    ensures forall e :: e in r ==> e.0 == name && e.1.Blob?
  {
    if slots == [] then []
    else if slots[0].Picked? then [(name, Blob(slots[0].file))] + FileEntries(name, slots[1..])
    else FileEntries(name, slots[1..])
  }

  /** The number of picked files among the slots. */
  function PickedCount(slots: seq<Slot>): nat {
    if slots == [] then 0 else (if slots[0].Picked? then 1 else 0) + PickedCount(slots[1..])
  }

  lemma {:induction false} FileEntriesAppend(name: string, a: seq<Slot>, b: seq<Slot>)
    ensures FileEntries(name, a + b) == FileEntries(name, a) + FileEntries(name, b)
  {
    if a == [] {
      assert a + b == b;
    } else {
      assert (a + b)[1..] == a[1..] + b;
      FileEntriesAppend(name, a[1..], b);
    }
  }

  /** Exactly one entry per picked file is sent, and every one of them is a file. */
  lemma {:induction false} FileEntriesCount(name: string, slots: seq<Slot>)
    ensures |FileEntries(name, slots)| == PickedCount(slots)
    ensures Count(FileEntries(name, slots), name) == PickedCount(slots)
  {
    if slots != [] {
      FileEntriesCount(name, slots[1..]);
    }
  }

  /**
   * `[...init, ...Array(count - init.length).fill(empty)]`: the initial images
   * followed by empty slots up to `count`. `Array` of a negative length throws
   * a RangeError, modelled as None.
   */
  function PadSlots(init: seq<Slot>, count: nat): (r: Option<seq<Slot>>)
    ensures r.None? <==> |init| > count
    ensures r.Some? ==> |r.value| == count && r.value[..|init|] == init
    ensures r.Some? ==> forall k :: |init| <= k < count ==> r.value[k] == Empty
  {
    if |init| > count then None else Some(init + seq(count - |init|, _ => Empty))
  }

  /** `updated = [...slots]; updated[index] = value`: only that slot changes. */
  function SetSlot(slots: seq<Slot>, index: nat, value: Slot): (r: seq<Slot>)
    requires index < |slots|
    ensures |r| == |slots| && r[index] == value
    ensures forall k :: 0 <= k < |slots| && k != index ==> r[k] == slots[k]
  {
    slots[index := value]
  }

  /**
   * The slots an edit value gets from a record's `images`:
   * `Array.isArray(images) ? images.map(img => typeof img === "string" ? img : img.src ?? undefined) : []`
   * (`?? null` on the user pages). A URL is kept, an image object gives its
   * `src` or an empty slot, and anything but an array gives no image.
   */
  function ImageSlots(images: ImageList): (r: seq<Slot>)
    ensures !images.Many? ==> r == []
    ensures images.Many? ==> |r| == |images.items|
    ensures images.Many? ==> forall k :: 0 <= k < |r| ==>
      r[k] == match images.items[k]
        case Url(u) => Existing(u)
        case Static(src) => if src.Some? then Existing(src.value) else Empty
  {
    if !images.Many? then []
    else
      var items := images.items;
      seq(|items|, k requires 0 <= k < |items| =>
        match items[k]
        case Url(u) => Existing(u)
        case Static(src) => if src.Some? then Existing(src.value) else Empty)
  }

  /** No slot of an edit value is a newly picked file, so resubmitting it uploads nothing. */
  lemma {:induction false} ImageSlotsNotPicked(images: ImageList)
    ensures PickedCount(ImageSlots(images)) == 0
  {
    if images.Many? {
      NoPickedSlots(ImageSlots(images));
    }
  }

  lemma {:induction false} NoPickedSlots(slots: seq<Slot>)
    requires forall k :: 0 <= k < |slots| ==> !slots[k].Picked?
    ensures PickedCount(slots) == 0
  {
    if slots != [] {
      NoPickedSlots(slots[1..]);
    }
  }

  /** A `FormData` object. */
  class FormData {
    var entries: seq<Entry>

    constructor()
      ensures entries == []
    {
      entries := [];
    }

    method Append(name: string, v: Value)
      modifies this
      ensures entries == old(entries) + [(name, v)]
    {
      entries := entries + [(name, v)];
    }

    method Delete(name: string)
      modifies this
      ensures entries == Without(old(entries), name)
    {
      entries := Without(entries, name);
    }

    function Get(name: string): (r: Option<Value>)
      reads this
      ensures r.Some? ==> (name, r.value) in entries
      ensures r.None? <==> forall e :: e in entries ==> e.0 != name
    {
      First(entries, name)
    }

    /** `images.forEach(file => { if (file instanceof File) formData.append(name, file) })`. */
    method AppendFiles(name: string, slots: seq<Slot>)
      modifies this
      ensures entries == old(entries) + FileEntries(name, slots)
    {
      var i := 0;
      while i < |slots|
        invariant 0 <= i <= |slots|
        invariant entries == old(entries) + FileEntries(name, slots[..i])
      {
        FileEntriesAppend(name, slots[..i], [slots[i]]);
        assert slots[..i + 1] == slots[..i] + [slots[i]];
        if slots[i].Picked? {
          entries := entries + [(name, Blob(slots[i].file))];
        }
        i := i + 1;
      }
      assert slots[..i] == slots;
    }
  }
}
