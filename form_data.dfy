/** Multipart payloads as the services assemble them: a fixed list of
    candidate entries ("slots"), each either appended to the `FormData` or
    skipped according to that entry's own inclusion rule. */
module FormData {
  import opened Http

  /** A candidate entry: its name, and the value appended when its rule
      holds (`None` when the service skips it). */
  datatype Slot = Slot(name: string, value: Option<FormValue>)

  function SlotNames(slots: seq<Slot>): (r: seq<string>)
    ensures |r| == |slots|
    ensures forall k :: 0 <= k < |slots| ==> r[k] == slots[k].name
  {
    if slots == [] then [] else [slots[0].name] + SlotNames(slots[1..])
  }

  predicate Distinct(names: seq<string>) {
    forall i, j :: 0 <= i < j < |names| ==> names[i] != names[j]
  }

  /** The entry a slot contributes: one field, or nothing. */
  function Entry(s: Slot): seq<Field> {
    if s.value.Some? then [Field(s.name, s.value.value)] else []
  }

  /** The `FormData` built by visiting the slots in order and appending
      each present one. */
  function Present(slots: seq<Slot>): seq<Field>
  {
    if slots == [] then [] else Entry(slots[0]) + Present(slots[1..])
  }

  /** Appending one more slot appends at most one more field: the shape of
      a step-by-step build. */
  lemma {:induction false} PresentSnoc(slots: seq<Slot>, s: Slot)
    ensures Present(slots + [s]) == Present(slots) + Entry(s)
  {
    if slots != [] {
      assert (slots + [s])[1..] == slots[1..] + [s];
      PresentSnoc(slots[1..], s);
    } else {
      assert slots + [s] == [s];
    }
  }

  lemma {:induction false} PresentAppend(a: seq<Slot>, b: seq<Slot>)
    ensures Present(a + b) == Present(a) + Present(b)
  {
    if a != [] {
      assert (a + b)[1..] == a[1..] + b;
      PresentAppend(a[1..], b);
    } else {
      assert a + b == b;
    }
  }

  /** One `if (rule) formData.append(name, value)` step: the slot's entry
      is appended when its rule admitted a value, and nothing otherwise. */
  method Append(form: seq<Field>, slot: Slot) returns (out: seq<Field>)
    ensures out == form + Entry(slot)
    ensures |out| == |form| + (if slot.value.Some? then 1 else 0)
  {
    out := form;
    if slot.value.Some? {
      out := out + [Field(slot.name, slot.value.value)];
    }
  }

  /** A run of `if (rule) formData.append(name, value)` statements: visits
      the slots in order and appends each one whose rule admitted a value. */
  method AppendAll(form: seq<Field>, slots: seq<Slot>) returns (out: seq<Field>)
    ensures out == form + Present(slots)
    ensures form == [] ==> out == Present(slots)
  {
    out := form;
    var i := 0;
    while i < |slots|
      invariant 0 <= i <= |slots|
      invariant out == form + Present(slots[..i])
    {
      out := Append(out, slots[i]);
      PresentSnoc(slots[..i], slots[i]);
      assert slots[..i] + [slots[i]] == slots[..i + 1];
      i := i + 1;
    }
    assert slots[..i] == slots;
  }

  /** `a` is obtained from `b` by deleting entries, keeping the order of
      the rest. */
  predicate IsSubsequence(a: seq<string>, b: seq<string>)
    decreases |b|
  {
    if a == [] then true
    else if b == [] then false
    else (a[0] == b[0] && IsSubsequence(a[1..], b[1..])) || IsSubsequence(a, b[1..])
  }

  /** The payload's entry names are the slot names with the skipped ones
      deleted: entries always appear in slot order. */
  lemma {:induction false} PresentInSlotOrder(slots: seq<Slot>)
    ensures IsSubsequence(Names(Present(slots)), SlotNames(slots))
  {
    if slots != [] {
      var tail := slots[1..];
      PresentInSlotOrder(tail);
      NamesAppend(Entry(slots[0]), Present(tail));
      assert SlotNames(slots)[1..] == SlotNames(tail);
      var names := Names(Present(slots));
      if slots[0].value.Some? {
        assert names[0] == SlotNames(slots)[0] && names[1..] == Names(Present(tail));
      } else {
        assert names == Names(Present(tail));
        if names != [] {
          assert IsSubsequence(names, SlotNames(slots)[1..]);
        }
      }
    }
  }

  /** Every payload entry is named after one of the slots. */
  lemma {:induction false} PresentNamesAmongSlots(slots: seq<Slot>)
    ensures forall n :: n in Names(Present(slots)) ==> n in SlotNames(slots)
  {
    if slots != [] {
      var tail := slots[1..];
      PresentNamesAmongSlots(tail);
      NamesAppend(Entry(slots[0]), Present(tail));
      assert SlotNames(slots) == [slots[0].name] + SlotNames(tail);
    }
  }

  lemma DistinctTail(slots: seq<Slot>)
    requires slots != [] && Distinct(SlotNames(slots))
    ensures Distinct(SlotNames(slots[1..]))
    ensures slots[0].name !in SlotNames(slots[1..])
  {
    var tail := slots[1..];
    forall i, j | 0 <= i < j < |tail| ensures tail[i].name != tail[j].name {
      assert SlotNames(slots)[i + 1] != SlotNames(slots)[j + 1];
    }
    forall i | 0 <= i < |tail| ensures SlotNames(tail)[i] != slots[0].name {
      assert SlotNames(slots)[0] != SlotNames(slots)[i + 1];
    }
  }

  lemma LookupPastEntry(s: Slot, rest: seq<Field>, name: string)
    requires name != s.name
    ensures Lookup(Entry(s) + rest, name) == Lookup(rest, name)
  {
    if s.value.Some? {
      assert (Entry(s) + rest)[1..] == rest;
    } else {
      assert Entry(s) + rest == rest;
    }
  }

  /** Reading an entry back by name gives that slot's value (or nothing
      when the slot was skipped), provided the slot names are distinct. */
  lemma {:induction false} PresentLookup(slots: seq<Slot>, k: nat)
    requires k < |slots|
    requires Distinct(SlotNames(slots))
    ensures Lookup(Present(slots), slots[k].name) == slots[k].value
  {
    var tail := slots[1..];
    DistinctTail(slots);
    assert Present(slots) == Entry(slots[0]) + Present(tail);
    if k == 0 {
      if slots[0].value.None? {
        PresentNamesAmongSlots(tail);
        assert Present(slots) == Present(tail);
      }
    } else {
      assert tail[k - 1] == slots[k];
      PresentLookup(tail, k - 1);
      assert slots[k].name in SlotNames(tail) by {
        assert SlotNames(tail)[k - 1] == slots[k].name;
      }
      LookupPastEntry(slots[0], Present(tail), slots[k].name);
    }
  }

  /** The payload never carries two entries with the same name. */
  lemma {:induction false} PresentDistinct(slots: seq<Slot>)
    requires Distinct(SlotNames(slots))
    ensures Distinct(Names(Present(slots)))
  {
    if slots != [] {
      var tail := slots[1..];
      DistinctTail(slots);
      PresentDistinct(tail);
      PresentNamesAmongSlots(tail);
      NamesAppend(Entry(slots[0]), Present(tail));
    }
  }

  /** When the first `k` slots are always appended, the payload starts with
      exactly those entries, in that order. */
  lemma {:induction false} PresentPrefix(slots: seq<Slot>, k: nat)
    requires k <= |slots|
    requires forall i :: 0 <= i < k ==> slots[i].value.Some?
    ensures |Present(slots)| >= k
    ensures forall i :: 0 <= i < k ==>
              Present(slots)[i] == Field(slots[i].name, slots[i].value.value)
  {
    if k > 0 {
      PresentPrefix(slots[1..], k - 1);
    }
  }
}
