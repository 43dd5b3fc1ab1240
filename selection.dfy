/** The selection detector of src/vadSelection.ts: which catalog VADs a
    serialized VAD-screen layout contains. Matching is a plain substring test
    for the marker `"title":"<name>"`; text elsewhere in the layout that
    happens to contain a marker is also detected, and the model keeps that. */
module VadSelection {
  import opened Wrappers
  import opened Types
  import VadCatalog

  /** `needle` occurs in `text` starting at position `i`. */
  ghost predicate OccursAt(text: string, needle: string, i: int)
  {
    0 <= i && i + |needle| <= |text| && text[i..i + |needle|] == needle
  }

  /** `needle` is a substring of `text`. */
  ghost predicate Contains(text: string, needle: string)
  {
    exists i :: OccursAt(text, needle, i)
  }

  /** A slice of the tail is the slice of the text one position further on. */
  lemma TailSlice(text: string, i: int, n: nat)
    requires text != [] && 0 <= i && i + n <= |text| - 1
    ensures text[1..][i..i + n] == text[i + 1..i + 1 + n]
  {
    var fromTail, fromText := text[1..][i..i + n], text[i + 1..i + 1 + n];
    forall k | 0 <= k < n
      ensures fromTail[k] == fromText[k]
    {
      assert fromTail[k] == text[1..][i + k] == text[i + 1 + k];
    }
    assert fromTail == fromText;
  }

  lemma ContainsTail(text: string, needle: string)
    requires text != [] && !(needle <= text)
    ensures Contains(text, needle) <==> Contains(text[1..], needle)
  {
    if Contains(text, needle) {
      var i :| OccursAt(text, needle, i);
      assert i != 0;
      TailSlice(text, i - 1, |needle|);
      assert OccursAt(text[1..], needle, i - 1);
    }
    if Contains(text[1..], needle) {
      var i :| OccursAt(text[1..], needle, i);
      TailSlice(text, i, |needle|);
      assert OccursAt(text, needle, i + 1);
    }
  }

  /** `text.includes(needle)`. */
  function Includes(text: string, needle: string): (b: bool)
    ensures b <==> Contains(text, needle)
    decreases |text|
  {
    if needle <= text then
      assert OccursAt(text, needle, 0);
      true
    else if text == [] then
      false
    else
      ContainsTail(text, needle);
      Includes(text[1..], needle)
  }

  /** The marker an editor VAD block with title `name` leaves in the layout. */
  function Marker(name: string): string
  {
    "\"title\":\"" + name + "\""
  }

  /** The names among `keys` whose marker `text` contains, in the order of `keys`. */
  function FilterMarked(keys: seq<string>, text: string): seq<string>
  {
    if keys == [] then []
    else (if Includes(text, Marker(keys[0])) then [keys[0]] else []) + FilterMarked(keys[1..], text)
  }

  /** What `detectSelectedVADsFromLayout(layout)` returns. */
  function Detect(layout: Layout): seq<string>
  {
    match layout
    case None => []
    case Some(text) => if text == "" then [] else FilterMarked(VadCatalog.Keys(), text)
  }

  /** The loop of `detectSelectedVADsFromLayout`: it walks the known names in
      order and appends each one whose marker the layout text contains. */
  method SelectMarked(known: seq<string>, text: string) returns (selected: seq<string>)
    ensures selected == FilterMarked(known, text)
  {
    selected := [];
    for i := 0 to |known|
      invariant FilterMarked(known, text) == selected + FilterMarked(known[i..], text)
    {
      assert known[i..][1..] == known[i + 1..];
      if Includes(text, Marker(known[i])) {
        selected := selected + [known[i]];
      }
    }
    assert known[|known|..] == [];
  }

  /** `detectSelectedVADsFromLayout`: nothing for a null or empty layout,
      otherwise the catalog keys whose marker the layout contains. */
  method DetectSelectedVADsFromLayout(layout: Layout) returns (selected: seq<string>)
    ensures selected == Detect(layout)
  {
    if layout.None? || layout.value == "" {
      return [];
    }
    selected := SelectMarked(VadCatalog.Keys(), layout.value);
  }

  // ---------------------------------------------------------------------------
  // Properties of the detector

  /** `xs` is `ys` with some elements left out, order kept. */
  ghost predicate IsSubsequence(xs: seq<string>, ys: seq<string>)
    decreases |ys|
  {
    if xs == [] then true
    else if ys == [] then false
    else (xs[0] == ys[0] && IsSubsequence(xs[1..], ys[1..])) || IsSubsequence(xs, ys[1..])
  }

  ghost predicate NoDuplicates(xs: seq<string>)
  {
    forall i, j :: 0 <= i < j < |xs| ==> xs[i] != xs[j]
  }

  lemma {:induction false} FilterMembership(keys: seq<string>, text: string, name: string)
    ensures name in FilterMarked(keys, text) <==> name in keys && Contains(text, Marker(name))
  {
    if keys != [] {
      FilterMembership(keys[1..], text, name);
      assert keys == [keys[0]] + keys[1..];
    }
  }

  lemma {:induction false} FilterIsSubsequence(keys: seq<string>, text: string)
    ensures IsSubsequence(FilterMarked(keys, text), keys)
    ensures |FilterMarked(keys, text)| <= |keys|
  {
    if keys != [] {
      FilterIsSubsequence(keys[1..], text);
      var rest := FilterMarked(keys[1..], text);
      if Includes(text, Marker(keys[0])) {
        assert FilterMarked(keys, text) == [keys[0]] + rest;
        assert ([keys[0]] + rest)[1..] == rest;
      } else {
        assert FilterMarked(keys, text) == rest;
      }
    }
  }

  lemma {:induction false} FilterNoDuplicates(keys: seq<string>, text: string)
    requires NoDuplicates(keys)
    ensures NoDuplicates(FilterMarked(keys, text))
  {
    if keys != [] {
      FilterNoDuplicates(keys[1..], text);
      var rest := FilterMarked(keys[1..], text);
      if Includes(text, Marker(keys[0])) {
        FilterMembership(keys[1..], text, keys[0]);
        assert keys[0] !in keys[1..];
        assert keys[0] !in rest;
        var r := [keys[0]] + rest;
        forall i, j | 0 <= i < j < |r| ensures r[i] != r[j] {
          if i == 0 {
            assert r[j] == rest[j - 1];
          } else {
            assert r[i] == rest[i - 1] && r[j] == rest[j - 1];
          }
        }
      }
    }
  }

  /** The detector's contract: only catalog names, each at most once, in
      catalog order, exactly those whose marker occurs in the layout. */
  lemma DetectSpec(layout: Layout)
    ensures Detect(None) == [] && Detect(Some("")) == []
    ensures IsSubsequence(Detect(layout), VadCatalog.VadsList)
    ensures NoDuplicates(Detect(layout))
    ensures |Detect(layout)| <= |VadCatalog.VadsList|
    ensures forall name :: name in Detect(layout) <==>
      name in VadCatalog.VadsList && layout.Some? && Contains(layout.value, Marker(name))
  {
    var keys := VadCatalog.VadsList;
    assert NoDuplicates(keys) by {
      var c := VadCatalog.Configs();
      forall i, j | 0 <= i < j < |keys| ensures keys[i] != keys[j] {
        assert keys[i] == c[i].0 && keys[j] == c[j].0;
      }
    }
    match layout {
      case None =>
      case Some(text) =>
        if text != "" {
          FilterIsSubsequence(keys, text);
          FilterNoDuplicates(keys, text);
          forall name ensures name in Detect(layout) <==> name in keys && Contains(text, Marker(name)) {
            FilterMembership(keys, text, name);
          }
        } else {
          forall name ensures !Contains(text, Marker(name)) {
            assert forall i :: !OccursAt(text, Marker(name), i);
          }
        }
    }
  }

  /** A substring of a substring is a substring. */
  lemma ContainsTransitive(outer: string, inner: string, needle: string)
    requires Contains(outer, inner) && Contains(inner, needle)
    ensures Contains(outer, needle)
  {
    var i :| OccursAt(outer, inner, i);
    var j :| OccursAt(inner, needle, j);
    var found := outer[i + j..i + j + |needle|];
    forall k | 0 <= k < |needle| ensures found[k] == needle[k] {
      assert needle[k] == inner[j..j + |needle|][k] == inner[j + k];
      assert inner[j + k] == outer[i..i + |inner|][j + k] == outer[i + j + k];
    }
    assert found == needle;
    assert OccursAt(outer, needle, i + j);
  }

  /** Growing the layout never loses a detected VAD: every name found in a
      layout is also found in any layout that contains it as a substring. */
  lemma DetectMonotone(layout: string, larger: string)
    requires Contains(larger, layout)
    ensures forall name :: name in Detect(Some(layout)) ==> name in Detect(Some(larger))
  {
    DetectSpec(Some(layout));
    DetectSpec(Some(larger));
    forall name | name in Detect(Some(layout)) ensures name in Detect(Some(larger)) {
      ContainsTransitive(larger, layout, Marker(name));
    }
  }
}
