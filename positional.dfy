/** An optional value: `None` plays the part of JavaScript's `null`/`undefined`. */
module Optional {
  datatype Option<+T> = None | Some(value: T)

  /** `stored || fallback` for a value read from browser storage (an array is always truthy). */
  function OrElse<T>(stored: Option<T>, fallback: T): T {
    match stored
    case Some(v) => v
    case None => fallback
  }
}

/**
 * The positional list operations the three forms share: records are identified by
 * their array index, the forms replace with `map((e, i) => i === index ? … : e)`,
 * remove with `filter((_, i) => i !== index)` and append with a spread.
 */
module Positional {
  import opened Optional

  /** `s.map((e, i) => i === index ? f(e) : e)`: only the element at `index`, if there is one, is transformed. */
  function MapAt<T>(s: seq<T>, index: int, f: T -> T): (r: seq<T>)
    ensures |r| == |s|
    ensures 0 <= index < |s| ==> r == s[index := f(s[index])]
    ensures !(0 <= index < |s|) ==> r == s
    decreases |s|
  {
    if s == [] then []
    else [if index == 0 then f(s[0]) else s[0]] + MapAt(s[1..], index - 1, f)
  }

  /** `s.map((e, i) => i === index ? x : e)`. */
  function ReplaceAt<T>(s: seq<T>, index: int, x: T): (r: seq<T>)
    ensures |r| == |s|
    ensures 0 <= index < |s| ==> r[index] == x
    ensures forall k :: 0 <= k < |s| && k != index ==> r[k] == s[k]
  {
    MapAt(s, index, (e: T) => x)
  }

  /** `s.filter((_, i) => i !== index)`: the element at `index` leaves, the others keep their order. */
  function RemoveAt<T>(s: seq<T>, index: int): (r: seq<T>)
    ensures 0 <= index < |s| ==> r == s[..index] + s[index + 1..]
    ensures !(0 <= index < |s|) ==> r == s
    decreases |s|
  {
    if s == [] then []
    else (if index == 0 then [] else [s[0]]) + RemoveAt(s[1..], index - 1)
  }

  /** Removal in range shortens the list by one, keeps the prefix and shifts the later elements down by one. */
  lemma RemoveAtShifts<T>(s: seq<T>, index: int)
    requires 0 <= index < |s|
    ensures |RemoveAt(s, index)| == |s| - 1
    ensures forall k :: 0 <= k < index ==> RemoveAt(s, index)[k] == s[k]
    ensures forall k :: index <= k < |s| - 1 ==> RemoveAt(s, index)[k] == s[k + 1]
    ensures multiset(RemoveAt(s, index)) == multiset(s) - multiset{s[index]}
  {
    var r := RemoveAt(s, index);
    assert s == s[..index] + [s[index]] + s[index + 1..];
    assert r == s[..index] + s[index + 1..];
  }

  /**
   * What a form's submit stores: with an edit in progress the record replaces position
   * `editIndex`, otherwise it is appended.
   */
  function SubmitRecord<T>(list: seq<T>, editIndex: Option<nat>, record: T): (r: seq<T>)
    ensures editIndex.None? ==> |r| == |list| + 1 && r[..|list|] == list && r[|list|] == record
    ensures editIndex.Some? ==> |r| == |list|
    ensures editIndex.Some? ==> forall k :: 0 <= k < |list| && k != editIndex.value ==> r[k] == list[k]
    ensures editIndex.Some? && editIndex.value < |list| ==> r[editIndex.value] == record
  {
    match editIndex
    case Some(i) => ReplaceAt(list, i, record)
    case None => list + [record]
  }

  /**
   * Indices are not re-resolved after a removal: an edit started at position `editing`
   * and submitted after removing the same or an earlier position overwrites the record
   * that used to follow the one being edited (or nothing, when it was the last one);
   * after an earlier removal the edited record itself stays as it was.
   */
  lemma StaleEditIndexAfterRemoval<T>(s: seq<T>, removed: nat, editing: nat, record: T)
    requires removed <= editing < |s|
    ensures var r := SubmitRecord(RemoveAt(s, removed), Some(editing), record);
            |r| == |s| - 1 &&
            (removed < editing ==> r[editing - 1] == s[editing]) &&
            (editing < |s| - 1 ==> r[editing] == record) &&
            (editing == |s| - 1 ==> r == RemoveAt(s, removed))
  {
    RemoveAtShifts(s, removed);
  }
}
