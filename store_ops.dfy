/**
 * The list and object operations both content stores are built from: the
 * default settings, `filter` by id, `findIndex` by id, the id-first new item
 * `{ id, ...item }` and the merge of updates into one entry.
 */
module StoreOps {
  import opened Decimal
  import opened JsValue

  function Pair(a: string, x: Json, b: string, y: Json): Object {
    map[a := x, b := y]
  }

  /** The settings of a fresh store: 25 x 80 dots, yellow on black, 300 ms flips, left to right. */
  function DefaultSettings(): (s: Object)
    ensures s.Keys == {"resolution", "colors", "timing", "animationDirection", "soundType"}
  {
    map[
      "resolution" := Obj(Pair("rows", Num(25.0), "cols", Num(80.0))),
      "colors" := Obj(Pair("front", Str("#FFFF00"), "back", Str("#000000"))),
      "timing" := Obj(map["flipDuration" := Num(300.0), "columnDelay" := Num(100.0),
                          "flipDurationVariance" := Num(20.0)]),
      "animationDirection" := Str("left-right"),
      "soundType" := Str("default")]
  }

  /** `item.id === id` for a string id: a missing id property never matches. */
  predicate HasId(item: Object, id: string) {
    "id" in item && item["id"] == Str(id)
  }

  /** `list.filter(item => item.id !== id)`. */
  function RemoveById(list: seq<Object>, id: string): (r: seq<Object>)
    ensures |r| <= |list|
    ensures forall x :: x in r <==> x in list && !HasId(x, id)
  {
    if |list| == 0 then []
    else if HasId(list[0], id) then RemoveById(list[1..], id)
    else [list[0]] + RemoveById(list[1..], id)
  }

  /** The filter works item by item, so it keeps the relative order of what it keeps. */
  lemma {:induction false} RemoveByIdConcat(a: seq<Object>, b: seq<Object>, id: string)
    ensures RemoveById(a + b, id) == RemoveById(a, id) + RemoveById(b, id)
  {
    if |a| > 0 {
      assert (a + b)[1..] == a[1..] + b;
      RemoveByIdConcat(a[1..], b, id);
    } else {
      assert a + b == b;
    }
  }

  /** Removing twice is removing once. */
  lemma {:induction false} RemoveByIdIdempotent(list: seq<Object>, id: string)
    ensures RemoveById(RemoveById(list, id), id) == RemoveById(list, id)
  {
    if |list| > 0 {
      RemoveByIdIdempotent(list[1..], id);
    }
  }

  /** With no item carrying the id the list is returned unchanged. */
  lemma {:induction false} RemoveByIdNoMatch(list: seq<Object>, id: string)
    requires forall i :: 0 <= i < |list| ==> !HasId(list[i], id)
    ensures RemoveById(list, id) == list
  {
    if |list| > 0 {
      RemoveByIdNoMatch(list[1..], id);
      assert list == [list[0]] + list[1..];
    }
  }

  /** `list.findIndex(s => s.id === id)`: the first matching position, or -1. */
  function FindById(list: seq<Object>, id: string): (i: int)
    ensures -1 <= i < |list|
    ensures i == -1 <==> forall j :: 0 <= j < |list| ==> !HasId(list[j], id)
    ensures i >= 0 ==> HasId(list[i], id) && forall j :: 0 <= j < i ==> !HasId(list[j], id)
  {
    if |list| == 0 then -1
    else if HasId(list[0], id) then 0
    else
      var j := FindById(list[1..], id);
      if j == -1 then -1 else j + 1
  }

  /**
   * `{ id, ...item }`: the generated id comes first, so an `id` the caller's
   * item carries replaces it; every other property is the item's.
   */
  function WithLeadingId(id: string, item: Json): (r: Object)
    ensures r.Keys == {"id"} + Spread(item).Keys
    ensures r["id"] == if "id" in Spread(item) then Spread(item)["id"] else Str(id)
    ensures forall k :: k in Spread(item) ==> r[k] == Spread(item)[k]
  {
    map["id" := Str(id)] + Spread(item)
  }

  /** The result of `updateService`: the merged entry, or `null` when no entry has the id. */
  datatype Updated = NoMatch | Merged(list: seq<Object>, entry: Object)

  /**
   * `index = findIndex(...)`, then `list[index] = { ...list[index], ...updates }`:
   * only the first entry with the id takes the updates.
   */
  function UpdateById(list: seq<Object>, id: string, updates: Json): (u: Updated)
    ensures u.NoMatch? <==> forall j :: 0 <= j < |list| ==> !HasId(list[j], id)
    ensures u.Merged? ==>
      var i := FindById(list, id);
      && |u.list| == |list|
      && u.entry == u.list[i] == Merge(list[i], updates)
      && forall j :: 0 <= j < |list| && j != i ==> u.list[j] == list[j]
  {
    var index := FindById(list, id);
    if index == -1 then NoMatch
    else
      var merged := Merge(list[index], updates);
      Merged(list[index := merged], merged)
  }

  /** Entries before the first match are left alone even when they would match later updates. */
  lemma UpdateFirstMatchOnly(list: seq<Object>, id: string, updates: Json, j: nat)
    requires UpdateById(list, id, updates).Merged?
    requires j < |list| && HasId(list[j], id) && j != FindById(list, id)
    ensures UpdateById(list, id, updates).list[j] == list[j]
    ensures FindById(list, id) < j
  {
  }

  /** Generated id strings `String(n)` are distinct for distinct counter values. */
  lemma GeneratedIdsDistinct(m: nat, n: nat)
    requires m != n
    ensures Str(Dec(m)) != Str(Dec(n))
  {
    if Dec(m) == Dec(n) {
      DecInjective(m, n);
    }
  }
}
