/**
 * Helpers shared by every collection (users, lectures, assignments,
 * submissions): identifier assignment by scanning the collection, and the
 * "first record that matches" lookup the routes write as
 * `next((x for x in xs if ...), None)`.
 */
module Collections {
  import opened Wrappers

  /** The largest identifier in a non-empty collection (`max(item[id_key] for item in data_list)`). */
  function MaxKey<T>(items: seq<T>, key: T -> int): (m: int)
    requires |items| > 0
    ensures forall i :: 0 <= i < |items| ==> key(items[i]) <= m
    ensures exists i :: 0 <= i < |items| && key(items[i]) == m
    decreases |items|
  {
    if |items| == 1 then key(items[0])
    else
      var front := items[..|items| - 1];
      var rest := MaxKey(front, key);
      var last := key(items[|items| - 1]);
      assert forall i :: 0 <= i < |front| ==> front[i] == items[i];
      if rest < last then last else rest
  }

  /**
   * `get_next_id`: 1 for an empty collection, otherwise one more than the
   * largest identifier present, so the result is never already taken.
   */
  function NextId<T>(items: seq<T>, key: T -> int): (r: int)
    ensures |items| == 0 ==> r == 1
    ensures |items| > 0 ==> exists i :: 0 <= i < |items| && key(items[i]) == r - 1
    ensures forall i :: 0 <= i < |items| ==> key(items[i]) < r
  {
    if |items| == 0 then 1 else MaxKey(items, key) + 1
  }

  /** No two records of the collection share an identifier. */
  predicate UniqueKeys<T>(items: seq<T>, key: T -> int)
  {
    forall i, j :: 0 <= i < j < |items| ==> key(items[i]) != key(items[j])
  }

  /** Appending a record that carries the next identifier keeps identifiers unique. */
  lemma AppendNextIdKeepsUnique<T>(items: seq<T>, x: T, key: T -> int)
    requires UniqueKeys(items, key)
    requires key(x) == NextId(items, key)
    ensures UniqueKeys(items + [x], key)
  {
    var s := items + [x];
    forall i, j | 0 <= i < j < |s|
      ensures key(s[i]) != key(s[j])
    {
      if j == |items| {
        assert s[i] == items[i];
      } else {
        assert s[i] == items[i] && s[j] == items[j];
      }
    }
  }

  /**
   * Identifiers grow by exactly one per append: after appending the record
   * that got the next identifier, the next identifier is one larger.
   */
  lemma NextIdAfterAppend<T>(items: seq<T>, x: T, key: T -> int)
    requires key(x) == NextId(items, key)
    ensures NextId(items + [x], key) == key(x) + 1
  {
    var s := items + [x];
    assert s[|items|] == x;
    assert forall k :: 0 <= k < |items| ==> s[k] == items[k];
  }

  /**
   * The index of the first element satisfying `p`, or None when there is
   * none (Python's `next(generator, None)`).
   */
  function FirstIndex<T>(s: seq<T>, p: T -> bool): (r: Option<nat>)
    ensures r.None? <==> forall i :: 0 <= i < |s| ==> !p(s[i])
    ensures r.Some? ==> r.value < |s| && p(s[r.value])
    ensures r.Some? ==> forall j :: 0 <= j < r.value ==> !p(s[j])
    decreases |s|
  {
    if |s| == 0 then None
    else if p(s[0]) then Some(0)
    else
      match FirstIndex(s[1..], p)
      case None => None
      case Some(k) => Some(k + 1)
  }

  /**
   * Replacing an element by one that `p` judges the same way leaves the
   * first match where it was.
   */
  lemma {:induction false} FirstIndexAfterUpdate<T>(s: seq<T>, i: nat, v: T, p: T -> bool)
    requires i < |s|
    requires p(v) == p(s[i])
    ensures FirstIndex(s[i := v], p) == FirstIndex(s, p)
  {
    var t := s[i := v];
    assert forall k :: 0 <= k < |s| ==> p(t[k]) == p(s[k]);
  }
}
