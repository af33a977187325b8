/**
 * The one selection idiom the decision policy uses over and over: filter a list, order it
 * stably by a key (ascending) and a tie-break (descending), and take the first element.
 */
module Select {

  datatype Option<T> = None | Some(value: T)

  /** `a` is ordered strictly before `b` by OrderBy(key).ThenByDescending(tie). */
  predicate Before<T>(key: T -> real, tie: T -> int, a: T, b: T)
  {
    key(a) < key(b) || (key(a) == key(b) && tie(a) > tie(b))
  }

  /**
   * The index that `Where(ok).OrderBy(key).ThenByDescending(tie).FirstOrDefault()` picks:
   * an element satisfying `ok` that no other such element precedes, and, because the sort
   * is stable, strictly ahead of every earlier such element.
   */
  function FirstBest<T>(s: seq<T>, ok: T -> bool, key: T -> real, tie: T -> int): (r: Option<nat>)
    ensures r.Some? ==> r.value < |s| && ok(s[r.value])
    ensures r.None? <==> forall j :: 0 <= j < |s| ==> !ok(s[j])
    ensures r.Some? ==> forall j :: 0 <= j < |s| && ok(s[j]) ==> !Before(key, tie, s[j], s[r.value])
    ensures r.Some? ==> forall j :: 0 <= j < r.value && ok(s[j]) ==> Before(key, tie, s[r.value], s[j])
  {
    if s == [] then None
    else
      var r := FirstBest(s[..|s| - 1], ok, key, tie);
      var last := s[|s| - 1];
      if !ok(last) then r
      else if r.None? || Before(key, tie, last, s[r.value]) then Some(|s| - 1)
      else r
  }
}
