/** Python's `max(xs, key=k)` keeps its running best and replaces it only on
    a strictly greater key, so it returns the FIRST element of maximal key;
    `min(xs, key=k)` and `sorted(xs, key=k)[0]` (a stable sort) likewise return
    the first element of minimal key. The policies apply these to the models
    that pass the budget filter; this module fuses the filter with the scan. */
module Select {
  import opened Results

  /** Some element of `s` satisfies `ok`. */
  predicate AnyWhere<T>(s: seq<T>, ok: T -> bool) {
    exists j :: 0 <= j < |s| && ok(s[j])
  }

  /** `i` is the first index satisfying `ok` whose key is maximal among
      the indices satisfying `ok`. */
  predicate IsFirstMaxWhere<T>(s: seq<T>, ok: T -> bool, key: T -> real, i: int) {
    && 0 <= i < |s|
    && ok(s[i])
    && (forall j :: 0 <= j < |s| && ok(s[j]) ==> key(s[j]) <= key(s[i]))
    && (forall j :: 0 <= j < i && ok(s[j]) ==> key(s[j]) < key(s[i]))
  }

  /** The mirror image: first index of minimal key among those satisfying `ok`. */
  predicate IsFirstMinWhere<T>(s: seq<T>, ok: T -> bool, key: T -> real, i: int) {
    && 0 <= i < |s|
    && ok(s[i])
    && (forall j :: 0 <= j < |s| && ok(s[j]) ==> key(s[i]) <= key(s[j]))
    && (forall j :: 0 <= j < i && ok(s[j]) ==> key(s[i]) < key(s[j]))
  }

  /** The left-to-right scan of `max`: a later element replaces the running
      best only when its key is strictly greater. */
  function FirstMaxWhere<T>(s: seq<T>, ok: T -> bool, key: T -> real): (r: Option<nat>)
    ensures r.None? <==> !AnyWhere(s, ok)
    ensures r.Some? ==> IsFirstMaxWhere(s, ok, key, r.value)
  {
    if |s| == 0 then None
    else
      var init := s[..|s| - 1];
      var best := FirstMaxWhere(init, ok, key);
      var last := s[|s| - 1];
      assert forall j :: 0 <= j < |init| ==> init[j] == s[j];
      if !ok(last) then best
      else if best.None? || key(last) > key(s[best.value]) then Some(|s| - 1)
      else best
  }

  /** `min`: the same scan, replacing only on a strictly smaller key. */
  function FirstMinWhere<T>(s: seq<T>, ok: T -> bool, key: T -> real): (r: Option<nat>)
    ensures r.None? <==> !AnyWhere(s, ok)
    ensures r.Some? ==> IsFirstMinWhere(s, ok, key, r.value)
  {
    FirstMaxWhere(s, ok, x => -key(x))
  }

  /** There is only one first maximal index. */
  lemma FirstMaxUnique<T>(s: seq<T>, ok: T -> bool, key: T -> real, i: int, k: int)
    requires IsFirstMaxWhere(s, ok, key, i) && IsFirstMaxWhere(s, ok, key, k)
    ensures i == k
  {
  }

  /** There is only one first minimal index. */
  lemma FirstMinUnique<T>(s: seq<T>, ok: T -> bool, key: T -> real, i: int, k: int)
    requires IsFirstMinWhere(s, ok, key, i) && IsFirstMinWhere(s, ok, key, k)
    ensures i == k
  {
  }

  /** Of three elements, the first is the first maximum when it is
      eligible and no key exceeds its own. */
  lemma FirstOfThreeIsFirstMax<T>(s: seq<T>, ok: T -> bool, key: T -> real)
    requires |s| == 3 && ok(s[0])
    requires key(s[1]) <= key(s[0]) && key(s[2]) <= key(s[0])
    ensures IsFirstMaxWhere(s, ok, key, 0)
  {
  }

  /** Of three elements where the last is not eligible, the middle one is
      the first maximum when the first has a strictly smaller key. */
  lemma MiddleOfThreeIsFirstMax<T>(s: seq<T>, ok: T -> bool, key: T -> real)
    requires |s| == 3 && ok(s[1]) && !ok(s[2])
    requires key(s[0]) < key(s[1])
    ensures IsFirstMaxWhere(s, ok, key, 1)
  {
  }

  /** Of three elements, the last is the first maximum when both others
      have a strictly smaller key. */
  lemma LastOfThreeIsFirstMax<T>(s: seq<T>, ok: T -> bool, key: T -> real)
    requires |s| == 3 && ok(s[2])
    requires key(s[0]) < key(s[2]) && key(s[1]) < key(s[2])
    ensures IsFirstMaxWhere(s, ok, key, 2)
  {
  }

  /** Of three elements, the first is the first minimum when it is
      eligible and no key falls below its own. */
  lemma FirstOfThreeIsFirstMin<T>(s: seq<T>, ok: T -> bool, key: T -> real)
    requires |s| == 3 && ok(s[0])
    requires key(s[0]) <= key(s[1]) && key(s[0]) <= key(s[2])
    ensures IsFirstMinWhere(s, ok, key, 0)
  {
  }
}
