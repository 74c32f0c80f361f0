/** The two list-state updates the components apply to one element chosen by
    its index: `prev.filter((_, i) => i !== idx)` and
    `prev.map((x, i) => i === idx ? f(x) : x)`. Both accept any index; one
    outside the list matches nothing. */
module Lists {

  /** `s.filter((_, i) => i !== idx)`, walking the list from its end so that
      indices stay those of s. */
  function WithoutIndex<T>(s: seq<T>, idx: int): (r: seq<T>)
    ensures 0 <= idx < |s| ==> r == s[..idx] + s[idx + 1..]
    ensures !(0 <= idx < |s|) ==> r == s
  {
    if s == [] then []
    else
      var last := |s| - 1;
      WithoutIndex(s[..last], idx) + (if last == idx then [] else [s[last]])
  }

  /** `s.map((x, i) => i === idx ? f(x) : x)` */
  function MapAtIndex<T>(s: seq<T>, idx: int, f: T -> T): (r: seq<T>)
    ensures |r| == |s|
    ensures forall k :: 0 <= k < |s| ==> r[k] == (if k == idx then f(s[k]) else s[k])
  {
    if s == [] then []
    else
      var last := |s| - 1;
      MapAtIndex(s[..last], idx, f) + [if last == idx then f(s[last]) else s[last]]
  }

}
