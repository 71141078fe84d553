/**
 * `list.map(x => hit(x) ? update(x) : x)`: the shape every by-id handler in the views
 * uses to rebuild its list state.
 */
module Records {

  function MapWhere<T>(s: seq<T>, hit: T -> bool, update: T -> T): (r: seq<T>)
    ensures |r| == |s|
    ensures forall i :: 0 <= i < |s| ==> r[i] == if hit(s[i]) then update(s[i]) else s[i]
  {
    if s == [] then []
    else [if hit(s[0]) then update(s[0]) else s[0]] + MapWhere(s[1..], hit, update)
  }

  /** When no element is hit, the list comes back unchanged. */
  lemma {:induction false} MapWhereNoHit<T>(s: seq<T>, hit: T -> bool, update: T -> T)
    requires forall i :: 0 <= i < |s| ==> !hit(s[i])
    ensures MapWhere(s, hit, update) == s
  {
    if s != [] {
      MapWhereNoHit(s[1..], hit, update);
    }
  }
}
