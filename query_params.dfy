/** The part of the browser's `URLSearchParams` the pages use: an ordered
    list of name/value pairs with `set` and `get`. */
module QueryParams {
  import opened Options

  type Params = seq<(string, string)>

  predicate HasKey(ps: Params, k: string) {
    exists i :: 0 <= i < |ps| && ps[i].0 == k
  }

  /** `get(k)`: the value of the first pair named `k`, `None` (null) if there is none. */
  function Get(ps: Params, k: string): (r: Option<string>)
    ensures r.None? <==> !HasKey(ps, k)
  {
    if ps == [] then None
    else if ps[0].0 == k then Some(ps[0].1)
    else Get(ps[1..], k)
  }

  /** The pairs not named `k`. */
  function Remove(ps: Params, k: string): (r: Params)
    ensures !HasKey(r, k)
    ensures forall k' :: k' != k ==> Get(r, k') == Get(ps, k')
  {
    if ps == [] then []
    else if ps[0].0 == k then Remove(ps[1..], k)
    else [ps[0]] + Remove(ps[1..], k)
  }

  /** The first pair named `k` takes value `v` and the later ones go. */
  function ReplaceFirst(ps: Params, k: string, v: string): (r: Params)
    requires HasKey(ps, k)
    ensures Get(r, k) == Some(v)
    ensures forall k' :: k' != k ==> Get(r, k') == Get(ps, k')
  {
    if ps[0].0 == k then [(k, v)] + Remove(ps[1..], k)
    else
      assert HasKey(ps[1..], k) by {
        var i :| 0 <= i < |ps| && ps[i].0 == k;
        assert ps[1..][i - 1].0 == k;
      }
      [ps[0]] + ReplaceFirst(ps[1..], k, v)
  }

  /** `set(k, v)` (WHATWG URL Standard, section 6.2): replace the first pair
      named `k` and drop the other pairs with that name, or append a pair when
      there is none; afterwards `get(k)` is `v` and every other name reads as
      before. */
  function Set(ps: Params, k: string, v: string): (r: Params)
    ensures Get(r, k) == Some(v)
    ensures forall k' :: k' != k ==> Get(r, k') == Get(ps, k')
  {
    if HasKey(ps, k) then ReplaceFirst(ps, k, v) else AppendNew(ps, k, v)
  }

  function AppendNew(ps: Params, k: string, v: string): (r: Params)
    requires !HasKey(ps, k)
    ensures Get(r, k) == Some(v)
    ensures forall k' :: k' != k ==> Get(r, k') == Get(ps, k')
  {
    if ps == [] then [(k, v)] else [ps[0]] + AppendNew(ps[1..], k, v)
  }
}
