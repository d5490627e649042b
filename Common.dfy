/** Small value types shared by the modules. */
module Common {

  datatype Option<T> = None | Some(value: T) {
    function GetOr(default: T): T {
      match this
      case Some(v) => v
      case None => default
    }
  }

  /** `xs.slice(-n)`: the last `n` elements, or all of them when there are fewer (or `n` is 0). */
  function Last<T>(xs: seq<T>, n: nat): (r: seq<T>)
    ensures n > 0 ==> |r| == if |xs| <= n then |xs| else n
    ensures |r| <= |xs| && r == xs[|xs| - |r|..]
  {
    if n == 0 || |xs| <= n then xs else xs[|xs| - n..]
  }

  /** Once `b` alone has `n` elements, what precedes it is cut off by `Last`. */
  lemma LastOfAppend<T>(a: seq<T>, b: seq<T>, n: nat)
    requires 0 < n <= |b|
    ensures Last(a + b, n) == Last(b, n)
  {
    assert (a + b)[|a + b| - n..] == b[|b| - n..];
  }

  /** A random pick `arr[Math.floor(Math.random() * arr.length)]`, with the random draw as `choice`. */
  function Pick(pool: seq<string>, choice: nat): (r: string)
    requires |pool| > 0
    ensures r in pool
  {
    pool[choice % |pool|]
  }
}
