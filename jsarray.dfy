/** The two JavaScript array methods the normaliser uses, on sequences. */
module JsArray {

  /** `xs.map(f)`: the projection of every element, in order. */
  function Map<A, B>(f: A -> B, xs: seq<A>): (ys: seq<B>)
    ensures |ys| == |xs|
    ensures forall i :: 0 <= i < |xs| ==> ys[i] == f(xs[i])
    decreases |xs|
  {
    if xs == [] then [] else [f(xs[0])] + Map(f, xs[1..])
  }

  function Min(a: nat, b: nat): nat
  {
    if a <= b then a else b
  }

  /** `xs.slice(0, n)`: the first n elements, or all of them when there are fewer. */
  function Slice<T>(xs: seq<T>, n: nat): (ys: seq<T>)
    ensures |ys| == Min(|xs|, n)
    ensures ys <= xs
  {
    if |xs| <= n then xs else xs[..n]
  }
}
