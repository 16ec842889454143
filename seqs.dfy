/** The `forEach((it, idx) => container.appendChild(...))` pattern the
    renderers share: one output element per input element, in order, each
    computed from the element and its index. */
module Seqs {

  /** What appending `f(s[i], i)` for every `i` in order into an empty
      container leaves in it. */
  function MapIndexed<T, U>(s: seq<T>, f: (T, nat) -> U): seq<U>
  {
    if s == [] then [] else MapIndexed(s[..|s| - 1], f) + [f(s[|s| - 1], |s| - 1)]
  }

  lemma {:induction false} MapIndexedAt<T, U>(s: seq<T>, f: (T, nat) -> U)
    ensures |MapIndexed(s, f)| == |s|
    ensures forall i :: 0 <= i < |s| ==> MapIndexed(s, f)[i] == f(s[i], i)
  {
    if s != [] {
      MapIndexedAt(s[..|s| - 1], f);
    }
  }

  /** A container cleared (`innerHTML = ""`) and then filled by a `forEach`
      loop: the result is one element per input, in input order. */
  method AppendEach<T, U>(s: seq<T>, f: (T, nat) -> U) returns (out: seq<U>)
    ensures out == MapIndexed(s, f)
  {
    out := [];
    var i := 0;
    while i < |s|
      invariant 0 <= i <= |s|
      invariant out == MapIndexed(s[..i], f)
    {
      assert s[..i + 1][..i] == s[..i];
      out := out + [f(s[i], i)];
      i := i + 1;
    }
    assert s[..i] == s;
  }
}
