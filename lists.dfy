/** `filter` followed by `map`, as one pass that keeps the images of the accepted elements in
    their original order; both importers build their trade lists this way. */
module Lists {

  import opened Wrappers

  function FilterMap<A, B>(s: seq<A>, f: A -> Option<B>): (r: seq<B>)
    decreases |s|
  {
    if s == [] then []
    else
      var n := |s| - 1;
      FilterMap(s[..n], f) + (match f(s[n]) case Some(b) => [b] case None => [])
  }

  /** At most one output per input. */
  lemma {:induction false} FilterMapLength<A, B>(s: seq<A>, f: A -> Option<B>)
    ensures |FilterMap(s, f)| <= |s|
    decreases |s|
  {
    if s != [] {
      FilterMapLength(s[..|s| - 1], f);
    }
  }

  /** The outputs are exactly the images of the accepted inputs. */
  lemma {:induction false} FilterMapExact<A, B>(s: seq<A>, f: A -> Option<B>)
    ensures forall b :: b in FilterMap(s, f) <==> exists i :: 0 <= i < |s| && f(s[i]) == Some(b)
    decreases |s|
  {
    if s != [] {
      var n := |s| - 1;
      var init := s[..n];
      FilterMapExact(init, f);
      assert forall i :: 0 <= i < n ==> init[i] == s[i];
      forall b | exists i :: 0 <= i < |s| && f(s[i]) == Some(b)
        ensures b in FilterMap(s, f)
      {
        var i :| 0 <= i < |s| && f(s[i]) == Some(b);
        if i < n {
          assert f(init[i]) == Some(b);
        }
      }
    }
  }

  /** When every input is accepted, the output is the image of every input, in order. */
  lemma {:induction false} FilterMapAll<A, B>(s: seq<A>, f: A -> Option<B>)
    requires forall i :: 0 <= i < |s| ==> f(s[i]).Some?
    ensures |FilterMap(s, f)| == |s|
    ensures forall i :: 0 <= i < |s| ==> FilterMap(s, f)[i] == f(s[i]).value
    decreases |s|
  {
    if s != [] {
      var n := |s| - 1;
      assert forall i :: 0 <= i < n ==> s[..n][i] == s[i];
      FilterMapAll(s[..n], f);
    }
  }

  /** The number of elements of `s` that satisfy `p`. */
  function Count<A>(s: seq<A>, p: A -> bool): nat
    decreases |s|
  {
    if s == [] then 0 else Count(s[..|s| - 1], p) + (if p(s[|s| - 1]) then 1 else 0)
  }

  /** Exactly one output per accepted input. */
  lemma {:induction false} FilterMapCount<A, B>(s: seq<A>, f: A -> Option<B>, p: A -> bool)
    requires forall x :: f(x).Some? <==> p(x)
    ensures |FilterMap(s, f)| == Count(s, p)
    decreases |s|
  {
    if s != [] {
      FilterMapCount(s[..|s| - 1], f, p);
    }
  }

  /** Appending one input appends its image, if any. */
  lemma FilterMapStep<A, B>(s: seq<A>, x: A, f: A -> Option<B>)
    ensures FilterMap(s + [x], f) == FilterMap(s, f) + (match f(x) case Some(b) => [b] case None => [])
  {
    assert (s + [x])[..|s|] == s;
  }

  /** A rejected input can be appended without changing the output. */
  lemma FilterMapSkip<A, B>(s: seq<A>, x: A, f: A -> Option<B>)
    requires f(x).None?
    ensures FilterMap(s + [x], f) == FilterMap(s, f)
  {
    assert (s + [x])[..|s|] == s;
  }

  /** When no input is accepted, the output is empty. */
  lemma {:induction false} FilterMapNone<A, B>(s: seq<A>, f: A -> Option<B>)
    requires forall i :: 0 <= i < |s| ==> f(s[i]).None?
    ensures FilterMap(s, f) == []
    decreases |s|
  {
    if s != [] {
      var n := |s| - 1;
      assert forall i :: 0 <= i < n ==> s[..n][i] == s[i];
      FilterMapNone(s[..n], f);
    }
  }
}
