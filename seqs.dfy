/** Order-preserving selection, the meaning of `Array.prototype.filter`. */
module Seqs {

  /** `r` is `s` with zero or more elements deleted, the rest kept in order. */
  predicate IsSubseq<T(==)>(r: seq<T>, s: seq<T>)
    decreases |s|
  {
    if r == [] then true
    else if s == [] then false
    else if r[0] == s[0] then IsSubseq(r[1..], s[1..])
    else IsSubseq(r, s[1..])
  }

  /** A subsequence draws every element, with multiplicity, from `s`. */
  lemma {:induction false} SubseqMultiset<T>(r: seq<T>, s: seq<T>)
    requires IsSubseq(r, s)
    ensures multiset(r) <= multiset(s)
    decreases |s|
  {
    if r != [] {
      assert s == [s[0]] + s[1..];
      if r[0] == s[0] {
        assert r == [r[0]] + r[1..];
        SubseqMultiset(r[1..], s[1..]);
      } else {
        SubseqMultiset(r, s[1..]);
      }
    }
  }

  /** Every sequence is a subsequence of itself. */
  lemma {:induction false} SubseqRefl<T>(s: seq<T>)
    ensures IsSubseq(s, s)
  {
    if s != [] {
      SubseqRefl(s[1..]);
    }
  }

  /** A subsequence of `t` is a subsequence of `t` with anything put in front. */
  lemma {:induction false} SubseqCons<T>(r: seq<T>, t: seq<T>, x: T)
    requires IsSubseq(r, t)
    ensures IsSubseq(r, [x] + t)
    decreases |t|, 1
  {
    if r != [] {
      assert ([x] + t)[1..] == t;
      if r[0] == x {
        SubseqDropHead(r, t);
      }
    }
  }

  /** Dropping the first element of a subsequence keeps it a subsequence. */
  lemma {:induction false} SubseqDropHead<T>(r: seq<T>, t: seq<T>)
    requires r != [] && IsSubseq(r, t)
    ensures IsSubseq(r[1..], t)
    decreases |t|, 0
  {
    assert t != [];
    if r[0] == t[0] {
      SubseqCons(r[1..], t[1..], t[0]);
      assert [t[0]] + t[1..] == t;
    } else {
      SubseqDropHead(r, t[1..]);
      SubseqCons(r[1..], t[1..], t[0]);
      assert [t[0]] + t[1..] == t;
    }
  }

  /** Being a subsequence is transitive. */
  lemma {:induction false} SubseqTrans<T>(a: seq<T>, b: seq<T>, c: seq<T>)
    requires IsSubseq(a, b) && IsSubseq(b, c)
    ensures IsSubseq(a, c)
    decreases |c|
  {
    if a != [] {
      assert b != [] && c != [];
      if b[0] == c[0] {
        if a[0] == b[0] {
          SubseqTrans(a[1..], b[1..], c[1..]);
        } else {
          SubseqTrans(a, b[1..], c[1..]);
        }
      } else {
        SubseqTrans(a, b, c[1..]);
        SubseqCons(a, c[1..], c[0]);
        assert [c[0]] + c[1..] == c;
      }
    }
  }

  /** Taking a prefix away from a sequence's multiset leaves the suffix's. */
  lemma SplitMultiset<T>(s: seq<T>, k: nat)
    requires k <= |s|
    ensures multiset(s) - multiset(s[..k]) == multiset(s[k..])
  {
    assert s == s[..k] + s[k..];
  }
}
