/** Sequences without repeats, and their beginnings and ends. */
module Seqs {
  ghost predicate Distinct<T(!new)>(s: seq<T>) {
    forall i, j | 0 <= i < j < |s| :: s[i] != s[j]
  }

  function First<T>(s: seq<T>, n: nat): seq<T> {
    if |s| <= n then s else s[..n]
  }

  function Last<T>(s: seq<T>, n: nat): seq<T> {
    if |s| <= n then s else s[|s| - n..]
  }

  // ---- first occurrences in order -------------------------------------------------------------------------

  function Firsts<T(==)>(s: seq<T>): seq<T> {
    if s == [] then []
    else
      var r := Firsts(s[..|s| - 1]);
      if s[|s| - 1] in r then r else r + [s[|s| - 1]]
  }

  /** The same elements, each once. */
  lemma {:induction false} FirstsKeepAll<T(!new)>(s: seq<T>)
    ensures Distinct(Firsts(s)) && forall x :: x in Firsts(s) <==> x in s
    ensures s != [] ==> Firsts(s) != [] && Firsts(s)[0] == s[0]
  {
    if s != [] {
      var n := |s| - 1;
      FirstsKeepAll(s[..n]);
      assert s == s[..n] + [s[n]];
      if n > 0 {
        assert s[..n][0] == s[0];
      }
    }
  }

  /** The places where something stands for the first time. */
  function Debuts<T(==)>(s: seq<T>): set<nat> {
    set i | 0 <= i < |s| && s[i] !in s[..i]
  }

  lemma DebutsExtend<T(!new)>(s: seq<T>)
    requires s != []
    ensures var n := |s| - 1; Debuts(s) == Debuts(s[..n]) + (if s[n] in s[..n] then {} else {n})
  {
    var n := |s| - 1;
    assert forall i | 0 <= i < n :: s[..n][..i] == s[..i];
  }

  lemma FirstsStep<T(!new)>(s: seq<T>)
    requires s != []
    ensures var n := |s| - 1; Firsts(s) == Firsts(s[..n]) + (if s[n] in s[..n] then [] else [s[n]])
  {
    FirstsKeepAll(s[..|s| - 1]);
  }

  lemma {:induction false} FirstsCount<T(!new)>(s: seq<T>)
    ensures |Firsts(s)| == |Debuts(s)|
  {
    if s != [] {
      DebutsExtend(s);
      FirstsStep(s);
      FirstsCount(s[..|s| - 1]);
    }
  }

  /** They come in the order of their first places. */
  lemma {:induction false} FirstsInOrder<T(!new)>(s: seq<T>, i: nat)
    requires i < |s| && s[i] !in s[..i]
    ensures |Debuts(s[..i])| < |Firsts(s)| && Firsts(s)[|Debuts(s[..i])|] == s[i]
    decreases |s|
  {
    var n := |s| - 1;
    FirstsStep(s);
    if i < n {
      assert s[..n][..i] == s[..i];
      FirstsInOrder(s[..n], i);
    } else {
      FirstsCount(s[..n]);
    }
  }

  /** Each prefix of the input has already given a prefix of the output. */
  lemma {:induction false} FirstsExtend<T(!new)>(s: seq<T>, k: nat)
    requires k <= |s|
    ensures Firsts(s[..k]) <= Firsts(s)
    decreases |s|
  {
    if k < |s| {
      FirstsExtend(s[..|s| - 1], k);
      assert s[..|s| - 1][..k] == s[..k];
    } else {
      assert s[..k] == s;
    }
  }

  // ---- taking an element out --------------------------------------------------------------------------------

  function Without<T(==)>(s: seq<T>, x: T): seq<T> {
    if s == [] then [] else if s[0] == x then Without(s[1..], x) else [s[0]] + Without(s[1..], x)
  }

  lemma {:induction false} WithoutIs<T(!new)>(s: seq<T>, x: T)
    ensures forall y :: y in Without(s, x) <==> y in s && y != x
    ensures Distinct(s) ==> Distinct(Without(s, x)) && |Without(s, x)| == |s| - (if x in s then 1 else 0)
    ensures x !in s ==> Without(s, x) == s
    ensures Distinct(s) && s != [] && s[0] == x ==> Without(s, x) == s[1..]
  {
    if s != [] {
      WithoutIs(s[1..], x);
      assert s == [s[0]] + s[1..];
      assert Distinct(s) ==> Distinct(s[1..]) && s[0] !in s[1..];
    }
  }

  /** What is left keeps its order. */
  lemma {:induction false} WithoutInOrder<T(!new)>(s: seq<T>, x: T, i: nat, j: nat) returns (i': nat, j': nat)
    requires i < j < |Without(s, x)|
    ensures i' < j' < |s| && s[i'] == Without(s, x)[i] && s[j'] == Without(s, x)[j]
  {
    var rest := Without(s[1..], x);
    if s[0] == x {
      i', j' := WithoutInOrder(s[1..], x, i, j);
      i', j' := i' + 1, j' + 1;
    } else if i > 0 {
      i', j' := WithoutInOrder(s[1..], x, i - 1, j - 1);
      i', j' := i' + 1, j' + 1;
    } else {
      i' := 0;
      WithoutIs(s[1..], x);
      assert rest[j - 1] in rest;
      var k :| 0 <= k < |s| - 1 && s[1..][k] == rest[j - 1];
      j' := k + 1;
    }
  }

  lemma {:induction false} WithoutSplits<T>(a: seq<T>, b: seq<T>, x: T)
    ensures Without(a + b, x) == Without(a, x) + Without(b, x)
  {
    if a == [] {
      assert a + b == b;
    } else {
      assert (a + b)[0] == a[0] && (a + b)[1..] == a[1..] + b;
      WithoutSplits(a[1..], b, x);
    }
  }
}
