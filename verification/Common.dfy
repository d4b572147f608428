/** Small vocabulary shared by the models: optional values and facts about sequences. */
module Common {

  datatype Option<+T> = None | Some(value: T)

  datatype Result<+T, +E> = Ok(value: T) | Err(error: E)

  ghost predicate NoDup<T>(s: seq<T>) {
    forall i, j :: 0 <= i < j < |s| ==> s[i] != s[j]
  }

  function Reverse<T>(s: seq<T>): (r: seq<T>)
    ensures |r| == |s|
    ensures forall i :: 0 <= i < |s| ==> r[i] == s[|s| - 1 - i]
  {
    seq(|s|, i requires 0 <= i < |s| => s[|s| - 1 - i])
  }

  lemma ReverseConcat<T>(a: seq<T>, b: seq<T>)
    ensures Reverse(a + b) == Reverse(b) + Reverse(a)
  {
  }

  lemma ConcatAssociates<T>(a: seq<T>, b: seq<T>, c: seq<T>)
    ensures (a + b) + c == a + (b + c)
  {
  }

  lemma HeadFirst<T>(a: seq<T>, b: seq<T>)
    requires a != []
    ensures [a[0]] + (a[1..] + b) == a + b
  {
  }

  function Flatten<T>(ss: seq<seq<T>>): seq<T> {
    if ss == [] then [] else ss[0] + Flatten(ss[1..])
  }

  lemma {:induction false} FlattenSnoc<T>(ss: seq<seq<T>>, s: seq<T>)
    ensures Flatten(ss + [s]) == Flatten(ss) + s
  {
    if ss == [] {
      assert ss + [s] == [s];
      assert Flatten([s]) == s + Flatten([]);
    } else {
      assert (ss + [s])[1..] == ss[1..] + [s];
      FlattenSnoc(ss[1..], s);
    }
  }

  lemma {:induction false} FlattenConcat<T>(a: seq<seq<T>>, b: seq<seq<T>>)
    ensures Flatten(a + b) == Flatten(a) + Flatten(b)
  {
    if a == [] {
      assert a + b == b;
    } else {
      assert (a + b)[1..] == a[1..] + b;
      FlattenConcat(a[1..], b);
    }
  }

  lemma {:induction false} InFlatten<T>(ss: seq<seq<T>>, x: T)
    ensures x in Flatten(ss) <==> exists i :: 0 <= i < |ss| && x in ss[i]
  {
    if ss != [] {
      InFlatten(ss[1..], x);
      if x in Flatten(ss) {
        if x in ss[0] {
        } else {
          var i :| 0 <= i < |ss[1..]| && x in ss[1..][i];
          assert x in ss[i + 1];
        }
      }
      if i :| 0 <= i < |ss| && x in ss[i] {
        if i > 0 { assert x in ss[1..][i - 1]; }
      }
    }
  }

  /** Lists without repetitions that share no element can be joined. */
  lemma NoDupConcat<T>(a: seq<T>, b: seq<T>)
    requires NoDup(a) && NoDup(b)
    requires forall x :: x in a ==> x !in b
    ensures NoDup(a + b)
  {
    var s := a + b;
    forall i, j | 0 <= i < j < |s| ensures s[i] != s[j] {
      if j >= |a| {
        assert s[j] == b[j - |a|];
        if i < |a| { assert s[i] in a && s[j] in b; }
      }
    }
  }

  lemma {:induction false} NoDupFlatten<T>(ss: seq<seq<T>>)
    requires forall i :: 0 <= i < |ss| ==> NoDup(ss[i])
    requires forall i, j, x :: 0 <= i < j < |ss| && x in ss[i] ==> x !in ss[j]
    ensures NoDup(Flatten(ss))
  {
    if ss != [] {
      NoDupFlatten(ss[1..]);
      forall x | x in ss[0] ensures x !in Flatten(ss[1..]) {
        InFlatten(ss[1..], x);
      }
      NoDupConcat(ss[0], Flatten(ss[1..]));
    }
  }

  ghost function Elements<T>(s: seq<T>): set<T> {
    set x | x in s
  }

  lemma {:induction false} NoDupCardinality<T>(s: seq<T>)
    requires NoDup(s)
    ensures |Elements(s)| == |s|
  {
    if s != [] {
      NoDupCardinality(s[1..]);
      assert Elements(s) == Elements(s[1..]) + {s[0]};
    }
  }

  lemma SubsetCardinality<T>(a: set<T>, b: set<T>)
    requires a <= b
    ensures |a| <= |b|
  {
    assert b == a + (b - a);
  }

  function Below(n: nat): (s: set<nat>)
    ensures |s| == n
    ensures forall x: nat :: x in s <==> x < n
  {
    if n == 0 then {} else Below(n - 1) + {n - 1}
  }

  /** A set of n numbers below n holds all of them. */
  lemma FullBelow(a: set<nat>, n: nat)
    requires forall x :: x in a ==> x < n
    ensures |a| <= n
    ensures |a| == n ==> a == Below(n)
  {
    SubsetCardinality(a, Below(n));
    if x: nat :| x in Below(n) && x !in a {
      SubsetCardinality(a, Below(n) - {x});
    }
  }

  /** A list of n different numbers below n holds each of them somewhere. */
  lemma FullListHolds(s: seq<nat>, i: nat) returns (k: nat)
    requires NoDup(s) && i < |s| && forall j :: 0 <= j < |s| ==> s[j] < |s|
    ensures k < |s| && s[k] == i
  {
    NoDupCardinality(s);
    FullBelow(Elements(s), |s|);
    assert i in Elements(s);
    k :| 0 <= k < |s| && s[k] == i;
  }
}
