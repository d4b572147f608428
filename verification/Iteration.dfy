/** Repeating one step of a machine, and what it puts out on the way. */
module Iteration {

  /** `stop` says in which states a call changes nothing and puts out nothing. */
  datatype Machine<!S, !O> = Machine(next: S -> S, out: S -> seq<O>, stop: S -> bool)

  function After<S, O>(m: Machine<S, O>, s: S, k: nat): S
    decreases k
  {
    if k == 0 || m.stop(s) then s else After(m, m.next(s), k - 1)
  }

  function Output<S, O>(m: Machine<S, O>, s: S, k: nat): seq<O>
    decreases k
  {
    if k == 0 || m.stop(s) then [] else m.out(s) + Output(m, m.next(s), k - 1)
  }

  lemma {:induction false} AfterCompose<S, O>(m: Machine<S, O>, s: S, j: nat, k: nat)
    ensures After(m, s, j + k) == After(m, After(m, s, j), k)
    decreases j
  {
    if j > 0 && !m.stop(s) { AfterCompose(m, m.next(s), j - 1, k); }
  }

  lemma {:induction false} OutputCompose<S, O>(m: Machine<S, O>, s: S, j: nat, k: nat)
    ensures Output(m, s, j + k) == Output(m, s, j) + Output(m, After(m, s, j), k)
    decreases j
  {
    if j > 0 && !m.stop(s) {
      OutputCompose(m, m.next(s), j - 1, k);
      var a, b, c := m.out(s), Output(m, m.next(s), j - 1), Output(m, After(m, s, j), k);
      assert a + (b + c) == (a + b) + c;
    } else if j > 0 {
      assert Output(m, s, j) == [];
    }
  }

  lemma {:induction false} InvariantKept<S(!new), O>(m: Machine<S, O>, inv: S -> bool, s: S, k: nat)
    requires inv(s) && forall x :: inv(x) && !m.stop(x) ==> inv(m.next(x))
    ensures inv(After(m, s, k))
    decreases k
  {
    if k > 0 && !m.stop(s) { InvariantKept(m, inv, m.next(s), k - 1); }
  }

  /** A counter that every step moves by one, in a machine that stops at `max`. */
  lemma {:induction false} CountsSteps<S(!new), O>(m: Machine<S, O>, count: S -> nat, max: nat, s: S, k: nat)
    requires forall x :: !m.stop(x) ==> count(m.next(x)) == count(x) + 1
    requires forall x :: m.stop(x) <==> count(x) >= max
    ensures count(After(m, s, k))
         == if count(s) >= max then count(s) else if count(s) + k <= max then count(s) + k else max
    decreases k
  {
    if k > 0 && !m.stop(s) { CountsSteps(m, count, max, m.next(s), k - 1); }
  }

  /** One more step, taken at the end. */
  lemma OutputSnoc<S, O>(m: Machine<S, O>, s: S, k: nat)
    requires !m.stop(After(m, s, k))
    ensures Output(m, s, k + 1) == Output(m, s, k) + m.out(After(m, s, k))
  {
    var t := After(m, s, k);
    OutputCompose(m, s, k, 1);
    assert Output(m, m.next(t), 0) == [];
    assert m.out(t) + [] == m.out(t);
  }

  /** Where step i puts out the stretch of `all` between cuts i and i + 1. */
  ghost predicate PutsOut<S(!new), O>(m: Machine<S, O>, s: S, i: nat, all: seq<O>, cuts: seq<nat>) {
    && i + 1 < |cuts| && cuts[i] <= cuts[i + 1] <= |all|
    && !m.stop(After(m, s, i)) && m.out(After(m, s, i)) == all[cuts[i]..cuts[i + 1]]
  }

  /** Neighbouring stretches add up to one. */
  lemma {:induction false} OutputIsSlice<S(!new), O>(m: Machine<S, O>, s: S, k: nat, all: seq<O>, cuts: seq<nat>)
    requires k < |cuts| && cuts[0] <= |all| && forall i: nat :: i < k ==> PutsOut(m, s, i, all, cuts)
    ensures cuts[0] <= cuts[k] <= |all| && Output(m, s, k) == all[cuts[0]..cuts[k]]
    decreases k
  {
    if k > 0 {
      OutputIsSlice(m, s, k - 1, all, cuts);
      assert PutsOut(m, s, k - 1, all, cuts);
      OutputSnoc(m, s, k - 1);
      JoinSlices(all, cuts[0], cuts[k - 1], cuts[k]);
    }
  }

  lemma JoinSlices<X>(s: seq<X>, a: nat, b: nat, c: nat)
    requires a <= b <= c <= |s|
    ensures s[a..b] + s[b..c] == s[a..c]
  {
  }
}
