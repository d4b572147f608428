/** Batch identifiers and the priority order the scheduler dispatches them in. */
module BatchOrder {
  import opened Common
  import opened Decimal

  /** Train batches are numbered by step; eval batches are named "<step>/<taskset>". */
  datatype BatchId = Step(n: int) | Named(name: string)

  /** The sort key: the number (None stands for the infinite key of a name without digits), then 0 or 1. */
  datatype Key = Key(num: Option<int>, kind: int)

  function SortKey(b: BatchId): Key {
    match b
    case Step(n) => Key(Some(n), 0)
    case Named(name) =>
      var digits := LeadingDigits(name);
      Key(if digits == [] then None else Some(Number(digits)), 1)
  }

  predicate KeyBefore(a: Key, b: Key) {
    if a.num == b.num then a.kind < b.kind
    else a.num.Some? && (b.num.None? || a.num.value < b.num.value)
  }

  /** b1 must be served strictly before b2. */
  predicate Before(b1: BatchId, b2: BatchId) {
    KeyBefore(SortKey(b1), SortKey(b2))
  }

  function EvalBatchId(step: nat, taskset: string): BatchId {
    Named(Decimal.Decimal(step) + "/" + taskset)
  }

  /** The keys form a strict weak order, so sorting by them is meaningful and ties are interchangeable. */
  lemma BeforeIsStrictWeakOrder(a: BatchId, b: BatchId, c: BatchId)
    ensures !Before(a, a)
    ensures Before(a, b) && Before(b, c) ==> Before(a, c)
    ensures Before(a, c) ==> Before(a, b) || Before(b, c)
  {
  }

  /** An eval batch of step n is served after the train batch n and before the train batch n + 1. */
  lemma EvalBatchesFollowTheirStep(n: nat, taskset: string, m: int)
    ensures Before(Step(m), EvalBatchId(n, taskset)) <==> m <= n
    ensures Before(EvalBatchId(n, taskset), Step(m)) <==> n < m
  {
    var rest := "/" + taskset;
    LeadingDigitsOf(Decimal.Decimal(n), rest);
    NumberOfDecimal(n);
    assert Decimal.Decimal(n) + "/" + taskset == Decimal.Decimal(n) + rest;
  }

  ghost predicate SortedIds(ids: seq<BatchId>) {
    forall i, j :: 0 <= i < j < |ids| ==> !Before(ids[j], ids[i])
  }

  /** sorted(keys, key=sort_batch_id): every key once, no key behind one it must precede. */
  method SortBatchIds(keys: set<BatchId>) returns (ids: seq<BatchId>)
    ensures NoDup(ids) && Elements(ids) == keys
    ensures SortedIds(ids)
  {
    ids := [];
    var rest := keys;
    while rest != {}
      invariant NoDup(ids) && SortedIds(ids)
      invariant rest !! Elements(ids) && rest + Elements(ids) == keys
      invariant forall i, b :: 0 <= i < |ids| && b in rest ==> !Before(b, ids[i])
      decreases rest
    {
      var least := FirstOf(rest);
      assert Elements(ids + [least]) == Elements(ids) + {least};
      ids := ids + [least];
      rest := rest - {least};
    }
  }

  /** Some key that no other key must precede. */
  method FirstOf(keys: set<BatchId>) returns (least: BatchId)
    requires keys != {}
    ensures least in keys && forall b :: b in keys ==> !Before(b, least)
  {
    least :| least in keys;
    var rest := keys - {least};
    while rest != {}
      invariant rest <= keys && least in keys
      invariant forall b :: b in keys - rest ==> !Before(b, least)
      decreases rest
    {
      var b :| b in rest;
      if Before(b, least) {
        forall c | c in keys - rest ensures !Before(c, b) {
          BeforeIsStrictWeakOrder(c, b, least);
        }
        least := b;
      }
      rest := rest - {b};
    }
  }
}
