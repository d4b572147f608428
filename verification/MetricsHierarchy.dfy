/** Aggregating the aggregates of groups against aggregating everything at once. */
module MetricsHierarchy {
  import opened Common
  import opened Metrics

  /** The numbers recorded under a canonical key, in order. */
  function Values(items: Dict, key: string): seq<real> {
    if items == [] then []
    else
      var item, before := items[|items| - 1], Values(items[..|items| - 1], key);
      if item.1.Number? && Canonical(item.0) == key then before + [item.1.v] else before
  }

  predicate AllStable(items: Dict) {
    forall i :: 0 <= i < |items| ==> Stable(items[i].0)
  }

  lemma {:induction false} FindAppended(gs: seq<Group>, key: string, agg: AggType, v: real, k: string)
    ensures Find(Append(gs, key, agg, v), k)
         == if k != key then Find(gs, k)
            else if Find(gs, k).Some? then Some(Find(gs, k).value.(values := Find(gs, k).value.values + [v]))
            else Some(Group(key, agg, [v]))
  {
    if gs != [] && gs[0].key != key { FindAppended(gs[1..], key, agg, v, k); }
  }

  /** A key's group holds exactly its values and the type its name spells. */
  lemma {:induction false} GroupFor(items: Dict, key: string)
    requires AllStable(items)
    ensures Find(Grouped(items), key)
         == if Values(items, key) == [] then None else Some(Group(key, ParseMetricKey(key).1, Values(items, key)))
  {
    if items != [] {
      var n := |items| - 1;
      var item := items[n];
      GroupFor(items[..n], key);
      assert Stable(item.0) && Canonical(item.0) == key ==> ParseMetricKey(key) == ParseMetricKey(item.0);
      if item.1.Number? {
        FindAppended(Grouped(items[..n]), Canonical(item.0), ParseMetricKey(item.0).1, item.1.v, key);
        assert [] + [item.1.v] == [item.1.v];
      }
    }
  }

  lemma {:induction false} GroupKeys(items: Dict, i: nat)
    requires AllStable(items) && i < |Grouped(items)|
    ensures Canonical(Grouped(items)[i].key) == Grouped(items)[i].key && Stable(Grouped(items)[i].key)
  {
    var n := |items| - 1;
    var item, gs := items[n], Grouped(items[..n]);
    assert Stable(item.0);
    StableIff(item.0);
    StableIff(Canonical(item.0));
    if item.1.Number? {
      AppendKeys(gs, Canonical(item.0), ParseMetricKey(item.0).1, item.1.v, i);
    }
    if j: nat :| j < |gs| && gs[j].key == Grouped(items)[i].key { GroupKeys(items[..n], j); }
  }

  /** One result a key: what aggregation leaves, seen as the input of another aggregation. */
  lemma {:induction false} ValuesOfResults(d: Dict, gs: seq<Group>, key: string)
    requires |d| == |gs| && GroupsOk(gs)
    requires forall i :: 0 <= i < |gs| ==>
        d[i] == (gs[i].key, Number(Reduce(gs[i].agg, gs[i].values))) && Canonical(gs[i].key) == gs[i].key
    ensures Values(d, key)
         == match Find(gs, key) case None => [] case Some(g) => if g.values == [] then [] else [Reduce(g.agg, g.values)]
  {
    if gs != [] {
      var n := |gs| - 1;
      ValuesOfResults(d[..n], gs[..n], key);
      LastFound(gs, key);
      FindValues(gs, key);
    }
  }

  /** A key's group is the last one or among the others, never both. */
  lemma LastFound(gs: seq<Group>, key: string)
    requires GroupsOk(gs) && gs != []
    ensures var n := |gs| - 1;
            if gs[n].key == key then Find(gs, key) == Some(gs[n]) && Find(gs[..n], key) == None
            else Find(gs, key) == Find(gs[..n], key)
  {
    var n := |gs| - 1;
    FindSnoc(gs[..n], gs[n], key);
    assert gs == gs[..n] + [gs[n]];
    if gs[n].key == key { FindAbsent(gs[..n], key); }
  }

  lemma {:induction false} FindSnoc(gs: seq<Group>, g: Group, key: string)
    ensures Find(gs + [g], key) == if Find(gs, key).Some? then Find(gs, key) else if g.key == key then Some(g) else None
  {
    if gs != [] {
      assert (gs + [g])[1..] == gs[1..] + [g];
      FindSnoc(gs[1..], g, key);
    }
  }

  lemma {:induction false} FindAbsent(gs: seq<Group>, key: string)
    requires forall i :: 0 <= i < |gs| ==> gs[i].key != key
    ensures Find(gs, key) == None
  {
    if gs != [] { FindAbsent(gs[1..], key); }
  }

  lemma {:induction false} FindValues(gs: seq<Group>, key: string)
    requires GroupsOk(gs)
    ensures Find(gs, key).Some? ==> Find(gs, key).value.values != []
  {
    if gs != [] { FindValues(gs[1..], key); }
  }

  lemma AggregatedValues(items: Dict, key: string)
    requires AllStable(items)
    ensures AllStable(Aggregated(items))
    ensures Values(Aggregated(items), key)
         == if Values(items, key) == [] then [] else [Reduce(ParseMetricKey(key).1, Values(items, key))]
  {
    GroupedOk(items);
    forall i | 0 <= i < |Grouped(items)|
      ensures Canonical(Grouped(items)[i].key) == Grouped(items)[i].key && Stable(Grouped(items)[i].key)
    {
      GroupKeys(items, i);
    }
    ValuesOfResults(Aggregated(items), Grouped(items), key);
    GroupFor(items, key);
  }

  // ---- reducing in two steps ----------------------------------------------------------------

  function Combine(agg: AggType, a: real, b: real): real {
    match agg
    case MEAN => a
    case SUM => a + b
    case MAX => Max(a, b)
    case MIN => Min(a, b)
    case LAST => b
  }

  lemma {:induction false} ReduceConcat(agg: AggType, xs: seq<real>, ys: seq<real>)
    requires agg != MEAN && xs != [] && ys != []
    ensures Reduce(agg, xs + ys) == Combine(agg, Reduce(agg, xs), Reduce(agg, ys))
  {
    var n := |ys| - 1;
    assert (xs + ys)[..|xs + ys| - 1] == xs + ys[..n];
    if n == 0 {
      assert xs + ys[..n] == xs;
      assert agg == SUM ==> Sum(ys) == Sum([]) + ys[0];
    } else {
      ReduceConcat(agg, xs, ys[..n]);
    }
  }

  /** What a second aggregation sees of all groups. */
  function Summaries(groups: seq<Dict>): (r: seq<Dict>)
    ensures |r| == |groups|
  {
    seq(|groups|, i requires 0 <= i < |groups| => Aggregated(groups[i]))
  }

  lemma {:induction false} ValuesConcat(a: Dict, b: Dict, key: string)
    ensures Values(a + b, key) == Values(a, key) + Values(b, key)
  {
    if b == [] {
      assert a + b == a;
    } else {
      var n := |b| - 1;
      assert (a + b)[..|a + b| - 1] == a + b[..n];
      ValuesConcat(a, b[..n], key);
    }
  }

  ghost predicate GroupsStable(groups: seq<Dict>) {
    forall i :: 0 <= i < |groups| ==> AllStable(groups[i])
  }

  lemma {:induction false} FlattenStable(groups: seq<Dict>)
    requires GroupsStable(groups)
    ensures AllStable(Flatten(groups))
  {
    if groups != [] { FlattenStable(groups[1..]); }
  }

  lemma SummariesStable(groups: seq<Dict>)
    requires GroupsStable(groups)
    ensures GroupsStable(Summaries(groups))
  {
    forall i | 0 <= i < |groups| ensures AllStable(Summaries(groups)[i]) { AggregatedValues(groups[i], ""); }
  }

  /** Splitting off the last group, on both levels. */
  lemma SplitLast(groups: seq<Dict>, key: string)
    requires GroupsStable(groups) && groups != []
    ensures var n := |groups| - 1;
            && Values(Flatten(groups), key) == Values(Flatten(groups[..n]), key) + Values(groups[n], key)
            && Values(Flatten(Summaries(groups)), key)
               == Values(Flatten(Summaries(groups[..n])), key) + Values(Aggregated(groups[n]), key)
  {
    var n := |groups| - 1;
    assert groups == groups[..n] + [groups[n]];
    assert Summaries(groups) == Summaries(groups[..n]) + [Aggregated(groups[n])];
    FlattenSnoc(groups[..n], groups[n]);
    FlattenSnoc(Summaries(groups[..n]), Aggregated(groups[n]));
    ValuesConcat(Flatten(groups[..n]), groups[n], key);
    ValuesConcat(Flatten(Summaries(groups[..n])), Aggregated(groups[n]), key);
  }

  lemma {:induction false} SamePresence(groups: seq<Dict>, key: string)
    requires GroupsStable(groups)
    ensures Values(Flatten(Summaries(groups)), key) == [] <==> Values(Flatten(groups), key) == []
  {
    if groups != [] {
      SamePresence(groups[..|groups| - 1], key);
      SplitLast(groups, key);
      AggregatedValues(groups[|groups| - 1], key);
    } else {
      assert Summaries(groups) == [];
    }
  }

  lemma {:induction false} SameReduction(groups: seq<Dict>, key: string)
    requires GroupsStable(groups) && ParseMetricKey(key).1 != MEAN && Values(Flatten(groups), key) != []
    ensures Values(Flatten(Summaries(groups)), key) != []
    ensures Reduce(ParseMetricKey(key).1, Values(Flatten(Summaries(groups)), key))
         == Reduce(ParseMetricKey(key).1, Values(Flatten(groups), key))
  {
    SamePresence(groups, key);
    if groups != [] {
      var agg, n := ParseMetricKey(key).1, |groups| - 1;
      SplitLast(groups, key);
      AggregatedValues(groups[n], key);
      SamePresence(groups[..n], key);
      var before, last := Values(Flatten(groups[..n]), key), Values(groups[n], key);
      var before2, last2 := Values(Flatten(Summaries(groups[..n])), key), Values(Aggregated(groups[n]), key);
      assert last2 != [] ==> Reduce(agg, last2) == last2[0] by {
        if last2 != [] { ReduceOne(agg, last2[0]); }
      }
      if before == [] {
        assert before2 == [] && before + last == last && before2 + last2 == last2;
      } else {
        SameReduction(groups[..n], key);
        if last == [] {
          assert before + last == before && before2 + last2 == before2;
        } else {
          ReduceConcat(agg, before, last);
          ReduceConcat(agg, before2, last2);
        }
      }
    }
  }

  lemma ReduceOne(agg: AggType, v: real)
    ensures Reduce(agg, [v]) == v
  {
    assert Sum([v]) == Sum([]) + v;
  }

  /**
   SUM, MAX, MIN and LAST come out the same whether groups are aggregated first or everything at once;
   both ways report the same keys.
   */
  lemma HierarchicalEqualsFlat(groups: seq<Dict>, key: string)
    requires GroupsStable(groups)
    ensures var flat, hierarchical := Aggregated(Flatten(groups)), Aggregated(Flatten(Summaries(groups)));
            && (Values(flat, key) == [] <==> Values(hierarchical, key) == [])
            && (ParseMetricKey(key).1 != MEAN ==> Values(flat, key) == Values(hierarchical, key))
  {
    FlattenStable(groups);
    SummariesStable(groups);
    FlattenStable(Summaries(groups));
    AggregatedValues(Flatten(groups), key);
    AggregatedValues(Flatten(Summaries(groups)), key);
    SamePresence(groups, key);
    if ParseMetricKey(key).1 != MEAN && Values(Flatten(groups), key) != [] { SameReduction(groups, key); }
  }

  // ---- means --------------------------------------------------------------------------------

  ghost predicate Within(vs: seq<real>, lo: real, hi: real) {
    forall i :: 0 <= i < |vs| ==> lo <= vs[i] <= hi
  }

  lemma {:induction false} SumWithin(vs: seq<real>, lo: real, hi: real)
    requires Within(vs, lo, hi)
    ensures lo * (|vs| as real) <= Sum(vs) <= hi * (|vs| as real)
  {
    if vs != [] {
      var n := |vs| - 1;
      SumWithin(vs[..n], lo, hi);
      assert lo * (n as real) + lo == lo * ((n + 1) as real) && hi * (n as real) + hi == hi * ((n + 1) as real);
    }
  }

  lemma MeanWithin(vs: seq<real>, lo: real, hi: real)
    requires vs != [] && Within(vs, lo, hi)
    ensures lo <= Reduce(MEAN, vs) <= hi
  {
    SumWithin(vs, lo, hi);
    QuotientWithin(Sum(vs), |vs| as real, lo, hi);
  }

  lemma QuotientWithin(s: real, n: real, lo: real, hi: real)
    requires n > 0.0 && lo * n <= s <= hi * n
    ensures lo <= s / n <= hi
  {
    Cancel(lo, s / n, n);
    Cancel(s / n, hi, n);
  }

  lemma Cancel(a: real, b: real, n: real)
    requires n > 0.0
    ensures a * n <= b * n ==> a <= b
  {
    assert b * n - a * n == (b - a) * n;
  }

  lemma {:induction false} BetweenExtremes(vs: seq<real>)
    requires vs != []
    ensures Within(vs, MinOf(vs), MaxOf(vs))
  {
    if |vs| > 1 { BetweenExtremes(vs[..|vs| - 1]); }
  }

  /** A mean lies between the smallest and the largest value. */
  lemma MeanBetweenExtremes(vs: seq<real>)
    requires vs != []
    ensures MinOf(vs) <= Reduce(MEAN, vs) <= MaxOf(vs)
  {
    BetweenExtremes(vs);
    MeanWithin(vs, MinOf(vs), MaxOf(vs));
  }

  lemma WithinConcat(a: seq<real>, b: seq<real>, lo: real, hi: real)
    ensures Within(a + b, lo, hi) <==> Within(a, lo, hi) && Within(b, lo, hi)
  {
    assert forall i :: 0 <= i < |a| ==> a[i] == (a + b)[i];
    assert forall i :: 0 <= i < |b| ==> b[i] == (a + b)[|a| + i];
  }

  /** One more group: its values stay between the bounds, and so does what is appended for it. */
  lemma GroupWithin(before: seq<real>, summaries: seq<real>, last: seq<real>, lo: real, hi: real)
    requires Within(before + last, lo, hi)
    ensures Within(before, lo, hi)
    ensures Within(summaries, lo, hi) ==> Within(summaries + if last == [] then [] else [Reduce(MEAN, last)], lo, hi)
  {
    WithinConcat(before, last, lo, hi);
    if last != [] { MeanWithin(last, lo, hi); }
  }

  lemma {:induction false} SummariesWithin(groups: seq<Dict>, key: string, lo: real, hi: real)
    requires GroupsStable(groups) && ParseMetricKey(key).1 == MEAN && Within(Values(Flatten(groups), key), lo, hi)
    ensures Within(Values(Flatten(Summaries(groups)), key), lo, hi)
  {
    if groups == [] {
      assert Summaries(groups) == [];
    } else {
      var n := |groups| - 1;
      SplitLast(groups, key);
      GroupWithin(Values(Flatten(groups[..n]), key), Values(Flatten(Summaries(groups[..n])), key),
                  Values(groups[n], key), lo, hi);
      SummariesWithin(groups[..n], key, lo, hi);
      AggregatedValues(groups[n], key);
    }
  }

  /** Means of means differ from the mean of everything, but stay between the same extremes. */
  lemma HierarchicalMeanBetweenExtremes(groups: seq<Dict>, key: string)
    requires GroupsStable(groups) && ParseMetricKey(key).1 == MEAN && Values(Flatten(groups), key) != []
    ensures var vs, hierarchical := Values(Flatten(groups), key), Values(Aggregated(Flatten(Summaries(groups))), key);
            |hierarchical| == 1 && MinOf(vs) <= hierarchical[0] <= MaxOf(vs)
  {
    var vs := Values(Flatten(groups), key);
    BetweenExtremes(vs);
    SummariesWithin(groups, key, MinOf(vs), MaxOf(vs));
    SummariesStable(groups);
    FlattenStable(Summaries(groups));
    AggregatedValues(Flatten(Summaries(groups)), key);
    SamePresence(groups, key);
    MeanWithin(Values(Flatten(Summaries(groups)), key), MinOf(vs), MaxOf(vs));
  }

  // ---- where two levels go wrong ------------------------------------------------------------

  /** Two runs that report one number each under a key, aggregated at once. */
  function AtOnce(key: string, a: real, b: real): Dict {
    Aggregated([(key, Number(a)), (key, Number(b))])
  }

  /** The same two runs, aggregated run by run first. */
  function RunByRun(key: string, a: real, b: real): Dict {
    Aggregated(Aggregated([(key, Number(a))]) + Aggregated([(key, Number(b))]))
  }

  lemma AggregateOne(key: string, a: real)
    ensures Aggregated([(key, Number(a))]) == [(Canonical(key), Number(a))]
  {
    var items := [(key, Number(a))];
    assert items[..0] == [] && Grouped([]) == [];
    assert Grouped(items) == [Group(Canonical(key), ParseMetricKey(key).1, [a])];
    ReduceOne(ParseMetricKey(key).1, a);
  }

  lemma AggregateTwo(key: string, a: real, b: real)
    ensures AtOnce(key, a, b) == [(Canonical(key), Number(Reduce(ParseMetricKey(key).1, [a, b])))]
  {
    var items := [(key, Number(a)), (key, Number(b))];
    assert items[..1] == [(key, Number(a))] && [(key, Number(a))][..0] == [];
    assert Grouped([(key, Number(a))]) == [Group(Canonical(key), ParseMetricKey(key).1, [a])];
    assert [a] + [b] == [a, b];
    assert Grouped(items) == [Group(Canonical(key), ParseMetricKey(key).1, [a, b])];
  }

  lemma TwoValues(agg: AggType)
    ensures agg != MEAN ==> Reduce(agg, [2.0, 4.0]) != 3.0
    ensures Reduce(MEAN, [2.0, 4.0]) == 3.0
  {
    var vs := [2.0, 4.0];
    assert vs[..1] == [2.0] && [2.0][..0] == [];
    assert Sum([2.0]) == 2.0;
    assert Sum(vs) == 6.0;
    assert MaxOf(vs) == 4.0 && MinOf(vs) == 2.0;
  }

  /** Two single runs come out the same on both ways, whatever they report, exactly when the key is stable. */
  lemma RunByRunAgreesIff(key: string)
    ensures (forall a, b :: RunByRun(key, a, b) == AtOnce(key, a, b)) <==> Stable(key)
  {
    StableIff(key);
    var name := Canonical(key);
    forall a, b
      ensures RunByRun(key, a, b) == [(Canonical(name), Number(Reduce(ParseMetricKey(name).1, [a, b])))]
      ensures AtOnce(key, a, b) == [(name, Number(Reduce(ParseMetricKey(key).1, [a, b])))]
    {
      AggregateOne(key, a);
      AggregateOne(key, b);
      AggregateTwo(name, a, b);
      AggregateTwo(key, a, b);
      assert [(name, Number(a))] + [(name, Number(b))] == [(name, Number(a)), (name, Number(b))];
    }
    if !Stable(key) {
      UnstableShape(key);
      TwoValues(ParseMetricKey(name).1);
      assert RunByRun(key, 2.0, 4.0) != AtOnce(key, 2.0, 4.0);
    }
  }
}
