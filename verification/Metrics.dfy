/** Metric keys with an aggregation suffix, grouping by canonical key, and aggregation in one or two levels. */
module Metrics {
  import opened Common

  datatype AggType = MEAN | SUM | MAX | MIN | LAST

  function AggName(a: AggType): string {
    match a
    case MEAN => "mean"
    case SUM => "sum"
    case MAX => "max"
    case MIN => "min"
    case LAST => "last"
  }

  function AggOf(s: string): Option<AggType> {
    if s == "mean" then Some(MEAN)
    else if s == "sum" then Some(SUM)
    else if s == "max" then Some(MAX)
    else if s == "min" then Some(MIN)
    else if s == "last" then Some(LAST)
    else None
  }

  /** Position of the last colon. */
  function LastColon(s: string): (i: Option<nat>)
    ensures i.Some? ==> i.value < |s| && s[i.value] == ':' && ':' !in s[i.value + 1..]
    ensures i.None? ==> ':' !in s
  {
    if s == "" then None
    else if s[|s| - 1] == ':' then Some(|s| - 1)
    else
      assert s == s[..|s| - 1] + [s[|s| - 1]];
      var i := LastColon(s[..|s| - 1]);
      assert i.Some? ==> s[i.value + 1..] == s[..|s| - 1][i.value + 1..] + [s[|s| - 1]];
      i
  }

  /** The name and the aggregation type; an unknown suffix belongs to the name. */
  function ParseMetricKey(key: string): (string, AggType) {
    match LastColon(key)
    case None => (key, MEAN)
    case Some(i) =>
      match AggOf(key[i + 1..])
      case Some(a) => (key[..i], a)
      case None => (key, MEAN)
  }

  function Canonical(key: string): string {
    var (name, agg) := ParseMetricKey(key);
    if agg != MEAN then name + ":" + AggName(agg) else name
  }

  lemma {:induction false} LastColonOf(name: string, suffix: string)
    requires ':' !in suffix
    ensures LastColon(name + ":" + suffix) == Some(|name|)
  {
    var s := name + ":" + suffix;
    if suffix == "" {
      assert s == name + ":";
    } else {
      LastColonOf(name, suffix[..|suffix| - 1]);
      assert s[..|s| - 1] == name + ":" + suffix[..|suffix| - 1];
      assert s[|s| - 1] == suffix[|suffix| - 1];
    }
  }

  lemma ParseSuffixed(name: string, a: AggType)
    ensures ParseMetricKey(name + ":" + AggName(a)) == (name, a)
  {
    LastColonOf(name, AggName(a));
    var s := name + ":" + AggName(a);
    assert s[|name| + 1..] == AggName(a) && s[..|name|] == name;
  }

  /** A name that does not itself end in an aggregation suffix. */
  predicate PlainName(name: string) {
    ParseMetricKey(name) == (name, MEAN)
  }

  /** Reading a canonical key again gives what the original key said. */
  predicate Stable(key: string) {
    ParseMetricKey(Canonical(key)) == ParseMetricKey(key)
  }

  /** Only a key whose name ends in a suffix of its own is read differently the second time. */
  lemma StableIff(key: string)
    ensures Stable(key) <==> ParseMetricKey(key).1 != MEAN || PlainName(ParseMetricKey(key).0)
    ensures Stable(key) ==> Canonical(Canonical(key)) == Canonical(key)
  {
    var (name, agg) := ParseMetricKey(key);
    if agg != MEAN { ParseSuffixed(name, agg); }
  }

  lemma SuffixedParts(key: string)
    requires ParseMetricKey(key) != (key, MEAN)
    ensures var (name, agg) := ParseMetricKey(key); key == name + ":" + AggName(agg)
  {
    var i := LastColon(key).value;
    assert key == key[..i] + [':'] + key[i + 1..];
  }

  /** Such a key spells out ":mean" behind a name that ends in a suffix. */
  lemma UnstableShape(key: string)
    requires !Stable(key)
    ensures var name := ParseMetricKey(key).0;
            && key == name + ":mean" && ParseMetricKey(name) != (name, MEAN)
            && name == ParseMetricKey(name).0 + ":" + AggName(ParseMetricKey(name).1)
  {
    StableIff(key);
    SuffixedParts(key);
    SuffixedParts(ParseMetricKey(key).0);
  }

  // ---- dictionaries and grouping ------------------------------------------------------------

  datatype Value = Number(v: real) | Other

  /** A dict in insertion order. */
  type Dict = seq<(string, Value)>

  datatype Group = Group(key: string, agg: AggType, values: seq<real>)

  /** grouped[canonical_key][1].append(v), creating the entry on first use. */
  function Append(gs: seq<Group>, key: string, agg: AggType, v: real): seq<Group> {
    if gs == [] then [Group(key, agg, [v])]
    else if gs[0].key == key then [gs[0].(values := gs[0].values + [v])] + gs[1..]
    else [gs[0]] + Append(gs[1..], key, agg, v)
  }

  function Add(gs: seq<Group>, item: (string, Value)): seq<Group> {
    if item.1.Other? then gs else Append(gs, Canonical(item.0), ParseMetricKey(item.0).1, item.1.v)
  }

  /** Grouping the items of all dictionaries, one after the other. */
  function Grouped(items: Dict): seq<Group> {
    if items == [] then [] else Add(Grouped(items[..|items| - 1]), items[|items| - 1])
  }

  function Sum(vs: seq<real>): real {
    if vs == [] then 0.0 else Sum(vs[..|vs| - 1]) + vs[|vs| - 1]
  }

  function Max(a: real, b: real): real { if a >= b then a else b }

  function Min(a: real, b: real): real { if a <= b then a else b }

  function MaxOf(vs: seq<real>): real
    requires vs != []
  {
    if |vs| == 1 then vs[0] else Max(MaxOf(vs[..|vs| - 1]), vs[|vs| - 1])
  }

  function MinOf(vs: seq<real>): real
    requires vs != []
  {
    if |vs| == 1 then vs[0] else Min(MinOf(vs[..|vs| - 1]), vs[|vs| - 1])
  }

  function Reduce(agg: AggType, vs: seq<real>): real
    requires vs != []
  {
    match agg
    case MEAN => Sum(vs) / (|vs| as real)
    case SUM => Sum(vs)
    case MAX => MaxOf(vs)
    case MIN => MinOf(vs)
    case LAST => vs[|vs| - 1]
  }

  lemma {:induction false} SumConcat(a: seq<real>, b: seq<real>)
    ensures Sum(a + b) == Sum(a) + Sum(b)
    decreases |b|
  {
    if b == [] {
      assert a + b == a;
    } else {
      var n := |b| - 1;
      assert (a + b)[..|a| + n] == a + b[..n] && (a + b)[|a| + n] == b[n];
      SumConcat(a, b[..n]);
    }
  }

  /** The largest number is one of them and none is larger; the smallest likewise. */
  lemma {:induction false} ExtremesAttained(vs: seq<real>)
    requires vs != []
    ensures MaxOf(vs) in vs && forall i :: 0 <= i < |vs| ==> vs[i] <= MaxOf(vs)
    ensures MinOf(vs) in vs && forall i :: 0 <= i < |vs| ==> MinOf(vs) <= vs[i]
  {
    var n := |vs| - 1;
    if n > 0 {
      ExtremesAttained(vs[..n]);
      assert forall i :: 0 <= i < n ==> vs[i] == vs[..n][i];
    }
  }

  lemma QuotientTimes(x: real, n: real)
    requires n > 0.0
    ensures x / n * n == x
  {
  }

  /** A sum has every number once. */
  lemma SumHasEach(a: seq<real>, v: real, b: seq<real>)
    ensures Reduce(SUM, a + [v] + b) == Sum(a) + v + Sum(b)
    ensures Sum([]) == 0.0
  {
    SumConcat(a + [v], b);
    SumConcat(a, [v]);
  }

  /** A mean times the number of numbers is their sum. */
  lemma MeanTimesCount(vs: seq<real>)
    requires vs != []
    ensures Reduce(MEAN, vs) * (|vs| as real) == Reduce(SUM, vs)
  {
    QuotientTimes(Sum(vs), |vs| as real);
  }

  /** The largest, the smallest and the last number are among the numbers, and are that. */
  lemma OneOfThem(vs: seq<real>, i: nat)
    requires i < |vs|
    ensures Reduce(MAX, vs) in vs && vs[i] <= Reduce(MAX, vs)
    ensures Reduce(MIN, vs) in vs && Reduce(MIN, vs) <= vs[i]
    ensures i == |vs| - 1 ==> Reduce(LAST, vs) == vs[i]
  {
    ExtremesAttained(vs);
  }

  ghost predicate GroupsOk(gs: seq<Group>) {
    && (forall i :: 0 <= i < |gs| ==> gs[i].values != [])
    && (forall i, j :: 0 <= i < j < |gs| ==> gs[i].key != gs[j].key)
  }

  lemma {:induction false} AppendOk(gs: seq<Group>, key: string, agg: AggType, v: real)
    requires GroupsOk(gs)
    ensures GroupsOk(Append(gs, key, agg, v))
  {
    if gs != [] && gs[0].key != key {
      AppendOk(gs[1..], key, agg, v);
      var rest := Append(gs[1..], key, agg, v);
      forall i: nat | i < |rest| ensures rest[i].key != gs[0].key {
        AppendKeys(gs[1..], key, agg, v, i);
      }
    }
  }

  /** Appending brings in no key but its own. */
  lemma {:induction false} AppendKeys(gs: seq<Group>, key: string, agg: AggType, v: real, i: nat)
    requires i < |Append(gs, key, agg, v)|
    ensures || Append(gs, key, agg, v)[i].key == key
            || exists j: nat :: j < |gs| && gs[j].key == Append(gs, key, agg, v)[i].key
  {
    if gs != [] {
      assert gs[0].key == Append(gs, key, agg, v)[0].key;
      if gs[0].key == key {
        assert i > 0 ==> gs[i].key == Append(gs, key, agg, v)[i].key;
      } else if i > 0 {
        AppendKeys(gs[1..], key, agg, v, i - 1);
        var rest := Append(gs[1..], key, agg, v);
        if j: nat :| j < |gs[1..]| && gs[1..][j].key == rest[i - 1].key { assert gs[j + 1].key == rest[i - 1].key; }
      }
    }
  }

  lemma {:induction false} GroupedOk(items: Dict)
    ensures GroupsOk(Grouped(items))
  {
    if items != [] {
      var n := |items| - 1;
      GroupedOk(items[..n]);
      if items[n].1.Number? {
        AppendOk(Grouped(items[..n]), Canonical(items[n].0), ParseMetricKey(items[n].0).1, items[n].1.v);
      }
    }
  }

  /** aggregate_run_level_metrics over the items of all dictionaries, in order. */
  function Aggregated(items: Dict): (r: Dict)
    ensures |r| == |Grouped(items)|
  {
    GroupedOk(items);
    var gs := Grouped(items);
    seq(|gs|, i requires 0 <= i < |gs| => (gs[i].key, Number(Reduce(gs[i].agg, gs[i].values))))
  }

  function Find(gs: seq<Group>, key: string): Option<Group> {
    if gs == [] then None else if gs[0].key == key then Some(gs[0]) else Find(gs[1..], key)
  }

  // ---- the loops ----------------------------------------------------------------------------

  /** The inner loop: one dictionary after the items already grouped. */
  method GroupOne(gs: seq<Group>, d: Dict, ghost before: Dict) returns (grouped: seq<Group>)
    requires gs == Grouped(before)
    ensures grouped == Grouped(before + d)
  {
    grouped := gs;
    assert before + d[..0] == before;
    for k := 0 to |d|
      invariant grouped == Grouped(before + d[..k])
    {
      var (key, value) := d[k];
      GroupedSnoc(before, d, k);
      if value.Number? {
        grouped := Append(grouped, Canonical(key), ParseMetricKey(key).1, value.v);
      }
    }
    assert d[..|d|] == d;
  }

  lemma GroupedSnoc(before: Dict, d: Dict, k: nat)
    requires k < |d|
    ensures Grouped(before + d[..k + 1]) == Add(Grouped(before + d[..k]), d[k])
  {
    var items := before + d[..k + 1];
    assert items[..|items| - 1] == before + d[..k];
  }

  method GroupMetricsByCanonicalKey(metricDicts: seq<Dict>) returns (grouped: seq<Group>)
    ensures grouped == Grouped(Flatten(metricDicts))
  {
    grouped := [];
    for i := 0 to |metricDicts|
      invariant grouped == Grouped(Flatten(metricDicts[..i]))
    {
      assert metricDicts[..i + 1] == metricDicts[..i] + [metricDicts[i]];
      FlattenSnoc(metricDicts[..i], metricDicts[i]);
      grouped := GroupOne(grouped, metricDicts[i], Flatten(metricDicts[..i]));
    }
    assert metricDicts[..|metricDicts|] == metricDicts;
  }

  method AggregateRunLevelMetrics(metricDicts: seq<Dict>) returns (result: Dict)
    ensures result == Aggregated(Flatten(metricDicts))
  {
    if metricDicts == [] { return []; }
    var grouped := GroupMetricsByCanonicalKey(metricDicts);
    ghost var all := Aggregated(Flatten(metricDicts));
    GroupedOk(Flatten(metricDicts));
    result := [];
    for i := 0 to |grouped|
      invariant result == all[..i]
    {
      result := result + [(grouped[i].key, Number(Reduce(grouped[i].agg, grouped[i].values)))];
    }
  }
}
