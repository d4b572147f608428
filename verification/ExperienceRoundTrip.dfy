/** Deserializing what was serialized. */
module ExperienceRoundTrip {
  import opened Common
  import opened ExperienceModel
  import opened ExperiencePayload

  function Get(table: map<string, Tensor>, s: Slot): Option<Tensor> {
    if Key(s) in table then Some(table[Key(s)]) else None
  }

  /** The last value under a key. */
  function Lookup(inputs: seq<(string, Tensor)>, key: string): Option<Tensor> {
    if inputs == [] then None
    else if inputs[|inputs| - 1].0 == key then Some(inputs[|inputs| - 1].1)
    else Lookup(inputs[..|inputs| - 1], key)
  }

  /** What the table should hold for a slot of one experience. */
  function Wanted<V>(a: Fields<V>, s: Slot): Option<Tensor> {
    match s
    case FieldSlot(_, f) => if f in a.tensors then Some(a.tensors[f]) else None
    case InputSlot(_, key) => if a.inputs.Some? then Lookup(a.inputs.value, key) else None
  }

  lemma PutAt(table: map<string, Tensor>, t: Slot, v: Tensor, s: Slot)
    ensures Get(table[Key(t) := v], s) == if s == t then Some(v) else Get(table, s)
  {
    if Key(s) == Key(t) { KeysInjective(s, t); }
  }

  lemma {:induction false} PutFieldsAt<V>(table: map<string, Tensor>, index: nat, a: Fields<V>, k: nat, s: Slot)
    requires k <= |TENSOR_FIELDS|
    ensures Get(PutFields(table, index, a, k), s)
         == if s.FieldSlot? && s.index == index && s.field in TENSOR_FIELDS[..k] && s.field in a.tensors
            then Some(a.tensors[s.field]) else Get(table, s)
  {
    if k > 0 {
      PutFieldsAt(table, index, a, k - 1, s);
      var f := TENSOR_FIELDS[k - 1];
      assert TENSOR_FIELDS[..k] == TENSOR_FIELDS[..k - 1] + [f];
      if f in a.tensors {
        PutAt(PutFields(table, index, a, k - 1), FieldSlot(index, f), a.tensors[f], s);
      }
    }
  }

  lemma LookupNext(inputs: seq<(string, Tensor)>, k: nat, key: string)
    requires 0 < k <= |inputs|
    ensures Lookup(inputs[..k], key)
         == if inputs[k - 1].0 == key then Some(inputs[k - 1].1) else Lookup(inputs[..k - 1], key)
  {
    assert inputs[..k][..k - 1] == inputs[..k - 1];
  }

  lemma {:induction false} PutInputsAt(table: map<string, Tensor>, index: nat, inputs: seq<(string, Tensor)>, k: nat,
                                       s: Slot)
    requires k <= |inputs|
    ensures Get(PutInputs(table, index, inputs, k), s)
         == if s.InputSlot? && s.index == index && Lookup(inputs[..k], s.input).Some?
            then Lookup(inputs[..k], s.input) else Get(table, s)
  {
    if k > 0 {
      PutInputsAt(table, index, inputs, k - 1, s);
      PutAt(PutInputs(table, index, inputs, k - 1), InputSlot(index, inputs[k - 1].0), inputs[k - 1].1, s);
      if s.InputSlot? { LookupNext(inputs, k, s.input); }
    }
  }

  lemma AllFields(f: TensorField)
    ensures f in TENSOR_FIELDS
  {
    assert TENSOR_FIELDS[0] == Tokens && TENSOR_FIELDS[1] == Logprobs && TENSOR_FIELDS[2] == TokenLevelReward;
    assert TENSOR_FIELDS[3] == Advantages && TENSOR_FIELDS[4] == Returns && TENSOR_FIELDS[5] == ActionMask;
    assert TENSOR_FIELDS[6] == Chosen && TENSOR_FIELDS[7] == Rejected && TENSOR_FIELDS[8] == TeacherLogprobs;
    assert TENSOR_FIELDS[9] == RoutedExperts;
  }

  /** Writing one experience sets exactly its own slots. */
  lemma PutOneAt<V>(table: map<string, Tensor>, index: nat, a: Fields<V>, s: Slot)
    requires s.index == index ==> Get(table, s) == None
    ensures Get(PutOne(table, index, a), s) == if s.index == index then Wanted(a, s) else Get(table, s)
  {
    var n := |TENSOR_FIELDS|;
    PutFieldsAt(table, index, a, n, s);
    assert TENSOR_FIELDS[..n] == TENSOR_FIELDS;
    if s.FieldSlot? { AllFields(s.field); }
    if a.inputs.Some? {
      var inputs := a.inputs.value;
      PutInputsAt(PutFields(table, index, a, n), index, inputs, |inputs|, s);
      assert inputs[..|inputs|] == inputs;
    }
  }

  /** The table holds, slot by slot, what the experiences hold. */
  lemma {:induction false} TableAt<V>(xs: seq<Experience<V>>, s: Slot)
    ensures Get(Table(xs), s) == if s.index < |xs| then Wanted(xs[s.index].fields, s) else None
  {
    if xs != [] {
      TableAt(xs[..|xs| - 1], s);
      PutOneAt(Table(xs[..|xs| - 1]), |xs| - 1, xs[|xs| - 1].fields, s);
    }
  }

  // ---- reading back -------------------------------------------------------------------------

  predicate DistinctKeys(inputs: seq<(string, Tensor)>) {
    forall i, j :: 0 <= i < j < |inputs| ==> inputs[i].0 != inputs[j].0
  }

  /** What pickling and Python guarantee of an experience: a dict has distinct keys, a dtype name has no dot. */
  predicate Sane<V>(a: Fields<V>) {
    && (a.inputs.Some? ==> DistinctKeys(a.inputs.value))
    && PlainDtypes(a.custom)
  }

  lemma {:induction false} LookupDistinct(inputs: seq<(string, Tensor)>, i: nat)
    requires DistinctKeys(inputs) && i < |inputs|
    ensures Lookup(inputs, inputs[i].0) == Some(inputs[i].1)
  {
    var n := |inputs| - 1;
    if i < n {
      assert inputs[i].0 != inputs[n].0;
      LookupDistinct(inputs[..n], i);
    }
  }

  lemma GetInputsBack(table: map<string, Tensor>, index: nat, inputs: seq<(string, Tensor)>)
    requires forall j :: 0 <= j < |inputs| ==> Get(table, InputSlot(index, inputs[j].0)) == Some(inputs[j].1)
    ensures GetInputs(table, index, InputKeys(Some(inputs))) == Ok(inputs)
  {
    var keys := InputKeys(Some(inputs));
    var rs := seq(|keys|, i requires 0 <= i < |keys| => GetInput(table, index, keys[i]));
    forall j | 0 <= j < |rs| ensures rs[j] == Ok(inputs[j]) {
      assert Get(table, InputSlot(index, inputs[j].0)) == Some(inputs[j].1);
    }
    CollectOk(rs, inputs);
  }

  /** The fields that come back: an empty dict of multi-modal inputs is read back as none. */
  function Returned<V>(a: Fields<V>): Fields<V> {
    if a.inputs == Some([]) then a.(inputs := None) else a
  }

  lemma FieldsBack<V>(xs: seq<Experience<V>>, i: nat)
    requires i < |xs|
    ensures GetFields(Table(xs), i) == xs[i].fields.tensors
  {
    var got, want := GetFields(Table(xs), i), xs[i].fields.tensors;
    forall f: TensorField ensures (f in got <==> f in want) && (f in want ==> got[f] == want[f]) {
      AllFields(f);
      TableAt(xs, FieldSlot(i, f));
    }
  }

  lemma InputsBack<V>(xs: seq<Experience<V>>, i: nat)
    requires i < |xs| && Sane(xs[i].fields)
    ensures var a := xs[i].fields;
            GetInputs(Table(xs), i, InputKeys(a.inputs)) == Ok(if a.inputs.Some? then a.inputs.value else [])
  {
    var a := xs[i].fields;
    if a.inputs.Some? {
      var inputs := a.inputs.value;
      forall j | 0 <= j < |inputs| ensures Get(Table(xs), InputSlot(i, inputs[j].0)) == Some(inputs[j].1) {
        TableAt(xs, InputSlot(i, inputs[j].0));
        LookupDistinct(inputs, j);
      }
      GetInputsBack(Table(xs), i, inputs);
    }
  }

  lemma RestoreBack<V>(xs: seq<Experience<V>>, i: nat)
    requires i < |xs| && Sane(xs[i].fields)
    ensures ExperiencePayload.Restore(Table(xs), i, ItemOf(xs[i].fields)) == Construct(Returned(xs[i].fields))
  {
    var a := xs[i].fields;
    FieldsBack(xs, i);
    InputsBack(xs, i);
    CustomRoundTrip(a.custom);
  }

  /** Experiences whose constructor would leave them alone come back with this kind. */
  function Back<V>(x: Experience<V>): Experience<V> {
    Experience(Returned(x.fields), KindOf(x.fields))
  }

  predicate Storable<V>(x: Experience<V>) {
    Settled(x.fields) && Sane(x.fields)
  }

  lemma ConstructBack<V>(x: Experience<V>)
    requires Storable(x)
    ensures Construct(Returned(x.fields)) == Ok(Back(x))
  {
    ConstructKeepsIff(Returned(x.fields));
  }

  function BackAll<V>(xs: seq<Experience<V>>): (r: seq<Experience<V>>)
    ensures |r| == |xs| && forall i :: 0 <= i < |xs| ==> r[i] == Back(xs[i])
  {
    seq(|xs|, i requires 0 <= i < |xs| => Back(xs[i]))
  }

  lemma RestoredAt<V>(xs: seq<Experience<V>>, i: nat)
    requires i < |xs| && Storable(xs[i])
    ensures ExperiencePayload.Restore(Table(xs), i, Items(xs)[i]) == Ok(BackAll(xs)[i])
  {
    RestoreBack(xs, i);
    ConstructBack(xs[i]);
  }

  lemma RestoreAllBack<V>(xs: seq<Experience<V>>)
    requires forall i :: 0 <= i < |xs| ==> Storable(xs[i])
    ensures RestoreAll(Table(xs), Items(xs)) == Ok(BackAll(xs))
  {
    var rs := seq(|xs|, i requires 0 <= i < |xs| => ExperiencePayload.Restore(Table(xs), i, Items(xs)[i]));
    forall i | 0 <= i < |xs| ensures rs[i] == Ok(BackAll(xs)[i]) {
      assert Storable(xs[i]);
      RestoredAt(xs, i);
    }
    CollectOk(rs, BackAll(xs));
    assert RestoreAll(Table(xs), Items(xs)) == Collect(rs);
  }

  /**
   deserialize_many undoes serialize_many: same number, same order, and every stored field of every
   experience, except that an empty dict of multi-modal inputs becomes None; the kind is worked out anew.
   */
  lemma RoundTrip<V(!new)>(c: Codec<V>, xs: seq<Experience<V>>)
    requires Inverse(c) && forall i :: 0 <= i < |xs| ==> Storable(xs[i])
    ensures match SerializeMany(c, xs)
            case Ok(data) => DeserializeMany(c, data) == Ok(BackAll(xs))
            case Err(e) => e == TooLong
  {
    var metadata, tensors := c.pickle(Metadata(VERSION, |xs|, Items(xs))), c.save(Table(xs));
    if Frame(metadata, tensors).Ok? {
      FrameRoundTrip(metadata, tensors);
      RestoreAllBack(xs);
      assert c.unpickle(metadata) == Some(Metadata(VERSION, |xs|, Items(xs)));
      assert c.load(tensors) == Some(Table(xs));
    }
  }

  /** One experience through serialize and deserialize; a batch of any other size is refused. */
  lemma SingleRoundTrip<V(!new)>(c: Codec<V>, xs: seq<Experience<V>>)
    requires Inverse(c) && forall i :: 0 <= i < |xs| ==> Storable(xs[i])
    ensures match SerializeMany(c, xs)
            case Ok(data) => DeserializeOne(c, data) == if |xs| == 1 then Ok(Back(xs[0])) else Err(NotSingle)
            case Err(e) => e == TooLong
  {
    RoundTrip(c, xs);
  }

  /**
   An experience as the constructor returned it comes back unchanged from a payload exactly when it is not
   single-turn and has no empty inputs dict.
   */
  lemma UnchangedIff<V(!new)>(c: Codec<V>, a: Fields<V>)
    requires Inverse(c) && Construct(a).Ok? && Sane(Construct(a).value.fields)
    requires SerializeMany(c, [Construct(a).value]).Ok?
    ensures var x := Construct(a).value;
            DeserializeMany(c, SerializeMany(c, [x]).value) == Ok([x]) <==>
                x.kind != SingleTurn && x.fields.inputs != Some([])
  {
    ConstructKeepsIff(a);
    BackIsSameIff(a);
    ComesBack(c, Construct(a).value);
  }

  lemma BackIsSameIff<V>(a: Fields<V>)
    requires Construct(a).Ok?
    ensures var x := Construct(a).value;
            Back(x) == x <==> x.kind != SingleTurn && x.fields.inputs != Some([])
  {
  }

  lemma ComesBack<V(!new)>(c: Codec<V>, x: Experience<V>)
    requires Inverse(c) && Storable(x) && SerializeMany(c, [x]).Ok?
    ensures DeserializeMany(c, SerializeMany(c, [x]).value) == Ok([Back(x)])
  {
    RoundTrip(c, [x]);
    assert BackAll([x]) == [Back(x)];
  }

  /** Its fields alone come back unchanged exactly when it has no empty inputs dict; nothing else makes a difference. */
  lemma FieldsUnchangedIff<V(!new)>(c: Codec<V>, x: Experience<V>)
    requires Inverse(c) && Storable(x) && SerializeMany(c, [x]).Ok?
    ensures var r := DeserializeMany(c, SerializeMany(c, [x]).value);
            && r.Ok? && |r.value| == 1
            && (r.value[0].fields == x.fields <==> x.fields.inputs != Some([]))
            && r.value[0].fields.(inputs := None) == x.fields.(inputs := None)
  {
    ComesBack(c, x);
  }
}
