/** serialize_many and deserialize_many with the loops that fill the tables. */
module ExperienceCodec {
  import opened Common
  import opened Bytes
  import opened ExperienceModel
  import opened ExperiencePayload

  method SerializeMany<V>(c: Codec<V>, experiences: seq<Experience<V>>) returns (r: Result<seq<Byte>, Error>)
    ensures r == ExperiencePayload.SerializeMany(c, experiences)
  {
    var items, tensorData := [], map[];
    for index := 0 to |experiences|
      invariant items == Items(experiences[..index]) && tensorData == Table(experiences[..index])
    {
      var a := experiences[index].fields;
      assert experiences[..index + 1][..index] == experiences[..index];
      tensorData := AddTensors(tensorData, index, a);
      items := items + [ItemOf(a)];
    }
    assert experiences[..|experiences|] == experiences;
    var metadataBytes := c.pickle(Metadata(VERSION, |experiences|, items));
    var tensorBytes := c.save(tensorData);
    return Frame(metadataBytes, tensorBytes);
  }

  method AddTensors<V>(table: map<string, Tensor>, index: nat, a: Fields<V>) returns (r: map<string, Tensor>)
    ensures r == PutOne(table, index, a)
  {
    r := table;
    for k := 0 to |TENSOR_FIELDS|
      invariant r == PutFields(table, index, a, k)
    {
      var f := TENSOR_FIELDS[k];
      if f in a.tensors {
        r := r[Key(FieldSlot(index, f)) := a.tensors[f]];
      }
    }
    if a.inputs.Some? {
      ghost var fields := r;
      for k := 0 to |a.inputs.value|
        invariant r == PutInputs(fields, index, a.inputs.value, k)
      {
        r := r[Key(InputSlot(index, a.inputs.value[k].0)) := a.inputs.value[k].1];
      }
    }
  }

  method DeserializeMany<V>(c: Codec<V>, data: seq<Byte>) returns (r: Result<seq<Experience<V>>, Error>)
    ensures r == ExperiencePayload.DeserializeMany(c, data)
  {
    if !(MAGIC <= data) { return Ok(c.legacy(data)); }
    var parts := Unframe(data);
    if parts.Err? { return Err(parts.error); }
    var metadata, tensorData := c.unpickle(parts.value.0), c.load(parts.value.1);
    if metadata.None? { return Err(BadMetadata); }
    if tensorData.None? { return Err(BadTensors); }
    r := RestoreItems(tensorData.value, metadata.value.items);
  }

  method RestoreItems<V>(table: map<string, Tensor>, items: seq<Item<V>>) returns (r: Result<seq<Experience<V>>, Error>)
    ensures r == RestoreAll(table, items)
  {
    ghost var rs := seq(|items|, i requires 0 <= i < |items| => ExperiencePayload.Restore(table, i, items[i]));
    var experiences := [];
    for index := 0 to |items|
      invariant Collect(rs[..index]) == Ok(experiences)
    {
      var x := RestoreItem(table, index, items[index]);
      CollectNext(rs, index);
      if x.Err? { return Err(x.error); }
      experiences := experiences + [x.value];
    }
    assert rs[..|items|] == rs;
    return Ok(experiences);
  }

  method RestoreFields(table: map<string, Tensor>, index: nat) returns (tensors: map<TensorField, Tensor>)
    ensures tensors == GetFields(table, index)
  {
    tensors := map[];
    for k := 0 to |TENSOR_FIELDS|
      invariant tensors == Stored(table, index, TENSOR_FIELDS[..k])
    {
      var f := TENSOR_FIELDS[k];
      assert TENSOR_FIELDS[..k + 1] == TENSOR_FIELDS[..k] + [f];
      StoredSnoc(table, index, TENSOR_FIELDS[..k], f);
      if Key(FieldSlot(index, f)) in table {
        tensors := tensors[f := table[Key(FieldSlot(index, f))]];
      }
    }
    assert TENSOR_FIELDS[..|TENSOR_FIELDS|] == TENSOR_FIELDS;
  }

  function Stored(table: map<string, Tensor>, index: nat, fs: seq<TensorField>): map<TensorField, Tensor> {
    map f | f in fs && Key(FieldSlot(index, f)) in table :: table[Key(FieldSlot(index, f))]
  }

  lemma StoredSnoc(table: map<string, Tensor>, index: nat, fs: seq<TensorField>, f: TensorField)
    ensures Stored(table, index, fs + [f])
         == if Key(FieldSlot(index, f)) in table then Stored(table, index, fs)[f := table[Key(FieldSlot(index, f))]]
            else Stored(table, index, fs)
  {
  }

  method RestoreInputs(table: map<string, Tensor>, index: nat, keys: seq<string>)
      returns (r: Result<seq<(string, Tensor)>, Error>)
    ensures r == GetInputs(table, index, keys)
  {
    ghost var rs := seq(|keys|, i requires 0 <= i < |keys| => GetInput(table, index, keys[i]));
    var inputs := [];
    for k := 0 to |keys|
      invariant Collect(rs[..k]) == Ok(inputs)
    {
      CollectNext(rs, k);
      if Key(InputSlot(index, keys[k])) !in table { return Err(MissingTensor); }
      inputs := inputs + [(keys[k], table[Key(InputSlot(index, keys[k]))])];
    }
    assert rs[..|keys|] == rs;
    return Ok(inputs);
  }

  method RestoreItem<V>(table: map<string, Tensor>, index: nat, item: Item<V>) returns (r: Result<Experience<V>, Error>)
    ensures r == ExperiencePayload.Restore(table, index, item)
  {
    var tensors := RestoreFields(table, index);
    var inputs := RestoreInputs(table, index, item.inputKeys);
    if inputs.Err? { return Err(inputs.error); }
    return Construct(Fields(item.eid, item.promptLength, item.plain, tensors,
                            if item.inputKeys == [] then None else Some(inputs.value), LoadCustom(item.custom)));
  }

  method Serialize<V>(c: Codec<V>, x: Experience<V>) returns (r: Result<seq<Byte>, Error>)
    ensures r == ExperiencePayload.SerializeMany(c, [x])
  {
    r := SerializeMany(c, [x]);
  }

  /** deserialize: a payload of any other number than one is an error. */
  method Deserialize<V>(c: Codec<V>, data: seq<Byte>) returns (r: Result<Experience<V>, Error>)
    ensures r == DeserializeOne(c, data)
  {
    var experiences := DeserializeMany(c, data);
    if experiences.Err? { return Err(experiences.error); }
    if |experiences.value| != 1 { return Err(NotSingle); }
    return Ok(experiences.value[0]);
  }
}
