/** serialize_many and deserialize_many as functions, and the round trip between them. */
module ExperiencePayload {
  import opened Common
  import opened Bytes
  import opened ExperienceModel

  datatype Item<V> = Item(
    eid: Eid, promptLength: int, plain: Plain<V>, custom: seq<(string, string, string)>, inputKeys: seq<string>)

  datatype Metadata<V> = Metadata(version: nat, numItems: nat, items: seq<Item<V>>)

  /** pickle for metadata, safetensors for the tensor table, and whatever an old payload unpickles to. */
  datatype Codec<!V> = Codec(
    pickle: Metadata<V> -> seq<Byte>,
    unpickle: seq<Byte> -> Option<Metadata<V>>,
    save: map<string, Tensor> -> seq<Byte>,
    load: seq<Byte> -> Option<map<string, Tensor>>,
    legacy: seq<Byte> -> seq<Experience<V>>)

  ghost predicate Inverse<V(!new)>(c: Codec<V>) {
    && (forall m :: c.unpickle(c.pickle(m)) == Some(m))
    && (forall t :: c.load(c.save(t)) == Some(t))
  }

  const MAGIC: seq<Byte> := [0x54, 0x52, 0x58, 0x50]   // "TRXP"
  const VERSION: Byte := 1

  // ---- custom fields ------------------------------------------------------------------------

  function DumpCustom(fs: seq<CustomField>): seq<(string, string, string)> {
    seq(|fs|, i requires 0 <= i < |fs| => (fs[i].source, fs[i].destination, "torch." + fs[i].dtype))
  }

  /** s.replace("torch.", "") */
  function RemoveTorch(s: string): string {
    if |s| >= 6 && s[..6] == "torch." then RemoveTorch(s[6..])
    else if s == "" then ""
    else [s[0]] + RemoveTorch(s[1..])
  }

  function LoadCustom(fs: seq<(string, string, string)>): seq<CustomField> {
    seq(|fs|, i requires 0 <= i < |fs| => CustomField(fs[i].0, fs[i].1, RemoveTorch(fs[i].2)))
  }

  predicate PlainDtypes(fs: seq<CustomField>) {
    forall i :: 0 <= i < |fs| ==> '.' !in fs[i].dtype
  }

  lemma {:induction false} RemoveTorchPlain(s: string)
    requires '.' !in s
    ensures RemoveTorch(s) == s
  {
    if s != "" {
      assert |s| >= 6 ==> s[5] != '.';
      RemoveTorchPlain(s[1..]);
    }
  }

  lemma CustomRoundTrip(fs: seq<CustomField>)
    requires PlainDtypes(fs)
    ensures LoadCustom(DumpCustom(fs)) == fs
  {
    forall i | 0 <= i < |fs| ensures LoadCustom(DumpCustom(fs))[i] == fs[i] {
      RemoveTorchPlain(fs[i].dtype);
      assert ("torch." + fs[i].dtype)[6..] == fs[i].dtype;
    }
  }

  // ---- the tensor table ---------------------------------------------------------------------

  function InputKeys(inputs: Option<seq<(string, Tensor)>>): (keys: seq<string>)
    ensures inputs.Some? ==> |keys| == |inputs.value| && forall i :: 0 <= i < |keys| ==> keys[i] == inputs.value[i].0
    ensures inputs.None? ==> keys == []
  {
    match inputs
    case None => []
    case Some(kvs) => seq(|kvs|, i requires 0 <= i < |kvs| => kvs[i].0)
  }

  /** The table after the first k tensor fields of the experience at `index`. */
  function PutFields<V>(table: map<string, Tensor>, index: nat, a: Fields<V>, k: nat): map<string, Tensor>
    requires k <= |TENSOR_FIELDS|
  {
    if k == 0 then table
    else
      var f, before := TENSOR_FIELDS[k - 1], PutFields(table, index, a, k - 1);
      if f in a.tensors then before[Key(FieldSlot(index, f)) := a.tensors[f]] else before
  }

  /** The table after the first k multi-modal inputs. */
  function PutInputs(table: map<string, Tensor>, index: nat, inputs: seq<(string, Tensor)>, k: nat): map<string, Tensor>
    requires k <= |inputs|
  {
    if k == 0 then table
    else PutInputs(table, index, inputs, k - 1)[Key(InputSlot(index, inputs[k - 1].0)) := inputs[k - 1].1]
  }

  function PutOne<V>(table: map<string, Tensor>, index: nat, a: Fields<V>): map<string, Tensor> {
    var fields := PutFields(table, index, a, |TENSOR_FIELDS|);
    if a.inputs.Some? then PutInputs(fields, index, a.inputs.value, |a.inputs.value|) else fields
  }

  function Table<V>(xs: seq<Experience<V>>): map<string, Tensor> {
    if xs == [] then map[] else PutOne(Table(xs[..|xs| - 1]), |xs| - 1, xs[|xs| - 1].fields)
  }

  function ItemOf<V>(a: Fields<V>): Item<V> {
    Item(a.eid, a.promptLength, a.plain, DumpCustom(a.custom), InputKeys(a.inputs))
  }

  function Items<V>(xs: seq<Experience<V>>): seq<Item<V>> {
    seq(|xs|, i requires 0 <= i < |xs| => ItemOf(xs[i].fields))
  }

  // ---- the frame ----------------------------------------------------------------------------

  function Frame(metadata: seq<Byte>, tensors: seq<Byte>): Result<seq<Byte>, Error> {
    match (Pack64(|metadata|), Pack64(|tensors|))
    case (Some(m), Some(t)) => Ok(MAGIC + [VERSION] + m + t + metadata + tensors)
    case _ => Err(TooLong)
  }

  function SerializeMany<V>(c: Codec<V>, xs: seq<Experience<V>>): Result<seq<Byte>, Error> {
    Frame(c.pickle(Metadata(VERSION, |xs|, Items(xs))), c.save(Table(xs)))
  }

  /** Python's data[lo:hi]: both ends are cut back to the length. */
  function Clip(data: seq<Byte>, lo: nat, hi: nat): seq<Byte>
    requires lo <= hi
  {
    data[if lo <= |data| then lo else |data|..if hi <= |data| then hi else |data|]
  }

  /** The two parts of a new-style payload. */
  function Unframe(data: seq<Byte>): Result<(seq<Byte>, seq<Byte>), Error>
    requires MAGIC <= data
  {
    if |data| < 5 then Err(Truncated)
    else if data[4] != VERSION then Err(BadVersion)
    else if |data| < 21 then Err(Truncated)
    else
      var metadataLen, tensorLen := FromLittleEndian(data[5..13]), FromLittleEndian(data[13..21]);
      Ok((Clip(data, 21, 21 + metadataLen), Clip(data, 21 + metadataLen, 21 + metadataLen + tensorLen)))
  }

  lemma FrameRoundTrip(metadata: seq<Byte>, tensors: seq<Byte>)
    requires Frame(metadata, tensors).Ok?
    ensures MAGIC <= Frame(metadata, tensors).value
    ensures Unframe(Frame(metadata, tensors).value) == Ok((metadata, tensors))
  {
    UnpackPack64(|metadata|);
    UnpackPack64(|tensors|);
    var m, t := Pack64(|metadata|).value, Pack64(|tensors|).value;
    var data := MAGIC + [VERSION] + m + t + metadata + tensors;
    assert data[5..13] == m;
    assert data[13..21] == t;
    assert data[4] == VERSION && |data| == 21 + |metadata| + |tensors|;
    assert Clip(data, 21, 21 + |metadata|) == metadata;
    assert Clip(data, 21 + |metadata|, 21 + |metadata| + |tensors|) == tensors;
  }

  /** The two lengths a payload announces. */
  function MetadataLength(data: seq<Byte>): nat
    requires |data| >= 21
  {
    FromLittleEndian(data[5..13])
  }

  function TensorLength(data: seq<Byte>): nat
    requires |data| >= 21
  {
    FromLittleEndian(data[13..21])
  }

  /** A payload of the new style is taken apart exactly when it has a whole head of the version written. */
  lemma UnframeIff(data: seq<Byte>)
    requires MAGIC <= data
    ensures Unframe(data).Ok? <==> |data| >= 21 && data[4] == VERSION
    ensures Unframe(data) == Err(BadVersion) <==> |data| > 4 && data[4] != VERSION
  {
  }

  lemma PartsOf(data: seq<Byte>)
    requires MAGIC <= data && Unframe(data).Ok? && |data| == 21 + MetadataLength(data) + TensorLength(data)
    ensures var (metadata, tensors) := Unframe(data).value;
            && |metadata| == MetadataLength(data) && |tensors| == TensorLength(data)
            && data == MAGIC + [VERSION] + data[5..13] + data[13..21] + metadata + tensors
  {
  }

  lemma FrameFits(data: seq<Byte>, metadata: seq<Byte>, tensors: seq<Byte>)
    requires Frame(metadata, tensors) == Ok(data)
    ensures |data| == 21 + |metadata| + |tensors|
    ensures MetadataLength(data) == |metadata| && TensorLength(data) == |tensors|
  {
    UnpackPack64(|metadata|);
    UnpackPack64(|tensors|);
    var m, t := Pack64(|metadata|).value, Pack64(|tensors|).value;
    assert data == MAGIC + [VERSION] + m + t + metadata + tensors;
    assert data[5..13] == m && data[13..21] == t;
  }

  /** What is taken apart is the frame of its parts exactly when it is as long as it announces. */
  lemma FrameOfPartsIff(data: seq<Byte>)
    requires MAGIC <= data && Unframe(data).Ok?
    ensures var (metadata, tensors) := Unframe(data).value;
            Frame(metadata, tensors) == Ok(data) <==> |data| == 21 + MetadataLength(data) + TensorLength(data)
  {
    var (metadata, tensors) := Unframe(data).value;
    if |data| == 21 + MetadataLength(data) + TensorLength(data) {
      PartsOf(data);
      PackUnpack64(data[5..13]);
      PackUnpack64(data[13..21]);
    } else if Frame(metadata, tensors) == Ok(data) {
      FrameFits(data, metadata, tensors);
      assert false;
    }
  }

  // ---- reading back -------------------------------------------------------------------------

  /** The values, or the first error. */
  function Collect<X>(rs: seq<Result<X, Error>>): Result<seq<X>, Error> {
    if rs == [] then Ok([])
    else
      match Collect(rs[..|rs| - 1])
      case Err(e) => Err(e)
      case Ok(before) =>
        match rs[|rs| - 1]
        case Err(e) => Err(e)
        case Ok(x) => Ok(before + [x])
  }

  lemma {:induction false} CollectOk<X>(rs: seq<Result<X, Error>>, want: seq<X>)
    requires |want| == |rs| && forall i :: 0 <= i < |rs| ==> rs[i] == Ok(want[i])
    ensures Collect(rs) == Ok(want)
  {
    if rs != [] {
      var n := |rs| - 1;
      CollectOk(rs[..n], want[..n]);
      assert want[..n] + [want[n]] == want;
    }
  }

  lemma {:induction false} CollectFails<X>(rs: seq<Result<X, Error>>, i: nat)
    requires i < |rs| && Collect(rs[..i]).Ok? && rs[i].Err?
    ensures Collect(rs) == Err(rs[i].error)
    decreases |rs|
  {
    var n := |rs| - 1;
    if i < n {
      assert rs[..n][..i] == rs[..i];
      CollectFails(rs[..n], i);
    }
  }

  /** One more value, or the error that decides. */
  lemma CollectNext<X>(rs: seq<Result<X, Error>>, i: nat)
    requires i < |rs| && Collect(rs[..i]).Ok?
    ensures rs[i].Ok? ==> Collect(rs[..i + 1]) == Ok(Collect(rs[..i]).value + [rs[i].value])
    ensures rs[i].Err? ==> Collect(rs) == Err(rs[i].error)
  {
    assert rs[..i + 1][..i] == rs[..i];
    if rs[i].Err? { CollectFails(rs, i); }
  }

  function GetInput(table: map<string, Tensor>, index: nat, key: string): Result<(string, Tensor), Error> {
    if Key(InputSlot(index, key)) in table then Ok((key, table[Key(InputSlot(index, key))])) else Err(MissingTensor)
  }

  function GetInputs(table: map<string, Tensor>, index: nat, keys: seq<string>): Result<seq<(string, Tensor)>, Error> {
    Collect(seq(|keys|, i requires 0 <= i < |keys| => GetInput(table, index, keys[i])))
  }

  function GetFields(table: map<string, Tensor>, index: nat): map<TensorField, Tensor> {
    map f | f in TENSOR_FIELDS && Key(FieldSlot(index, f)) in table :: table[Key(FieldSlot(index, f))]
  }

  function Restore<V>(table: map<string, Tensor>, index: nat, item: Item<V>): Result<Experience<V>, Error> {
    match GetInputs(table, index, item.inputKeys)
    case Err(e) => Err(e)
    case Ok(inputs) =>
      Construct(Fields(item.eid, item.promptLength, item.plain, GetFields(table, index),
                       if item.inputKeys == [] then None else Some(inputs), LoadCustom(item.custom)))
  }

  function RestoreAll<V>(table: map<string, Tensor>, items: seq<Item<V>>): Result<seq<Experience<V>>, Error> {
    Collect(seq(|items|, i requires 0 <= i < |items| => Restore(table, i, items[i])))
  }

  function DeserializeMany<V>(c: Codec<V>, data: seq<Byte>): Result<seq<Experience<V>>, Error> {
    if !(MAGIC <= data) then Ok(c.legacy(data))
    else
      match Unframe(data)
      case Err(e) => Err(e)
      case Ok((metadata, tensors)) =>
        match (c.unpickle(metadata), c.load(tensors))
        case (None, _) => Err(BadMetadata)
        case (_, None) => Err(BadTensors)
        case (Some(m), Some(table)) => RestoreAll(table, m.items)
  }

  function DeserializeOne<V>(c: Codec<V>, data: seq<Byte>): Result<Experience<V>, Error> {
    match DeserializeMany(c, data)
    case Err(e) => Err(e)
    case Ok(xs) => if |xs| == 1 then Ok(xs[0]) else Err(NotSingle)
  }
}
