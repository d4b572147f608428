/** The streaming writer: reserve space, write the data, seek back and write the header over the reserved space. */
module StreamSaver {
  import opened Common
  import opened Bytes
  import opened StreamFormat

  datatype SaveError = BadMetaDtype(name: string) | BadTensorDtype(name: string) | HeaderTooLong

  /** A metadata item whose dtype is still a torch dtype. */
  datatype Announced = Announced(name: string, dtype: TorchDtype, shape: seq<nat>)

  function Overwrite(content: seq<Byte>, pos: nat, bs: seq<Byte>): (r: seq<Byte>)
    requires pos <= |content|
    ensures |r| == if pos + |bs| <= |content| then |content| else pos + |bs|
  {
    content[..pos] + bs + content[if pos + |bs| <= |content| then pos + |bs| else |content|..]
  }

  /** A binary file open for writing. */
  class File {
    var content: seq<Byte>
    var pos: nat

    predicate Valid()
      reads this
    {
      pos <= |content|
    }

    constructor ()
      ensures Valid() && content == [] && pos == 0
    {
      content, pos := [], 0;
    }

    method Write(bs: seq<Byte>)
      requires Valid()
      modifies this
      ensures Valid() && content == old(Overwrite(content, pos, bs)) && pos == old(pos) + |bs|
    {
      content := Overwrite(content, pos, bs);
      pos := pos + |bs|;
    }

    method Seek(to: nat)
      requires to <= |content|
      modifies this`pos
      ensures pos == to
    {
      pos := to;
    }
  }

  function Normalize(metas: seq<Announced>): Result<seq<Meta>, SaveError> {
    if metas == [] then Ok([])
    else
      var m := metas[|metas| - 1];
      match Normalize(metas[..|metas| - 1])
      case Err(e) => Err(e)
      case Ok(before) =>
        if m.dtype.Mapped? then Ok(before + [Meta(m.name, m.dtype.dtype, m.shape)]) else Err(BadMetaDtype(m.name))
  }

  method NormalizeStateDictMeta(metas: seq<Announced>) returns (r: Result<seq<Meta>, SaveError>)
    ensures r == Normalize(metas)
  {
    var normalized := [];
    for i := 0 to |metas|
      invariant Normalize(metas[..i]) == Ok(normalized)
    {
      assert metas[..i + 1][..i] == metas[..i];
      if !metas[i].dtype.Mapped? {
        NormalizeFails(metas, i);
        return Err(BadMetaDtype(metas[i].name));
      }
      normalized := normalized + [Meta(metas[i].name, metas[i].dtype.dtype, metas[i].shape)];
    }
    assert metas[..|metas|] == metas;
    return Ok(normalized);
  }

  /** The first unsupported dtype decides. */
  lemma {:induction false} NormalizeFails(metas: seq<Announced>, i: nat)
    requires i < |metas| && Normalize(metas[..i]).Ok? && !metas[i].dtype.Mapped?
    ensures Normalize(metas) == Err(BadMetaDtype(metas[i].name))
    decreases |metas|
  {
    var n := |metas| - 1;
    if i < n {
      assert metas[..n][..i] == metas[..i];
      NormalizeFails(metas[..n], i);
    }
  }

  method ComputeExactHeaderSize(c: Codec, metas: seq<Meta>) returns (size: nat)
    ensures size == Align8(|c.dumps(PlannedHeader(metas))|)
  {
    var header: Header, dataOffset := [], 0;
    for i := 0 to |metas|
      invariant header == PlannedHeader(metas[..i]) && dataOffset == Offset(MetaItems(metas[..i]))
    {
      assert MetaItems(metas[..i + 1])[..i] == MetaItems(metas[..i]);
      var shape := metas[i].shape;
      var nbytes := 1;
      for k := 0 to |shape|
        invariant nbytes == Product(shape[..k])
      {
        assert shape[..k + 1][..k] == shape[..k];
        nbytes := nbytes * shape[k];
      }
      assert shape[..|shape|] == shape;
      nbytes := nbytes * ElementSize(metas[i].dtype);
      header := Put(header, Entry(metas[i].name, metas[i].dtype, shape, dataOffset, dataOffset + nbytes));
      dataOffset := dataOffset + nbytes;
    }
    assert metas[..|metas|] == metas;
    return Align8(|c.dumps(header)|);
  }

  function FirstUnmapped(ts: seq<Tensor>): (i: nat)
    ensures i <= |ts| && (i < |ts| ==> !ts[i].dtype.Mapped?) && AllMapped(ts[..i])
  {
    if ts == [] then 0
    else
      var i := FirstUnmapped(ts[..|ts| - 1]);
      assert ts[..|ts| - 1][..i] == ts[..i];
      if i < |ts| - 1 then i
      else if ts[|ts| - 1].dtype.Mapped? then assert ts[..|ts|] == ts; |ts| else |ts| - 1
  }

  /** What a save leaves in the file, or the error it stops with. */
  function Saved(c: Codec, metas: seq<Announced>, ts: seq<Tensor>): Result<seq<Byte>, SaveError> {
    match Normalize(metas)
    case Err(e) => Err(e)
    case Ok(ms) =>
      var i := FirstUnmapped(ts);
      if i < |ts| then Err(BadTensorDtype(ts[i].name))
      else
        assert ts[..i] == ts;
        match Pack64(Reserved(c, ms))
        case None => Err(HeaderTooLong)
        case Some(prefix) => Ok(Image(prefix, Reserved(c, ms), c.dumps(HeaderOf(ts)), DataOf(ts)))
  }

  /** After the header has been written at the start of a file that held zeros and then data. */
  lemma SeekBack(prefix: seq<Byte>, reserved: nat, json: seq<Byte>, data: seq<Byte>)
    requires |prefix| == 8
    ensures var file := Overwrite(Fill(0, 8 + reserved) + data, 0, prefix);
            Overwrite(file, 8, json + Padding(reserved, json)) == Image(prefix, reserved, json, data)
  {
    var zeros := Fill(0, 8 + reserved);
    var file := Overwrite(zeros + data, 0, prefix);
    assert file == prefix + Fill(0, reserved) + data;
    var bs := json + Padding(reserved, json);
    if |json| <= reserved {
      assert file[8 + |bs|..] == data;
    } else {
      var over := |json| - reserved;
      assert bs == json;
      if over <= |data| {
        assert file[8 + |json|..] == data[over..];
      }
      assert json == json[..reserved] + json[reserved..];
    }
  }

  method StreamOne(f: File, t: Tensor, header: Header, dataOffset: nat) returns (header': Header, dataOffset': nat)
    requires f.Valid() && f.pos == |f.content| && t.dtype.Mapped?
    modifies f
    ensures f.Valid() && f.pos == |f.content| && f.content == old(f.content) + t.raw
    ensures header' == Put(header, EntryAt(ItemOf(t), dataOffset)) && dataOffset' == dataOffset + |t.raw|
  {
    var nbytes := |t.raw|;
    header' := Put(header, Entry(t.name, t.dtype.dtype, t.shape, dataOffset, dataOffset + nbytes));
    f.Write(t.raw);
    dataOffset' := dataOffset + nbytes;
  }

  /** The writing loop: every tensor's bytes go to the end of the file, its entry into the header. */
  method StreamTensors(f: File, tensors: seq<Tensor>) returns (r: Result<Header, SaveError>)
    requires f.Valid() && f.pos == |f.content|
    modifies f
    ensures f.Valid()
    ensures var i := FirstUnmapped(tensors); i < |tensors| ==> r == Err(BadTensorDtype(tensors[i].name))
    ensures AllMapped(tensors) ==> r == Ok(HeaderOf(tensors)) && f.content == old(f.content) + DataOf(tensors)
  {
    var header: Header, dataOffset := [], 0;
    for i := 0 to |tensors|
      invariant f.Valid() && f.pos == |f.content| && AllMapped(tensors[..i])
      invariant header == HeaderOf(tensors[..i]) && dataOffset == |DataOf(tensors[..i])|
      invariant f.content == old(f.content) + DataOf(tensors[..i])
    {
      ghost var before := DataOf(tensors[..i]);
      if !tensors[i].dtype.Mapped? {
        UnmappedAt(tensors, i);
        return Err(BadTensorDtype(tensors[i].name));
      }
      assert tensors[..i + 1] == tensors[..i] + [tensors[i]];
      WriteOne(tensors, i);
      header, dataOffset := StreamOne(f, tensors[i], header, dataOffset);
      ConcatAssociates(old(f.content), before, tensors[i].raw);
    }
    assert tensors[..|tensors|] == tensors;
    AllMappedMeansNone(tensors);
    return Ok(header);
  }

  /** Seek to the start and write the length and the padded header. */
  method WriteHeader(f: File, reserved: nat, headerJson: seq<Byte>, ghost data: seq<Byte>) returns (ok: bool)
    requires f.Valid() && f.content == Fill(0, 8 + reserved) + data
    modifies f
    ensures ok <==> Pack64(reserved).Some?
    ensures ok ==> f.content == Image(Pack64(reserved).value, reserved, headerJson, data)
  {
    var padded := headerJson + Padding(reserved, headerJson);
    f.Seek(0);
    var prefix := Pack64(reserved);
    if prefix.None? { return false; }
    SeekBack(prefix.value, reserved, headerJson, data);
    f.Write(prefix.value);
    f.Write(padded);
    return true;
  }

  method SaveStreaming(c: Codec, stateDictMeta: seq<Announced>, tensors: seq<Tensor>)
      returns (r: Result<seq<Byte>, SaveError>)
    ensures r == Saved(c, stateDictMeta, tensors)
  {
    var normalized := NormalizeStateDictMeta(stateDictMeta);
    if normalized.Err? { return Err(normalized.error); }
    var maxHeaderSize := ComputeExactHeaderSize(c, normalized.value);
    maxHeaderSize := Align8(maxHeaderSize);
    var f := new File();
    f.Write(Fill(0, 8 + maxHeaderSize));
    assert f.content == Fill(0, 8 + maxHeaderSize);
    FirstUnmappedIsAll(tensors);
    var header := StreamTensors(f, tensors);
    if header.Err? { return Err(header.error); }
    var written := WriteHeader(f, maxHeaderSize, c.dumps(header.value), DataOf(tensors));
    if !written { return Err(HeaderTooLong); }
    return Ok(f.content);
  }

  lemma FirstUnmappedIsAll(ts: seq<Tensor>)
    ensures AllMapped(ts) <==> FirstUnmapped(ts) == |ts|
  {
    if FirstUnmapped(ts) == |ts| { assert ts[..|ts|] == ts; }
  }

  lemma UnmappedAt(ts: seq<Tensor>, i: nat)
    requires i < |ts| && AllMapped(ts[..i]) && !ts[i].dtype.Mapped?
    ensures FirstUnmapped(ts) == i
  {
    var j := FirstUnmapped(ts);
    assert forall k :: 0 <= k < i ==> ts[..i][k] == ts[k];
    assert forall k :: 0 <= k < j ==> ts[..j][k] == ts[k];
  }

  lemma AllMappedMeansNone(ts: seq<Tensor>)
    requires AllMapped(ts)
    ensures FirstUnmapped(ts) == |ts|
  {
  }

  /** An item that announces tensor t truthfully. */
  function AnnouncementOf(t: Tensor): Announced {
    Announced(t.name, t.dtype, t.shape)
  }

  function Announcements(ts: seq<Tensor>): seq<Announced> {
    seq(|ts|, i requires 0 <= i < |ts| => AnnouncementOf(ts[i]))
  }

  lemma {:induction false} NormalizeTruthful(ts: seq<Tensor>)
    requires AllMapped(ts)
    ensures Normalize(Announcements(ts)).Ok?
    ensures var ms := Normalize(Announcements(ts)).value;
            |ms| == |ts| && forall i :: 0 <= i < |ts| ==> ms[i] == Meta(ts[i].name, ts[i].dtype.dtype, ts[i].shape)
  {
    if ts != [] {
      NormalizeTruthful(ts[..|ts| - 1]);
      assert Announcements(ts)[..|ts| - 1] == Announcements(ts[..|ts| - 1]);
    }
  }

  /**
   Saving distinct tensors under truthful metadata and loading the file gives them back: names, dtypes,
   shapes and every byte, in order.
   */
  lemma SaveThenLoad(c: Codec, ts: seq<Tensor>)
    requires Inverse(c) && Distinct(ts) && forall i :: 0 <= i < |ts| ==> Sized(ts[i])
    ensures match Saved(c, Announcements(ts), ts)
            case Ok(file) => Load(c, file) == Some(ts)
            case Err(e) => e == HeaderTooLong
  {
    assert AllMapped(ts);
    NormalizeTruthful(ts);
    AllMappedMeansNone(ts);
    assert ts[..|ts|] == ts;
    var ms := Normalize(Announcements(ts)).value;
    assert Matches(ms, ts);
    if Reserved(c, ms) < TWO_TO_THE_64 { StreamingRoundTrip(c, ms, ts); }
  }
}
