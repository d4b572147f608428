/** The layout of a safetensors file: header entries, offsets, and what a loader reads back. */
module StreamFormat {
  import opened Common
  import opened Bytes

  datatype Dtype = F16 | BF16 | F32 | F64 | I8 | I16 | I32 | I64 | U8 | BOOL

  /** A torch dtype: one of the mapped ones, or any other. */
  datatype TorchDtype = Mapped(dtype: Dtype) | Other(name: string)

  function ElementSize(d: Dtype): nat {
    match d
    case F16 => 2
    case BF16 => 2
    case F32 => 4
    case F64 => 8
    case I8 => 1
    case I16 => 2
    case I32 => 4
    case I64 => 8
    case U8 => 1
    case BOOL => 1
  }

  datatype Meta = Meta(name: string, dtype: Dtype, shape: seq<nat>)

  datatype Tensor = Tensor(name: string, dtype: TorchDtype, shape: seq<nat>, raw: seq<Byte>)

  datatype Entry = Entry(name: string, dtype: Dtype, shape: seq<nat>, begin: nat, end: nat)

  type Header = seq<Entry>

  function Product(shape: seq<nat>): nat {
    if shape == [] then 1 else Product(shape[..|shape| - 1]) * shape[|shape| - 1]
  }

  function Size(dtype: Dtype, shape: seq<nat>): nat {
    Product(shape) * ElementSize(dtype)
  }

  /** header[name] = entry on an insertion-ordered dict: an existing name keeps its place. */
  function Put(h: Header, e: Entry): Header {
    if h == [] then [e]
    else if h[0].name == e.name then [e] + h[1..]
    else [h[0]] + Put(h[1..], e)
  }

  /** What a header entry needs to know of a tensor. */
  datatype Item = Item(name: string, dtype: Dtype, shape: seq<nat>, size: nat)

  function Offset(items: seq<Item>): nat {
    if items == [] then 0 else Offset(items[..|items| - 1]) + items[|items| - 1].size
  }

  function EntryAt(item: Item, at: nat): Entry {
    Entry(item.name, item.dtype, item.shape, at, at + item.size)
  }

  /** The header of tensors stored one behind the other. */
  function Layout(items: seq<Item>): Header {
    if items == [] then []
    else Put(Layout(items[..|items| - 1]), EntryAt(items[|items| - 1], Offset(items[..|items| - 1])))
  }

  function ItemOfMeta(m: Meta): Item {
    Item(m.name, m.dtype, m.shape, Size(m.dtype, m.shape))
  }

  function MetaItems(metas: seq<Meta>): (items: seq<Item>)
    ensures |items| == |metas| && forall i :: 0 <= i < |metas| ==> items[i] == ItemOfMeta(metas[i])
  {
    seq(|metas|, i requires 0 <= i < |metas| => ItemOfMeta(metas[i]))
  }

  /** The header that _compute_exact_header_size builds. */
  function PlannedHeader(metas: seq<Meta>): Header {
    Layout(MetaItems(metas))
  }

  /** The bytes that the writing loop writes. */
  function DataOf(ts: seq<Tensor>): seq<Byte> {
    if ts == [] then [] else DataOf(ts[..|ts| - 1]) + ts[|ts| - 1].raw
  }

  predicate AllMapped(ts: seq<Tensor>) {
    forall i :: 0 <= i < |ts| ==> ts[i].dtype.Mapped?
  }

  function ItemOf(t: Tensor): Item
    requires t.dtype.Mapped?
  {
    Item(t.name, t.dtype.dtype, t.shape, |t.raw|)
  }

  function TensorItems(ts: seq<Tensor>): (items: seq<Item>)
    requires AllMapped(ts)
    ensures |items| == |ts| && forall i :: 0 <= i < |ts| ==> items[i] == ItemOf(ts[i])
  {
    seq(|ts|, i requires 0 <= i < |ts| => ItemOf(ts[i]))
  }

  /** The header that the writing loop builds. */
  function HeaderOf(ts: seq<Tensor>): Header
    requires AllMapped(ts)
  {
    Layout(TensorItems(ts))
  }

  /** json.dumps and json.loads of a header, as bytes. Trailing spaces are white space to a parser. */
  datatype Codec = Codec(dumps: Header -> seq<Byte>, loads: seq<Byte> -> Option<Header>)

  ghost predicate Inverse(c: Codec) {
    forall h: Header, k: nat :: c.loads(c.dumps(h) + Fill(SPACE, k)) == Some(h)
  }

  /** Rounded up to a multiple of eight, as the format wants it. */
  function Align8(n: nat): (r: nat)
    ensures n <= r < n + 8 && r % 8 == 0
  {
    (n + 7) / 8 * 8
  }

  function Reserved(c: Codec, metas: seq<Meta>): nat {
    Align8(Align8(|c.dumps(PlannedHeader(metas))|))
  }

  // ---- what the file holds ------------------------------------------------------------------

  /** Python's b" " * (a - b): nothing when the difference is negative. */
  function Padding(reserved: nat, json: seq<Byte>): seq<Byte> {
    Fill(SPACE, if |json| <= reserved then reserved - |json| else 0)
  }

  /** Data area after the header has been written over the reserved space: an overlong header runs into it. */
  function DataArea(reserved: nat, json: seq<Byte>, data: seq<Byte>): seq<Byte> {
    if |json| <= reserved then data
    else json[reserved..] + data[if |json| - reserved <= |data| then |json| - reserved else |data|..]
  }

  /** The whole file. */
  function Image(prefix: seq<Byte>, reserved: nat, json: seq<Byte>, data: seq<Byte>): seq<Byte> {
    prefix + (if |json| <= reserved then json + Padding(reserved, json) else json[..reserved])
        + DataArea(reserved, json, data)
  }

  // ---- reading ------------------------------------------------------------------------------

  function Slice(data: seq<Byte>, e: Entry): Option<Tensor> {
    if e.begin <= e.end <= |data| then Some(Tensor(e.name, Mapped(e.dtype), e.shape, data[e.begin..e.end])) else None
  }

  function Slices(data: seq<Byte>, h: Header): Option<seq<Tensor>> {
    if h == [] then Some([])
    else
      match (Slices(data, h[..|h| - 1]), Slice(data, h[|h| - 1]))
      case (Some(ts), Some(t)) => Some(ts + [t])
      case _ => None
  }

  /** A loader: eight bytes of header length, the header, then the data. */
  function Load(c: Codec, file: seq<Byte>): Option<seq<Tensor>> {
    if |file| < 8 then None
    else
      var n := FromLittleEndian(file[..8]);
      if 8 + n > |file| then None
      else
        match c.loads(file[8..8 + n])
        case None => None
        case Some(h) => Slices(file[8 + n..], h)
  }

  // ---- lemmas -------------------------------------------------------------------------------

  /** What the library guarantees of a tensor's raw bytes. */
  predicate Sized(t: Tensor) {
    t.dtype.Mapped? && |t.raw| == Size(t.dtype.dtype, t.shape)
  }

  /** The iterator yields exactly the announced names, dtypes and shapes, in order. */
  predicate Matches(metas: seq<Meta>, ts: seq<Tensor>) {
    && |metas| == |ts|
    && forall i :: 0 <= i < |ts| ==> Sized(ts[i]) && metas[i] == Meta(ts[i].name, ts[i].dtype.dtype, ts[i].shape)
  }

  predicate Distinct(ts: seq<Tensor>) {
    forall i, j :: 0 <= i < j < |ts| ==> ts[i].name != ts[j].name
  }

  lemma {:induction false} PutNew(h: Header, e: Entry)
    requires forall i :: 0 <= i < |h| ==> h[i].name != e.name
    ensures Put(h, e) == h + [e]
  {
    if h != [] { PutNew(h[1..], e); }
  }

  /** A name that is there already keeps its place and gets the new entry. */
  lemma {:induction false} PutExisting(h: Header, e: Entry, i: nat)
    requires i < |h| && h[i].name == e.name && forall j :: 0 <= j < i ==> h[j].name != e.name
    ensures Put(h, e) == h[i := e]
  {
    if i > 0 { PutExisting(h[1..], e, i - 1); }
  }

  /** Announced and written headers agree, so the measured size is the real one. */
  lemma PlannedIsWritten(metas: seq<Meta>, ts: seq<Tensor>)
    requires Matches(metas, ts)
    ensures AllMapped(ts) && PlannedHeader(metas) == HeaderOf(ts)
  {
    assert forall i :: 0 <= i < |ts| ==> Sized(ts[i]) && MetaItems(metas)[i] == TensorItems(ts)[i];
    assert MetaItems(metas) == TensorItems(ts);
  }

  lemma {:induction false} DataLength(ts: seq<Tensor>)
    requires AllMapped(ts)
    ensures |DataOf(ts)| == Offset(TensorItems(ts))
  {
    if ts != [] {
      DataLength(ts[..|ts| - 1]);
      assert TensorItems(ts)[..|ts| - 1] == TensorItems(ts[..|ts| - 1]);
    }
  }

  predicate DistinctItems(items: seq<Item>) {
    forall i, j :: 0 <= i < j < |items| ==> items[i].name != items[j].name
  }

  /** With distinct names every tensor has its own entry, in order. */
  lemma {:induction false} LayoutNames(items: seq<Item>)
    requires DistinctItems(items)
    ensures |Layout(items)| == |items|
    ensures forall i :: 0 <= i < |items| ==> Layout(items)[i].name == items[i].name
  {
    if items != [] {
      var n := |items| - 1;
      LayoutNames(items[..n]);
      PutNew(Layout(items[..n]), EntryAt(items[n], Offset(items[..n])));
    }
  }

  lemma LayoutSnoc(items: seq<Item>)
    requires DistinctItems(items) && items != []
    ensures var n := |items| - 1; Layout(items) == Layout(items[..n]) + [EntryAt(items[n], Offset(items[..n]))]
  {
    var n := |items| - 1;
    LayoutNames(items[..n]);
    PutNew(Layout(items[..n]), EntryAt(items[n], Offset(items[..n])));
  }

  /** The entries cover 0..total: each begins where the previous one ends. */
  predicate Contiguous(h: Header, total: nat) {
    && (if h == [] then total == 0 else h[0].begin == 0 && h[|h| - 1].end == total)
    && forall i :: 0 < i < |h| ==> h[i].begin == h[i - 1].end
  }

  lemma ContiguousSnoc(h: Header, total: nat, e: Entry)
    requires Contiguous(h, total) && e.begin == total
    ensures Contiguous(h + [e], e.end)
  {
  }

  /** data_offsets start at 0, end with the data and leave no gap; entry i is as long as tensor i. */
  lemma {:induction false} OffsetsContiguous(items: seq<Item>)
    requires DistinctItems(items)
    ensures Contiguous(Layout(items), Offset(items))
    ensures |Layout(items)| == |items|
    ensures forall i :: 0 <= i < |items| ==> Layout(items)[i] == EntryAt(items[i], Layout(items)[i].begin)
  {
    if items != [] {
      var n := |items| - 1;
      OffsetsContiguous(items[..n]);
      LayoutSnoc(items);
      ContiguousSnoc(Layout(items[..n]), Offset(items[..n]), EntryAt(items[n], Offset(items[..n])));
    }
  }

  lemma CutMiddle(a: seq<Byte>, b: seq<Byte>, c: seq<Byte>)
    ensures (a + b + c)[..|a|] == a
    ensures (a + b + c)[|a|..|a| + |b|] == b
    ensures (a + b + c)[|a| + |b|..] == c
  {
  }

  lemma HeaderSnoc(ts: seq<Tensor>)
    requires AllMapped(ts) && Distinct(ts) && ts != []
    ensures var n := |ts| - 1; HeaderOf(ts) == HeaderOf(ts[..n]) + [EntryAt(ItemOf(ts[n]), |DataOf(ts[..n])|)]
  {
    DataLength(ts[..|ts| - 1]);
    assert TensorItems(ts)[..|ts| - 1] == TensorItems(ts[..|ts| - 1]);
    LayoutSnoc(TensorItems(ts));
  }

  /** One more tensor: its bytes behind the data, its entry into the header. */
  lemma WriteOne(ts: seq<Tensor>, i: nat)
    requires i < |ts| && AllMapped(ts[..i + 1])
    ensures AllMapped(ts[..i]) && ts[i].dtype.Mapped?
    ensures DataOf(ts[..i + 1]) == DataOf(ts[..i]) + ts[i].raw
    ensures HeaderOf(ts[..i + 1]) == Put(HeaderOf(ts[..i]), EntryAt(ItemOf(ts[i]), |DataOf(ts[..i])|))
  {
    var more := ts[..i + 1];
    assert more[..i] == ts[..i] && more[i] == ts[i];
    DataLength(ts[..i]);
    assert TensorItems(more)[..i] == TensorItems(ts[..i]);
  }

  /** Slicing what was written by the offsets that were recorded gives every tensor back. */
  lemma {:induction false} SlicesOfWritten(ts: seq<Tensor>, tail: seq<Byte>)
    requires AllMapped(ts) && Distinct(ts)
    ensures Slices(DataOf(ts) + tail, HeaderOf(ts)) == Some(ts)
  {
    if ts != [] {
      var n := |ts| - 1;
      var t, before := ts[n], ts[..n];
      HeaderSnoc(ts);
      SlicesOfWritten(before, t.raw + tail);
      OneMoreSlice(DataOf(before), HeaderOf(before), before, t, tail);
      assert before + [t] == ts;
    }
  }

  lemma OneMoreSlice(data: seq<Byte>, h: Header, before: seq<Tensor>, t: Tensor, tail: seq<Byte>)
    requires t.dtype.Mapped? && Slices(data + (t.raw + tail), h) == Some(before)
    ensures Slices((data + t.raw) + tail, h + [EntryAt(ItemOf(t), |data|)]) == Some(before + [t])
  {
    var all, e := (data + t.raw) + tail, EntryAt(ItemOf(t), |data|);
    assert all == data + (t.raw + tail);
    CutMiddle(data, t.raw, tail);
    SliceOfEntry(all, e, t);
    SlicesSnoc(all, h, e, before, t);
  }

  lemma SliceOfEntry(data: seq<Byte>, e: Entry, t: Tensor)
    requires t.dtype.Mapped? && e == EntryAt(ItemOf(t), e.begin) && e.end <= |data| && data[e.begin..e.end] == t.raw
    ensures Slice(data, e) == Some(t)
  {
  }

  lemma SlicesSnoc(data: seq<Byte>, h: Header, e: Entry, ts: seq<Tensor>, t: Tensor)
    requires Slices(data, h) == Some(ts) && Slice(data, e) == Some(t)
    ensures Slices(data, h + [e]) == Some(ts + [t])
  {
    assert (h + [e])[..|h + [e]| - 1] == h;
  }

  /** A file whose header fits loads back exactly the tensors that were streamed into it. */
  lemma LoadOfImage(c: Codec, ts: seq<Tensor>, reserved: nat)
    requires Inverse(c) && AllMapped(ts) && Distinct(ts) && reserved < TWO_TO_THE_64
    requires |c.dumps(HeaderOf(ts))| <= reserved
    ensures Load(c, Image(LittleEndian(reserved, 8), reserved, c.dumps(HeaderOf(ts)), DataOf(ts))) == Some(ts)
  {
    var h, data, prefix := HeaderOf(ts), DataOf(ts), LittleEndian(reserved, 8);
    var json := c.dumps(h);
    UnpackPack64(reserved);
    var padded := json + Fill(SPACE, reserved - |json|);
    CutMiddle(prefix, padded, data);
    assert c.loads(padded) == Some(h);
    SlicesOfWritten(ts, []);
    assert data + [] == data;
  }

  /** The round trip promised for an iterator that agrees with the announced metadata. */
  lemma StreamingRoundTrip(c: Codec, metas: seq<Meta>, ts: seq<Tensor>)
    requires Inverse(c) && Matches(metas, ts) && Distinct(ts) && Reserved(c, metas) < TWO_TO_THE_64
    ensures AllMapped(ts) && |c.dumps(HeaderOf(ts))| <= Reserved(c, metas)
    ensures Load(c, Image(LittleEndian(Reserved(c, metas), 8), Reserved(c, metas), c.dumps(HeaderOf(ts)), DataOf(ts)))
        == Some(ts)
  {
    PlannedIsWritten(metas, ts);
    LoadOfImage(c, ts, Reserved(c, metas));
  }

  /**
   Writing the header back leaves the data alone, whatever the data, exactly when the header fits the reserved space.
   */
  lemma DataSurvivesIff(reserved: nat, json: seq<Byte>, size: nat)
    ensures (forall data :: |data| == size ==> DataArea(reserved, json, data) == data) <==> |json| <= reserved
  {
    if |json| > reserved {
      var b: Byte := if json[reserved] == 0 then 1 else 0;
      var data := Fill(b, size);
      if size == 0 {
        assert |DataArea(reserved, json, data)| >= 1;
      } else {
        assert DataArea(reserved, json, data)[0] == json[reserved];
      }
      assert DataArea(reserved, json, data) != data;
    }
  }
}
