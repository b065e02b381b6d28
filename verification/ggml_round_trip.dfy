/** A printer for legacy GGML files, and the proof that the reader gives back what was printed. */
module GgmlRoundTrip {
  import opened Bytes
  import opened Sequences
  import opened Wrappers
  import opened GgmlReader

  /** A tensor as it is written: its data instead of where the data is. */
  datatype Record = Record(name: seq<Byte>, dims: seq<nat>, dtype: nat, data: seq<Byte>)

  datatype Source = Source(format: Format, version: nat, hyper: Hyper, items: seq<Item>, records: seq<Record>)

  function Magic(f: Format): (r: seq<Byte>)
    ensures |r| == 4
  {
    match f
    case GGML => M_GGML
    case GGMF => M_GGMF
    case GGJT => M_GGJT
  }

  function PutU32s(vs: seq<nat>): (r: seq<Byte>)
    requires forall i | 0 <= i < |vs| :: vs[i] < LIMIT
    ensures |r| == 4 * |vs|
  {
    if vs == [] then [] else PutU32s(vs[..|vs| - 1]) + U32(vs[|vs| - 1])
  }

  function Zeros(n: nat): (r: seq<Byte>)
    ensures |r| == n
  {
    seq(n, _ => 0)
  }

  predicate ItemOk(item: Item, scores: bool) {
    |item.text| < 4096 && |item.score| == if scores then 4 else 0
  }

  predicate RecordOk(r: Record) {
    && |r.dims| <= 4 && |r.name| < 4096 && r.dtype < LIMIT && QuantSize(r.dtype).Some?
    && (forall i | 0 <= i < |r.dims| :: r.dims[i] < LIMIT)
    && Prod(r.dims) * QuantSize(r.dtype).value.1 < TWO63
    && |r.data| == Prod(r.dims) * QuantSize(r.dtype).value.1 / QuantSize(r.dtype).value.0
  }

  predicate HyperOk(h: Hyper) {
    h.nVocab < LIMIT && h.nEmbd < LIMIT && h.nMult < LIMIT && h.nHead < LIMIT && h.nLayer < LIMIT && h.nRot < LIMIT
    && KnownFtype(h.ftype)
  }

  /** What the reader demands of a file, said of what is written. */
  predicate SourceOk(m: Source) {
    && 1 <= m.version <= 3 && (m.format != GGJT ==> m.version == 1)
    && HyperOk(m.hyper) && m.hyper.nVocab == |m.items| && Eligible(m.format, m.version, m.hyper.ftype)
    && (forall i | 0 <= i < |m.items| :: ItemOk(m.items[i], m.format != GGML))
    && (forall i | 0 <= i < |m.records| :: RecordOk(m.records[i]))
    && |Print(m)| < TWO63
  }

  // ---------- printing ----------

  function PrintHeader(f: Format, version: nat): (r: seq<Byte>)
    requires version < LIMIT
    ensures |r| == if f == GGML then 4 else 8
  {
    if f == GGML then Magic(f) else Magic(f) + PutU32s([version])
  }

  function PrintHyper(h: Hyper): (r: seq<Byte>)
    requires HyperOk(h)
    ensures |r| == 28
  {
    PutU32s([h.nVocab, h.nEmbd, h.nMult, h.nHead, h.nLayer, h.nRot, h.ftype])
  }

  function PrintItem(item: Item): seq<Byte>
    requires |item.text| < 4096
  {
    PutU32s([|item.text|]) + item.text + item.score
  }

  function PrintVocab(items: seq<Item>): seq<Byte>
    requires forall i | 0 <= i < |items| :: |items[i].text| < 4096
  {
    if items == [] then [] else PrintItem(items[0]) + PrintVocab(items[1..])
  }

  function PrintHead(r: Record): (b: seq<Byte>)
    requires RecordOk(r)
    ensures |b| == 12 + 4 * |r.dims| + |r.name|
  {
    PutU32s([|r.dims|, |r.name|, r.dtype]) + PutU32s(r.dims) + r.name
  }

  /** A record written at offset `at`; its data starts at the next multiple of 32 when padded. */
  function PrintRecord(r: Record, at: nat, padded: bool): (b: seq<Byte>)
    requires RecordOk(r)
    ensures |b| >= 12
  {
    PrintHead(r) + Zeros(Pad(at + |PrintHead(r)|, padded)) + r.data
  }

  function Pad(at: nat, padded: bool): nat {
    if padded then Aligned(at) - at else 0
  }

  function PrintRecords(rs: seq<Record>, at: nat, padded: bool): seq<Byte>
    requires forall i | 0 <= i < |rs| :: RecordOk(rs[i])
  {
    if rs == [] then []
    else
      var b := PrintRecord(rs[0], at, padded);
      b + PrintRecords(rs[1..], at + |b|, padded)
  }

  function PrintFront(m: Source): seq<Byte>
    requires m.version < LIMIT && HyperOk(m.hyper) && forall i | 0 <= i < |m.items| :: |m.items[i].text| < 4096
  {
    PrintHeader(m.format, m.version) + PrintHyper(m.hyper) + PrintVocab(m.items)
  }

  function Print(m: Source): seq<Byte>
    requires m.version < LIMIT && HyperOk(m.hyper) && forall i | 0 <= i < |m.items| :: |m.items[i].text| < 4096
    requires forall i | 0 <= i < |m.records| :: RecordOk(m.records[i])
  {
    PrintFront(m) + PrintRecords(m.records, |PrintFront(m)|, m.format == GGJT)
  }

  // ---------- reading what is printed ----------

  /** The file has these bytes at this offset. */
  predicate At(file: seq<Byte>, at: nat, bytes: seq<Byte>) {
    at + |bytes| <= |file| && file[at..at + |bytes|] == bytes
  }

  lemma AtSplit(file: seq<Byte>, at: nat, a: seq<Byte>, b: seq<Byte>)
    requires At(file, at, a + b)
    ensures At(file, at, a) && At(file, at + |a|, b)
  {
    assert file[at..at + |a|] == file[at..at + |a + b|][..|a|];
    assert file[at + |a|..at + |a| + |b|] == file[at..at + |a + b|][|a|..];
  }

  lemma SliceAt(file: seq<Byte>, at: nat, bytes: seq<Byte>)
    requires At(file, at, bytes)
    ensures Slice(file, at, at + |bytes|) == bytes
  {
  }

  lemma {:induction false} PutAt(vs: seq<nat>, i: nat)
    requires (forall k | 0 <= k < |vs| :: vs[k] < LIMIT) && i < |vs|
    ensures Le32(PutU32s(vs), 4 * i) == vs[i]
  {
    var b, n := PutU32s(vs), |vs| - 1;
    if i == n {
      U32Read(vs[n], b, 4 * n);
    } else {
      PutAt(vs[..n], i);
    }
  }

  lemma ReadPut(file: seq<Byte>, at: nat, vs: seq<nat>)
    requires (forall k | 0 <= k < |vs| :: vs[k] < LIMIT) && At(file, at, PutU32s(vs))
    ensures ReadU32s(file, at, |vs|) == Success(vs)
  {
    hide *;
    SliceAt(file, at, PutU32s(vs));
    ReadWords(file, at, |vs|, PutU32s(vs));
    WordsPut(vs);
  }

  lemma ReadWords(file: seq<Byte>, at: int, n: nat, b: seq<Byte>)
    requires |b| == 4 * n && Slice(file, at, at + |b|) == b
    ensures ReadU32s(file, at, n) == Success(Words(b, n))
  {
    hide Words, Slice;
  }

  lemma WordsPut(vs: seq<nat>)
    requires forall k | 0 <= k < |vs| :: vs[k] < LIMIT
    ensures Words(PutU32s(vs), |vs|) == vs
  {
    hide Words, PutU32s, Le32;
    forall i | 0 <= i < |vs| ensures Le32(PutU32s(vs), 4 * i) == vs[i] { PutAt(vs, i); }
  }

  lemma HeaderRead(file: seq<Byte>, f: Format, version: nat)
    requires 1 <= version <= 3 && (f != GGJT ==> version == 1) && At(file, 0, PrintHeader(f, version))
    ensures ReadHeader(file, 0) == Success(Header(f, version, |PrintHeader(f, version)|))
  {
    hide ReadU32s, PutU32s;
    if f != GGML { AtSplit(file, 0, Magic(f), PutU32s([version])); ReadPut(file, 4, [version]); }
    SliceAt(file, 0, Magic(f));
    MagicsDiffer();
  }

  lemma MagicsDiffer()
    ensures M_GGUF[0] != M_GGML[0] && M_GGUF[0] != M_GGMF[0] && M_GGUF[0] != M_GGJT[0]
    ensures M_GGML[0] != M_GGMF[0] && M_GGML[0] != M_GGJT[0] && M_GGMF[0] != M_GGJT[0]
  {
  }

  lemma HyperRead(file: seq<Byte>, at: nat, h: Hyper)
    requires HyperOk(h) && At(file, at, PrintHyper(h))
    ensures ReadHyper(file, at) == Success(h)
  {
    hide ReadU32s, PutU32s;
    ReadPut(file, at, [h.nVocab, h.nEmbd, h.nMult, h.nHead, h.nLayer, h.nRot, h.ftype]);
  }

  lemma ItemRead(file: seq<Byte>, at: nat, item: Item, scores: bool)
    requires ItemOk(item, scores) && At(file, at, PrintItem(item))
    ensures ReadItem(file, at, scores) == Success((item, at + |PrintItem(item)|))
  {
    hide ReadU32s, PutU32s, Slice;
    var n := PutU32s([|item.text|]);
    AtSplit(file, at, n + item.text, item.score);
    AtSplit(file, at, n, item.text);
    ReadPut(file, at, [|item.text|]);
    SliceAt(file, at + 4, item.text);
    SliceAt(file, at + 4 + |item.text|, item.score);
  }

  lemma {:induction false} VocabRead(file: seq<Byte>, at: nat, items: seq<Item>, scores: bool, before: seq<Item>)
    requires forall i | 0 <= i < |items| :: ItemOk(items[i], scores) && |items[i].text| < 4096
    requires At(file, at, PrintVocab(items))
    ensures ReadVocab(file, at, |items|, scores, before) == Success((before + items, at + |PrintVocab(items)|))
    decreases |items|
  {
    hide ReadItem, PrintItem, ItemOk;
    if items == [] {
      assert before + items == before;
    } else {
      AtSplit(file, at, PrintItem(items[0]), PrintVocab(items[1..]));
      ItemRead(file, at, items[0], scores);
      VocabRead(file, at + |PrintItem(items[0])|, items[1..], scores, before + [items[0]]);
      assert before + [items[0]] + items[1..] == before + items;
    }
  }

  /** Where the reader finds a record written at `at`. */
  function Found(r: Record, at: nat, padded: bool): Tensor
    requires RecordOk(r)
  {
    var end := at + |PrintHead(r)|;
    Tensor(r.name, r.dims, r.dtype, end + Pad(end, padded), |r.data|)
  }

  /** The reader's record stands for what was written: same name, shape and type, and its data is there. */
  predicate Holds(file: seq<Byte>, t: Tensor, r: Record) {
    t.name == r.name && t.dims == r.dims && t.dtype == r.dtype && Slice(file, t.start, t.start + t.len) == r.data
  }

  lemma HeadRead(file: seq<Byte>, at: nat, r: Record)
    requires RecordOk(r) && At(file, at, PrintHead(r))
    ensures ReadU32s(file, at, 3) == Success([|r.dims|, |r.name|, r.dtype])
    ensures ReadU32s(file, at + 12, |r.dims|) == Success(r.dims)
    ensures Slice(file, at + 12 + 4 * |r.dims|, at + 12 + 4 * |r.dims| + |r.name|) == r.name
  {
    hide ReadU32s, PutU32s, Slice, QuantSize, Prod;
    var head := [|r.dims|, |r.name|, r.dtype];
    AtSplit(file, at, PutU32s(head) + PutU32s(r.dims), r.name);
    AtSplit(file, at, PutU32s(head), PutU32s(r.dims));
    ReadPut(file, at, head);
    ReadPut(file, at + 12, r.dims);
    SliceAt(file, at + 12 + 4 * |r.dims|, r.name);
  }

  lemma RecordRead(file: seq<Byte>, at: nat, r: Record, padded: bool)
    requires RecordOk(r) && At(file, at, PrintRecord(r, at, padded)) && |file| < TWO63
    ensures ReadTensor(file, at, padded) == Success((Found(r, at, padded), at + |PrintRecord(r, at, padded)|))
    ensures Holds(file, Found(r, at, padded), r)
  {
    hide ReadU32s, PutU32s, Slice, QuantSize, Prod, Wrap, PrintHead;
    var pad := Zeros(Pad(at + |PrintHead(r)|, padded));
    AtSplit(file, at, PrintHead(r) + pad, r.data);
    AtSplit(file, at, PrintHead(r), pad);
    HeadRead(file, at, r);
    SizeExact(r.dims, r.dtype);
    WrapExact(at + |PrintRecord(r, at, padded)|);
    SliceAt(file, at + |PrintHead(r)| + |pad|, r.data);
  }

  /** Where the reader finds records written one after the other. */
  function FoundAll(rs: seq<Record>, at: nat, padded: bool): (ts: seq<Tensor>)
    requires forall i | 0 <= i < |rs| :: RecordOk(rs[i])
    ensures |ts| == |rs|
  {
    if rs == [] then []
    else [Found(rs[0], at, padded)] + FoundAll(rs[1..], at + |PrintRecord(rs[0], at, padded)|, padded)
  }

  lemma Prepend<T>(before: seq<T>, t: T, after: seq<T>)
    ensures before + [t] + after == before + ([t] + after)
  {
  }

  lemma {:induction false} RecordsRead(file: seq<Byte>, at: nat, rs: seq<Record>, padded: bool, turns: nat,
                                       before: seq<Tensor>)
    requires (forall i | 0 <= i < |rs| :: RecordOk(rs[i])) && At(file, at, PrintRecords(rs, at, padded))
    requires at + |PrintRecords(rs, at, padded)| == |file| < TWO63 && |rs| <= turns
    ensures ScanTensors(file, at, padded, turns, before) == Done(before + FoundAll(rs, at, padded), |file|)
    ensures forall i | 0 <= i < |rs| :: Holds(file, FoundAll(rs, at, padded)[i], rs[i])
    decreases |rs|
  {
    hide ReadTensor, PrintRecord, RecordOk, Holds, Found;
    if rs == [] {
      assert before + [] == before;
    } else {
      var b := PrintRecord(rs[0], at, padded);
      AtSplit(file, at, b, PrintRecords(rs[1..], at + |b|, padded));
      RecordRead(file, at, rs[0], padded);
      var t := Found(rs[0], at, padded);
      RecordsRead(file, at + |b|, rs[1..], padded, turns - 1, before + [t]);
      Prepend(before, t, FoundAll(rs[1..], at + |b|, padded));
    }
  }

  /**
   Reading a printed model gives back its version, hyperparameters, vocabulary and tensors, ends at the
   end of the file, and finds every tensor's data where it was written.
   */
  lemma ReadPrinted(m: Source, turns: nat)
    requires m.version < LIMIT && HyperOk(m.hyper) && (forall i | 0 <= i < |m.items| :: |m.items[i].text| < 4096)
    requires (forall i | 0 <= i < |m.records| :: RecordOk(m.records[i])) && SourceOk(m)
    requires turns >= |m.records|
    ensures var file := Print(m);
      var ts := FoundAll(m.records, |PrintFront(m)|, m.format == GGJT);
      && Load(file, 0, turns) == (match FfSize(ts)
            case Failure(e) => Fails(e)
            case Success(nFf) =>
              Loaded(Model(Header(m.format, m.version, |PrintHeader(m.format, m.version)|), m.hyper, m.items, ts,
                           |file|, nFf)))
      && forall i | 0 <= i < |m.records| :: Holds(file, ts[i], m.records[i])
  {
    hide ReadHeader, ReadHyper, ReadVocab, ScanTensors, PrintHeader, PrintHyper, PrintVocab, PrintRecords,
      FfSize, Holds, RecordOk, FoundAll;
    var file, front, padded := Print(m), PrintFront(m), m.format == GGJT;
    var header, hyper, vocab := PrintHeader(m.format, m.version), PrintHyper(m.hyper), PrintVocab(m.items);
    assert file[0..|file|] == file;
    AtSplit(file, 0, front, PrintRecords(m.records, |front|, padded));
    AtSplit(file, 0, header + hyper, vocab);
    AtSplit(file, 0, header, hyper);
    HeaderRead(file, m.format, m.version);
    HyperRead(file, |header|, m.hyper);
    VocabRead(file, |header| + 28, m.items, m.format != GGML, []);
    assert [] + m.items == m.items;
    RecordsRead(file, |front|, m.records, padded, turns, []);
    assert [] + FoundAll(m.records, |front|, padded) == FoundAll(m.records, |front|, padded);
  }
}
