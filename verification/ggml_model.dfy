/** The objects that read a legacy GGML file step by step, each proved against the reader's functions. */
module GgmlModel {
  import opened Bytes
  import opened Sequences
  import opened Wrappers
  import opened GgmlReader
  import opened GgmlRoundTrip

  class VocabReader {
    var items: seq<Item>
    const loadScores: bool

    constructor (loadScores: bool)
      ensures items == [] && this.loadScores == loadScores
    {
      items, this.loadScores := [], loadScores;
    }

    /** `Vocab.load`: how far the offset moves. */
    method Load(data: seq<Byte>, start: int, nVocab: nat) returns (r: Result<int, Error>)
      modifies this
      ensures match ReadVocab(data, start, nVocab, loadScores, old(items))
        case Failure(e) => r == Failure(e)
        case Success(v) => r == Success(v.1 - start) && items == v.0
    {
      hide ReadItem;
      var at := start;
      var n := nVocab;
      while n > 0
        invariant n >= 0
        invariant ReadVocab(data, at, n, loadScores, items) == ReadVocab(data, start, nVocab, loadScores, old(items))
      {
        var item := ReadItem(data, at, loadScores);
        if item.Failure? { return Failure(item.error); }
        at := item.value.1;
        items := items + [item.value.0];
        n := n - 1;
      }
      return Success(at - start);
    }
  }

  class TensorReader {
    var name: seq<Byte>
    var dims: seq<nat>
    var dtype: nat
    var startOffset: int
    var lenBytes: int
    const usePadding: bool

    constructor (usePadding: bool)
      ensures this.usePadding == usePadding
    {
      name, dims, dtype, startOffset, lenBytes := [], [], 0, 0, 0;
      this.usePadding := usePadding;
    }

    function View(): Tensor
      reads this
    {
      Tensor(name, dims, dtype, startOffset, lenBytes)
    }

    /** `Tensor.load`: the offset after the record. */
    method Load(data: seq<Byte>, start: int) returns (r: Result<int, Error>)
      modifies this
      ensures match ReadTensor(data, start, usePadding)
        case Failure(e) => r == Failure(e)
        case Success(p) => r == Success(p.1) && View() == p.0
    {
      hide Slice, QuantSize, ReadU32s, NBytes, Wrap;
      var head := ReadU32s(data, start, 3);
      if head.Failure? { return Failure(head.error); }
      var nDims, nameLen := head.value[0], head.value[1];
      if nDims > 4 { return Failure(BadDims); }
      if nameLen >= 4096 { return Failure(AbsurdName); }
      dtype := head.value[2];
      var quant := QuantSize(dtype);
      if quant.None? { return Failure(BadType); }
      var at := start + 12;
      var ds := ReadU32s(data, at, nDims);
      if ds.Failure? { return Failure(ds.error); }
      dims := ds.value;
      at := at + 4 * nDims;
      name := Slice(data, at, at + nameLen);
      at := at + nameLen;
      var pad := if usePadding then Aligned(at) - at else 0;
      at := at + pad;
      startOffset := at;
      lenBytes := NBytes(dims, quant.value);
      return Success(Wrap(at + lenBytes));
    }
  }

  /** How `load` ends, if it does. */
  datatype Ending = Ends(offset: int) | Throws(error: Error) | NeverEnds

  class GGMLModel {
    var fileFormat: Format
    var formatVersion: nat
    var hyperparameters: Option<Hyper>
    var vocab: seq<Item>
    var tensors: seq<Tensor>
    var tensorMap: map<seq<Byte>, nat>
    var nFf: nat

    constructor ()
      ensures hyperparameters == None && tensors == [] && tensorMap == map[]
    {
      fileFormat, formatVersion, hyperparameters := GGML, 0, None;
      vocab, tensors, tensorMap, nFf := [], [], map[], 0;
    }

    /** `validate_header` */
    method ValidateHeader(data: seq<Byte>, at: int) returns (r: Result<nat, Error>)
      modifies this`fileFormat, this`formatVersion
      ensures match ReadHeader(data, at)
        case Failure(e) => r == Failure(e) && fileFormat == old(fileFormat) && formatVersion == old(formatVersion)
        case Success(h) => r == Success(h.size) && fileFormat == h.format && formatVersion == h.version
    {
      hide Slice, ReadU32s;
      var magic := Slice(data, at, at + 4);
      if magic == M_GGUF { return Failure(AlreadyGguf); }
      if magic == M_GGML {
        fileFormat, formatVersion := GGML, 1;
        return Success(4);
      }
      var version := ReadU32s(data, at + 4, 1);
      if version.Failure? { return Failure(version.error); }
      var v := version.value[0];
      if magic == M_GGMF {
        if v != 1 { return Failure(BadVersion); }
        fileFormat, formatVersion := GGMF, v;
        return Success(8);
      }
      if magic == M_GGJT {
        if v < 1 || v > 3 { return Failure(BadVersion); }
        fileFormat, formatVersion := GGJT, v;
        return Success(8);
      }
      return Failure(BadMagic);
    }

    /**
     The `while offset < len(data)` loop. Once it has taken two turns for every byte and one more it is
     given up, for then it never ends.
     */
    method LoadTensors(data: seq<Byte>, start: int)
      returns (found: seq<Tensor>, byName: map<seq<Byte>, nat>, end: Ending)
      ensures match ScanTensors(data, start, fileFormat == GGJT, Turns(data), [])
        case Done(ts, at) => end == Ends(at) && found == ts && byName == TensorMap(ts)
        case Raised(e) => end == Throws(e)
        case Running(_, _) => end == NeverEnds
    {
      hide ReadTensor;
      found, byName := [], map[];
      var at, left := start, Turns(data);
      var padded := fileFormat == GGJT;
      while at < |data|
        invariant byName == TensorMap(found)
        invariant ScanTensors(data, at, padded, left, found) == ScanTensors(data, start, padded, Turns(data), [])
        decreases left
      {
        if left == 0 { return found, byName, NeverEnds; }
        var tensor := new TensorReader(padded);
        var next := tensor.Load(data, at);
        if next.Failure? { return found, byName, Throws(next.error); }
        byName := byName[tensor.name := |found|];
        assert (found + [tensor.View()])[..|found|] == found;
        found := found + [tensor.View()];
        at, left := next.value, left - 1;
      }
      end := Ends(at);
    }

    /** `set_n_ff`, an exception if the tensor or its second dimension is missing. */
    method SetNFf() returns (failed: Option<Error>)
      requires tensorMap == TensorMap(tensors)
      modifies this`nFf
      ensures match FfSize(tensors)
        case Failure(e) => failed == Some(e)
        case Success(n) => failed == None && nFf == n
    {
      hide TensorMap;
      if FF_NAME !in tensorMap { return Some(MissingFf); }
      MapLast(tensors);
      var ff := tensors[tensorMap[FF_NAME]];
      if |ff.dims| < 2 { return Some(NoSecondDim); }
      nFf := ff.dims[1];
      return None;
    }

    /** `load` */
    method Load(data: seq<Byte>, start: int) returns (end: Ending)
      modifies this
      ensures match GgmlReader.Load(data, start, Turns(data))
        case Fails(e) => end == Throws(e)
        case Loops => end == NeverEnds
        case Loaded(m) =>
          && end == Ends(m.end) && fileFormat == m.header.format && formatVersion == m.header.version
          && hyperparameters == Some(m.hyper) && vocab == m.items && tensors == m.tensors
          && tensorMap == TensorMap(m.tensors) && nFf == m.nFf
    {
      hide ReadHeader, ReadHyper, LoadBody;
      var header := ValidateHeader(data, start);
      if header.Failure? { return Throws(header.error); }
      var at := start + header.value;
      var hyper := ReadHyper(data, at);
      if hyper.Failure? { return Throws(hyper.error); }
      if !Eligible(fileFormat, formatVersion, hyper.value.ftype) { return Throws(NotEligible); }
      end := LoadRest(data, at + 28, Header(fileFormat, formatVersion, header.value), hyper.value);
    }

    /** `load` from the vocabulary on; the fields are set once everything has been read. */
    method LoadRest(data: seq<Byte>, start: int, header: Header, hp: Hyper) returns (end: Ending)
      requires fileFormat == header.format
      modifies this`hyperparameters, this`vocab, this`tensors, this`tensorMap, this`nFf
      ensures match LoadBody(data, start, header, hp, Turns(data))
        case Fails(e) => end == Throws(e)
        case Loops => end == NeverEnds
        case Loaded(m) =>
          && end == Ends(m.end) && m.header == header && m.hyper == hp && hyperparameters == Some(hp)
          && vocab == m.items && tensors == m.tensors && tensorMap == TensorMap(m.tensors) && nFf == m.nFf
    {
      hide ReadVocab, ScanTensors, TensorMap, FfSize;
      var reader := new VocabReader(fileFormat != GGML);
      var moved := reader.Load(data, start, hp.nVocab);
      if moved.Failure? { return Throws(moved.error); }
      var found, byName;
      found, byName, end := LoadTensors(data, start + moved.value);
      if !end.Ends? { return; }
      hyperparameters := Some(hp);
      vocab, tensors, tensorMap := reader.items, found, byName;
      var failed := SetNFf();
      if failed.Some? { end := Throws(failed.value); }
    }
  }

  // ---------- handing the tensors on ----------

  /** A tensor as the converter adds it: first two dimensions exchanged, data cut out of the file. */
  datatype Added = Added(name: seq<Byte>, data: seq<Byte>, shape: seq<nat>, dtype: nat)

  function Swapped(dims: seq<nat>): (r: seq<nat>)
    ensures |r| == |dims|
  {
    if |dims| > 1 then [dims[1], dims[0]] + dims[2..] else dims
  }

  /** The first two dimensions change places, if there are two, and the others stay. */
  predicate Exchanged(dims: seq<nat>, shape: seq<nat>) {
    && |shape| == |dims|
    && (|dims| > 1 ==> shape[0] == dims[1] && shape[1] == dims[0])
    && forall k | 0 <= k < |dims| && (|dims| == 1 || k >= 2) :: shape[k] == dims[k]
  }

  function Add(data: seq<Byte>, t: Tensor): Added {
    Added(t.name, Slice(data, t.start, t.start + t.len), Swapped(t.dims), t.dtype)
  }

  /** The loop of `add_tensors`, leaving out the renaming. */
  method AddTensors(data: seq<Byte>, tensors: seq<Tensor>) returns (added: seq<Added>)
    ensures |added| == |tensors| && forall i | 0 <= i < |tensors| ::
      added[i] == Add(data, tensors[i]) && Exchanged(tensors[i].dims, added[i].shape)
  {
    added := [];
    var i := 0;
    while i < |tensors|
      invariant i <= |tensors| && |added| == i
      invariant forall j | 0 <= j < i :: added[j] == Add(data, tensors[j]) && Exchanged(tensors[j].dims, added[j].shape)
    {
      var tensor := tensors[i];
      var dims := tensor.dims;
      if |dims| > 1 {
        var temp := dims[1];
        dims := dims[1 := dims[0]];
        dims := dims[0 := temp];
      }
      assert dims == Swapped(tensor.dims);
      added := added + [Added(tensor.name, Slice(data, tensor.start, tensor.start + tensor.len), dims, tensor.dtype)];
      i := i + 1;
    }
  }

  /** Exchanging dimensions keeps the number of elements, and doing it twice changes nothing. */
  lemma SwapKeepsSize(dims: seq<nat>)
    ensures Exchanged(dims, Swapped(dims)) && Prod(Swapped(dims)) == Prod(dims) && Swapped(Swapped(dims)) == dims
  {
    if |dims| > 1 {
      var rest := dims[2..];
      ProdConcat([dims[1], dims[0]], rest);
      ProdConcat([dims[0], dims[1]], rest);
      assert dims == [dims[0], dims[1]] + rest;
      ProdPair(dims[0], dims[1]);
      ProdPair(dims[1], dims[0]);
    }
  }

  /** Of a printed file, the converter adds exactly the data that was written. */
  lemma AddsWritten(file: seq<Byte>, t: Tensor, r: Record)
    requires RecordOk(r) && Holds(file, t, r)
    ensures var a := Add(file, t);
      a.name == r.name && a.data == r.data && a.dtype == r.dtype && Exchanged(r.dims, a.shape)
    ensures |Add(file, t).data| == Prod(Add(file, t).shape) * QuantSize(r.dtype).value.1 / QuantSize(r.dtype).value.0
  {
    hide QuantSize, Slice;
    SwapKeepsSize(r.dims);
  }
}
