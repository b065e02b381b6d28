/**
 When the tensor loop of the GGML reader ends. A turn depends on nothing but the offset, and only offsets
 of a bounded range can be read at, so a loop that goes on long enough comes back to an offset it has read
 at before, and then goes on for ever.
 */
module GgmlTermination {
  import opened Bytes
  import opened Sequences
  import opened Wrappers
  import opened GgmlReader

  /** The offset after `k` turns, if the loop gets that far. */
  function After(data: seq<Byte>, at: int, padded: bool, k: nat): Option<int>
    decreases k
  {
    if k == 0 then Some(at)
    else if at >= |data| then None
    else
      match ReadTensor(data, at, padded)
      case Failure(_) => None
      case Success(p) => After(data, p.1, padded, k - 1)
  }

  lemma {:induction false} AfterAdd(data: seq<Byte>, at: int, padded: bool, j: nat, k: nat)
    ensures After(data, at, padded, j + k)
            == match After(data, at, padded, j)
               case None => None
               case Some(x) => After(data, x, padded, k)
    decreases j
  {
    hide ReadTensor;
    if j > 0 && at < |data| && ReadTensor(data, at, padded).Success? {
      AfterAdd(data, ReadTensor(data, at, padded).value.1, padded, j - 1, k);
    }
  }

  lemma {:induction false} RunningAfter(data: seq<Byte>, at: int, padded: bool, turns: nat, ts: seq<Tensor>)
    ensures ScanTensors(data, at, padded, turns, ts).Running?
      <==> After(data, at, padded, turns).Some? && After(data, at, padded, turns).value < |data|
    decreases turns
  {
    hide ReadTensor;
    if turns > 0 && at < |data| && ReadTensor(data, at, padded).Success? {
      var (t, next) := ReadTensor(data, at, padded).value;
      RunningAfter(data, next, padded, turns - 1, ts + [t]);
    }
  }

  /** Nothing can be read before the file's length counted from its end. */
  lemma ReadInside(data: seq<Byte>, at: int, n: nat)
    requires ReadU32s(data, at, n).Success? && n > 0
    ensures -|data| <= at
  {
  }

  lemma AfterInside(data: seq<Byte>, at: int, padded: bool, k: nat, n: nat)
    requires After(data, at, padded, n).Some? && k < n
    ensures After(data, at, padded, k).Some? && -|data| <= After(data, at, padded, k).value < |data|
  {
    hide After;
    AfterAdd(data, at, padded, k, n - k);
    OneTurn(data, After(data, at, padded, k).value, padded, n - k);
  }

  lemma OneTurn(data: seq<Byte>, at: int, padded: bool, k: nat)
    requires k > 0 && After(data, at, padded, k).Some?
    ensures -|data| <= at < |data|
  {
    hide ReadTensor;
    RecordInside(data, at, padded);
  }

  lemma RecordInside(data: seq<Byte>, at: int, padded: bool)
    requires ReadTensor(data, at, padded).Success?
    ensures -|data| <= at
  {
    hide ReadU32s, Slice, QuantSize, NBytes, Wrap;
    ReadInside(data, at, 3);
  }

  /** The loop is back at an offset it has been at. */
  predicate ComesBack(data: seq<Byte>, at: int, padded: bool, i: nat, j: nat) {
    i < j && After(data, at, padded, i).Some? && After(data, at, padded, j) == After(data, at, padded, i)
  }

  /** A loop that is back where it started never ends. */
  lemma {:induction false} Cycles(data: seq<Byte>, at: int, padded: bool, period: nat, k: nat)
    requires period > 0 && After(data, at, padded, period) == Some(at)
    ensures After(data, at, padded, k).Some?
    decreases k
  {
    hide After;
    if k < period {
      AfterAdd(data, at, padded, k, period - k);
    } else {
      AfterAdd(data, at, padded, period, k - period);
      Cycles(data, at, padded, period, k - period);
    }
  }

  lemma ReturnsCycle(data: seq<Byte>, at: int, padded: bool, i: nat, j: nat, k: nat)
    requires ComesBack(data, at, padded, i, j)
    ensures After(data, at, padded, k).Some?
  {
    hide After;
    var x := After(data, at, padded, i).value;
    AfterAdd(data, at, padded, i, j - i);
    AfterAdd(data, at, padded, i, k);
    Cycles(data, x, padded, j - i, k);
    AfterAdd(data, at, padded, k, i);
  }

  lemma Returns(data: seq<Byte>, at: int, padded: bool) returns (i: nat, j: nat)
    requires After(data, at, padded, Turns(data)).Some?
    ensures ComesBack(data, at, padded, i, j)
  {
    hide After;
    var n := Turns(data);
    forall k: nat | k < n
      ensures After(data, at, padded, k).Some? && -|data| <= After(data, at, padded, k).value < |data|
    {
      AfterInside(data, at, padded, k, n);
    }
    var shifted: seq<nat> := seq(n, k requires 0 <= k < n => After(data, at, padded, k).value + |data|);
    i, j := Pigeonhole(shifted, 2 * |data|);
    assert shifted[i] == shifted[j];
  }

  /** The loop goes on after any number of turns. */
  ghost predicate GoesOn(data: seq<Byte>, at: int, padded: bool) {
    forall turns: nat :: ScanTensors(data, at, padded, turns, []).Running?
  }

  /**
   Exactly when the tensor loop does not end, for every file and offset: it is still going after two
   turns for every byte and one more, and that is when it has come back to an offset.
   */
  lemma LoopsExactly(data: seq<Byte>, at: int, padded: bool)
    ensures ScanTensors(data, at, padded, Turns(data), []).Running? <==> GoesOn(data, at, padded)
    ensures GoesOn(data, at, padded) <==> exists i: nat, j: nat :: ComesBack(data, at, padded, i, j)
  {
    hide After, ScanTensors, ComesBack;
    RunningAfter(data, at, padded, Turns(data), []);
    if ScanTensors(data, at, padded, Turns(data), []).Running? {
      var i, j := Returns(data, at, padded);
      ReturnsGoOn(data, at, padded, i, j);
    }
    forall i: nat, j: nat | ComesBack(data, at, padded, i, j) ensures GoesOn(data, at, padded) {
      ReturnsGoOn(data, at, padded, i, j);
    }
  }

  lemma ReturnsGoOn(data: seq<Byte>, at: int, padded: bool, i: nat, j: nat)
    requires ComesBack(data, at, padded, i, j)
    ensures GoesOn(data, at, padded)
  {
    hide After, ScanTensors, ComesBack;
    forall turns: nat ensures ScanTensors(data, at, padded, turns, []).Running? {
      ReturnsCycle(data, at, padded, i, j, turns + 1);
      AfterInside(data, at, padded, turns, turns + 1);
      RunningAfter(data, at, padded, turns, []);
    }
  }

  /** A loop that ends gives the same however many more turns it is allowed. */
  lemma {:induction false} ScanSettled(data: seq<Byte>, at: int, padded: bool, turns: nat, more: nat, ts: seq<Tensor>)
    requires !ScanTensors(data, at, padded, turns, ts).Running?
    ensures ScanTensors(data, at, padded, turns + more, ts) == ScanTensors(data, at, padded, turns, ts)
    decreases turns
  {
    hide ReadTensor;
    if at < |data| && turns > 0 && ReadTensor(data, at, padded).Success? {
      var (t, next) := ReadTensor(data, at, padded).value;
      ScanSettled(data, next, padded, turns - 1, more, ts + [t]);
    }
  }

  /**
   Two turns for every byte of the file, and one more, decide what `load` does: with any number beyond
   that the outcome is the same, and if it does not end by then it never does.
   */
  lemma LoadSettled(data: seq<Byte>, at: int, turns: nat)
    requires turns >= Turns(data)
    ensures Load(data, at, turns) == Load(data, at, Turns(data))
    ensures Load(data, at, Turns(data)) == Loops ==> forall any: nat :: Load(data, at, any) == Loops
  {
    hide ReadHeader, ReadHyper, ReadVocab, ScanTensors, FfSize, Turns;
    var header := ReadHeader(data, at);
    if header.Success? {
      var start := at + header.value.size + 28;
      var hyper := ReadHyper(data, at + header.value.size);
      if hyper.Success? {
        var vocab := ReadVocab(data, start, hyper.value.nVocab, header.value.format != GGML, []);
        if vocab.Success? {
          ScanDecided(data, vocab.value.1, header.value.format == GGJT, turns);
        }
      }
    }
  }

  lemma ScanDecided(data: seq<Byte>, at: int, padded: bool, turns: nat)
    requires turns >= Turns(data)
    ensures var s := ScanTensors(data, at, padded, Turns(data), []);
      if s.Running? then forall any: nat :: ScanTensors(data, at, padded, any, []).Running?
      else ScanTensors(data, at, padded, turns, []) == s
  {
    hide ScanTensors, Turns;
    LoopsExactly(data, at, padded);
    if !ScanTensors(data, at, padded, Turns(data), []).Running? {
      ScanSettled(data, at, padded, Turns(data), turns - Turns(data), []);
    }
  }
}
