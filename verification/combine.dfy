/** `combine`: copies its inputs into the output file one after the other and
    stops at the first copy that fails. */
module Combiner {
  import opened Common
  import opened Services

  /** The `.apk` file being written: its path and the bytes written so far. */
  class OutputFile {
    const path: string
    var contents: seq<byte>

    /** `os.Create`: a new, empty file. */
    constructor (path: string)
      ensures this.path == path && contents == []
    {
      this.path := path;
      contents := [];
    }

    method Write(bytes: seq<byte>)
      modifies this
      ensures contents == old(contents) + bytes
    {
      contents := contents + bytes;
    }
  }

  /** The parts concatenated in order. */
  function Concat(parts: seq<seq<byte>>): seq<byte>
  {
    if parts == [] then [] else parts[0] + Concat(parts[1..])
  }

  datatype CopyResult = CopyResult(written: seq<byte>, error: Option<Error>)

  function Min(a: nat, b: nat): nat { if a <= b then a else b }

  /** What copying `inputs[i..]` writes and returns; a fault on input `i`
      leaves the first bytes of that input written and ends the copying. */
  function CombineFrom(inputs: seq<seq<byte>>, fault: nat -> Option<CopyFault>, i: nat): CopyResult
    decreases |inputs| - i
  {
    if i >= |inputs| then CopyResult([], None)
    else
      match fault(i)
      case Some(f) => CopyResult(inputs[i][..Min(f.written, |inputs[i]|)], Some(f.error))
      case None =>
        var rest := CombineFrom(inputs, fault, i + 1);
        CopyResult(inputs[i] + rest.written, rest.error)
  }

  /** The loop of `combine`. */
  method Combine(out: OutputFile, inputs: seq<seq<byte>>, fault: nat -> Option<CopyFault>)
    returns (err: Option<Error>)
    modifies out
    ensures out.contents == old(out.contents) + CombineFrom(inputs, fault, 0).written
    ensures err == CombineFrom(inputs, fault, 0).error
  {
    var i := 0;
    while i < |inputs|
      invariant 0 <= i <= |inputs|
      invariant old(out.contents) + CombineFrom(inputs, fault, 0).written
             == out.contents + CombineFrom(inputs, fault, i).written
      invariant CombineFrom(inputs, fault, 0).error == CombineFrom(inputs, fault, i).error
    {
      match fault(i) {
        case Some(f) =>
          out.Write(inputs[i][..Min(f.written, |inputs[i]|)]);
          return Some(f.error);
        case None =>
          out.Write(inputs[i]);
      }
      i := i + 1;
    }
    return None;
  }

  /** Copying succeeds exactly when no input's copy fails, and then the file
      receives every input, whole and in argument order. */
  lemma {:induction false} CombineSucceeds(inputs: seq<seq<byte>>, fault: nat -> Option<CopyFault>, i: nat)
    requires i <= |inputs|
    ensures CombineFrom(inputs, fault, i).error.None?
        <==> forall j :: i <= j < |inputs| ==> fault(j).None?
    ensures CombineFrom(inputs, fault, i).error.None? ==>
              CombineFrom(inputs, fault, i).written == Concat(inputs[i..])
    decreases |inputs| - i
  {
    if i < |inputs| {
      CombineSucceeds(inputs, fault, i + 1);
      assert inputs[i..][1..] == inputs[i + 1..];
    }
  }

  /** The first failing copy ends `combine` with its error: the inputs before
      it are written whole, it is written in part, and no later input is
      written at all. */
  lemma {:induction false} CombineStopsAtFirstFault(inputs: seq<seq<byte>>, fault: nat -> Option<CopyFault>, i: nat, k: nat)
    requires i <= k < |inputs| && fault(k).Some?
    requires forall j :: i <= j < k ==> fault(j).None?
    ensures CombineFrom(inputs, fault, i)
         == CopyResult(Concat(inputs[i..k]) + inputs[k][..Min(fault(k).value.written, |inputs[k]|)],
                       Some(fault(k).value.error))
    decreases k - i
  {
    if i < k {
      CombineStopsAtFirstFault(inputs, fault, i + 1, k);
      var tail := inputs[k][..Min(fault(k).value.written, |inputs[k]|)];
      var before := Concat(inputs[i + 1..k]);
      assert fault(i).None?;
      assert inputs[i..k] == [inputs[i]] + inputs[i + 1..k];
      ConcatCons(inputs[i], inputs[i + 1..k]);
      calc {
        CombineFrom(inputs, fault, i).written;
        inputs[i] + CombineFrom(inputs, fault, i + 1).written;
        inputs[i] + (before + tail);
        (inputs[i] + before) + tail;
        Concat(inputs[i..k]) + tail;
      }
    } else {
      assert inputs[i..k] == [];
    }
  }

  lemma ConcatCons(x: seq<byte>, rest: seq<seq<byte>>)
    ensures Concat([x] + rest) == x + Concat(rest)
  {
    assert ([x] + rest)[1..] == rest;
  }

  /** Whatever happens, the file holds a prefix of the full concatenation. */
  lemma {:induction false} CombineWritesPrefix(inputs: seq<seq<byte>>, fault: nat -> Option<CopyFault>, i: nat)
    requires i <= |inputs|
    ensures CombineFrom(inputs, fault, i).written <= Concat(inputs[i..])
    decreases |inputs| - i
  {
    if i < |inputs| {
      assert inputs[i..][1..] == inputs[i + 1..];
      if fault(i).None? {
        CombineWritesPrefix(inputs, fault, i + 1);
      }
    }
  }
}
