/** The size walk of `EmitPackage`: every entry the walk visits adds its
    `Info().Size()` to the installed size; the first error ends the walk. */
module SizeWalk {
  import opened Common
  import opened Services

  datatype ScanResult = ScanResult(installedSize: int64, error: Option<Error>)

  predicate Fails(e: WalkEvent)
  {
    e.WalkFailed? || e.info.Err?
  }

  /** The error the callback returns for a failing event. */
  function EventError(e: WalkEvent): Error
    requires Fails(e)
  {
    if e.WalkFailed? then e.error else e.info.error
  }

  /** The walk as the callback sees it, starting from `size`. */
  function ScanFrom(events: seq<WalkEvent>, size: int64): (r: ScanResult)
  {
    if events == [] then ScanResult(size, None)
    else if Fails(events[0]) then ScanResult(size, Some(EventError(events[0])))
    else ScanFrom(events[1..], AddInt64(size, events[0].info.value))
  }

  /** The mathematical sum of the sizes of the entries visited. */
  function SizeSum(events: seq<WalkEvent>): int
  {
    if events == [] then 0
    else EventSize(events[0]) + SizeSum(events[1..])
  }

  /** A walk without errors adds every visited entry's size (directories and
      the root included) to the starting size, in int64 arithmetic; when the
      total fits in an int64 it is the exact sum. */
  lemma {:induction false} ScanSucceeds(events: seq<WalkEvent>, size: int64)
    requires forall i :: 0 <= i < |events| ==> !Fails(events[i])
    ensures ScanFrom(events, size) == ScanResult(Wrap64(size + SizeSum(events)), None)
    ensures -TWO63 <= size + SizeSum(events) < TWO63 ==>
              ScanFrom(events, size).installedSize == size + SizeSum(events)
  {
    if events != [] {
      var n := events[0].info.value;
      ScanSucceeds(events[1..], AddInt64(size, n));
      Wrap64Add(size + n, SizeSum(events[1..]));
    }
  }

  /** The first failing entry ends the walk with its error; the sizes of the
      entries before it have been added, nothing after it is looked at. */
  lemma {:induction false} ScanStopsAtFirstError(events: seq<WalkEvent>, size: int64, k: nat)
    requires k < |events| && Fails(events[k])
    requires forall i :: 0 <= i < k ==> !Fails(events[i])
    ensures ScanFrom(events, size)
         == ScanResult(Wrap64(size + SizeSum(events[..k])), Some(EventError(events[k])))
    decreases k
  {
    if k == 0 {
      assert events[..k] == [];
    } else {
      var n := events[0].info.value;
      ScanStopsAtFirstError(events[1..], AddInt64(size, n), k - 1);
      assert events[1..][..k - 1] == events[..k][1..];
      Wrap64Add(size + n, SizeSum(events[1..][..k - 1]));
    }
  }

  /** The scan fails exactly when some event fails. */
  lemma {:induction false} ScanFailsIff(events: seq<WalkEvent>, size: int64)
    ensures ScanFrom(events, size).error.Some? <==> exists i :: 0 <= i < |events| && Fails(events[i])
  {
    if events != [] && !Fails(events[0]) {
      ScanFailsIff(events[1..], AddInt64(size, events[0].info.value));
      if exists i :: 0 <= i < |events| && Fails(events[i]) {
        var i :| 0 <= i < |events| && Fails(events[i]);
        assert Fails(events[1..][i - 1]);
      }
    }
  }

  /** The size an event adds: nothing for a failing one. */
  function EventSize(e: WalkEvent): int
  {
    if Fails(e) then 0 else e.info.value
  }

  lemma {:induction false} SizeSumAppend(a: seq<WalkEvent>, b: seq<WalkEvent>)
    ensures SizeSum(a + b) == SizeSum(a) + SizeSum(b)
  {
    if a == [] {
      assert a + b == b;
    } else {
      assert (a + b)[1..] == a[1..] + b;
      SizeSumAppend(a[1..], b);
    }
  }

  /** Taking out the event at `j` takes its size out of the sum. */
  lemma RemoveEventSize(b: seq<WalkEvent>, j: nat)
    requires j < |b|
    ensures SizeSum(b) == EventSize(b[j]) + SizeSum(b[..j] + b[j + 1..])
  {
    var front, back := b[..j], b[j + 1..];
    assert b == (front + [b[j]]) + back;
    SizeSumAppend(front + [b[j]], back);
    SizeSumAppend(front, [b[j]]);
    SizeSumAppend(front, back);
    assert [b[j]][1..] == [];
  }

  /** Taking out the event at `j` takes it out of the multiset. */
  lemma RemoveEventMultiset(b: seq<WalkEvent>, j: nat)
    requires j < |b|
    ensures multiset(b[..j] + b[j + 1..]) == multiset(b) - multiset{b[j]}
  {
    assert b == b[..j] + [b[j]] + b[j + 1..];
  }

  /** A position at which `x` occurs in `b`. */
  lemma IndexOf(b: seq<WalkEvent>, x: WalkEvent) returns (j: nat)
    requires x in multiset(b)
    ensures j < |b| && b[j] == x
  {
    assert x in b;
    j :| 0 <= j < |b| && b[j] == x;
  }

  /** The sum of the sizes does not depend on the order of the events. */
  lemma {:induction false} SizeSumPermutation(a: seq<WalkEvent>, b: seq<WalkEvent>)
    requires multiset(a) == multiset(b)
    ensures SizeSum(a) == SizeSum(b)
    decreases |a|
  {
    if a != [] {
      var j := IndexOf(b, a[0]);
      RemoveEventSize(b, j);
      RemoveEventMultiset(b, j);
      assert multiset(a[1..]) == multiset(a) - multiset{a[0]} by {
        assert a == [a[0]] + a[1..];
      }
      SizeSumPermutation(a[1..], b[..j] + b[j + 1..]);
    } else {
      assert |b| == |multiset(b)|;
    }
  }

  /** Two error-free walks over the same entries in different orders end with
      the same installed size. */
  lemma WalkOrderIrrelevant(a: seq<WalkEvent>, b: seq<WalkEvent>, size: int64)
    requires multiset(a) == multiset(b)
    requires forall i :: 0 <= i < |a| ==> !Fails(a[i])
    ensures ScanFrom(a, size) == ScanFrom(b, size)
    ensures ScanFrom(b, size).error.None?
  {
    forall i | 0 <= i < |b|
      ensures !Fails(b[i])
    {
      assert b[i] in multiset(b);
      var k :| 0 <= k < |a| && a[k] == b[i];
    }
    ScanSucceeds(a, size);
    ScanSucceeds(b, size);
    SizeSumPermutation(a, b);
  }

  /** A workspace holding one 10-byte file, whose root directory's entry
      reports 4096 bytes: the installed size is 4106, not 10. */
  lemma DirectorySizesCount()
    ensures ScanFrom([Visited(".", Ok(4096)), Visited("a.txt", Ok(10))], 0) == ScanResult(4106, None)
  {
    var events := [Visited(".", Ok(4096)), Visited("a.txt", Ok(10))];
    assert events[1..] == [Visited("a.txt", Ok(10))];
  }
}
