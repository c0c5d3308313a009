/**
  How a distributed state vector is cut between the ranks of a runner and the
  ranks of the server (common/Part.cxx).

  A layout is a sequence of block sizes, one per rank; block k of a layout holds
  the positions Start(sizes, k) <= g < Start(sizes, k + 1) of the global vector.
  The C++ code walks the vector byte by byte.  IsCut says, without any walk, what
  the resulting list of parts has to be.
 */
module Redistribution {
  import opened Integers

  datatype Part = Part(
    rankRunner: nat, offsetRunner: nat,
    rankServer: nat, offsetServer: nat,
    count: nat)

  /** The unsigned expression `n - 1`: it wraps around at zero. */
  function PredSizeT(n: nat): nat {
    if n == 0 then MAX_SIZE_T else n - 1
  }

  function Min(a: int, b: int): int { if a <= b then a else b }

  function Max(a: int, b: int): int { if a <= b then b else a }

  // ----- layouts -----------------------------------------------------------

  /** Global position at which block k begins. */
  function Start(sizes: seq<nat>, k: nat): nat
    requires k <= |sizes|
  {
    if k == 0 then 0 else Start(sizes, k - 1) + sizes[k - 1]
  }

  function Total(sizes: seq<nat>): nat { Start(sizes, |sizes|) }

  lemma {:induction false} StartMonotone(sizes: seq<nat>, j: nat, k: nat)
    requires j <= k <= |sizes|
    ensures Start(sizes, j) <= Start(sizes, k)
    decreases k - j
  {
    if j < k {
      StartMonotone(sizes, j, k - 1);
    }
  }

  /** A position lies in one block only. */
  lemma BlockUnique(sizes: seq<nat>, a: nat, b: nat, g: nat)
    requires a < |sizes| && b < |sizes|
    requires Start(sizes, a) <= g < Start(sizes, a + 1)
    requires Start(sizes, b) <= g < Start(sizes, b + 1)
    ensures a == b
  {
    if a < b {
      StartMonotone(sizes, a + 1, b);
    } else if b < a {
      StartMonotone(sizes, b + 1, a);
    }
  }

  /** An empty block is never followed by a block that holds something. */
  ghost predicate ZerosTrail(sizes: seq<nat>) {
    forall j, k :: 0 <= j < k < |sizes| && sizes[j] == 0 ==> sizes[k] == 0
  }

  lemma {:induction false} NothingAfterZero(sizes: seq<nat>, z: nat, k: nat)
    requires ZerosTrail(sizes) && z < k <= |sizes| && sizes[z] == 0
    ensures Start(sizes, k) == Start(sizes, z)
  {
    if z + 1 < k {
      NothingAfterZero(sizes, z, k - 1);
    }
  }

  // ----- the server's layout -----------------------------------------------

  /** Size in bytes of the block of server rank i. */
  function ServerSize(commSize: nat, elements: nat, bytesPerElement: nat, i: nat): nat
    requires commSize > 0
  {
    (elements / commSize + if i < elements % commSize then 1 else 0) * bytesPerElement
  }

  function ServerSizes(commSize: nat, globalSize: nat, bytesPerElement: nat): (sizes: seq<nat>)
    requires commSize > 0 && bytesPerElement > 0
    ensures |sizes| == commSize
  {
    seq(commSize, i requires 0 <= i < commSize =>
      ServerSize(commSize, globalSize / bytesPerElement, bytesPerElement, i))
  }

  lemma {:induction false} ElementsBefore(commSize: nat, globalSize: nat, bytesPerElement: nat, k: nat)
    requires commSize > 0 && bytesPerElement > 0 && k <= commSize
    ensures var elements := globalSize / bytesPerElement;
            Start(ServerSizes(commSize, globalSize, bytesPerElement), k)
            == (k * (elements / commSize) + Min(k, elements % commSize)) * bytesPerElement
  {
    var e := globalSize / bytesPerElement;
    var q, m := e / commSize, e % commSize;
    if k > 0 {
      ElementsBefore(commSize, globalSize, bytesPerElement, k - 1);
      var extra := if k - 1 < m then 1 else 0;
      assert Min(k, m) == Min(k - 1, m) + extra;
      assert k * q == (k - 1) * q + q;
      Distribute((k - 1) * q + Min(k - 1, m), q + extra, bytesPerElement);
    }
  }

  lemma Distribute(a: int, b: int, c: int)
    ensures (a + b) * c == a * c + b * c
  {
  }

  /** The blocks exhaust the vector, and they are as equal as whole elements allow. */
  lemma ServerSizesAreFair(commSize: nat, globalSize: nat, bytesPerElement: nat)
    requires commSize > 0 && bytesPerElement > 0 && globalSize % bytesPerElement == 0
    ensures var sizes := ServerSizes(commSize, globalSize, bytesPerElement);
            && Total(sizes) == globalSize
            && (forall i :: 0 <= i < commSize ==> sizes[i] % bytesPerElement == 0)
            && (forall i, j :: 0 <= i <= j < commSize ==>
                  sizes[j] <= sizes[i] <= sizes[j] + bytesPerElement)
  {
    var e := globalSize / bytesPerElement;
    var sizes := ServerSizes(commSize, globalSize, bytesPerElement);
    ElementsBefore(commSize, globalSize, bytesPerElement, commSize);
    assert commSize * (e / commSize) + e % commSize == e;
    assert e * bytesPerElement == globalSize;
    var q, m := e / commSize, e % commSize;
    forall i | 0 <= i < commSize
      ensures sizes[i] % bytesPerElement == 0
      ensures sizes[i] == q * bytesPerElement + if i < m then bytesPerElement else 0
    {
      Distribute(q, if i < m then 1 else 0, bytesPerElement);
      MultipleHasNoRest(q + if i < m then 1 else 0, bytesPerElement);
    }
  }

  lemma MultipleHasNoRest(a: nat, b: nat)
    requires b > 0
    ensures (a * b) % b == 0 && (a * b) / b == a
  {
    var p := a * b;
    DivisionIsUnique(p, b, p / b, p % b, a, 0);
  }

  lemma DivisionIsUnique(p: int, b: int, q: int, r: int, q': int, r': int)
    requires p == b * q + r == b * q' + r' && 0 <= r < b && 0 <= r' < b
    ensures q == q' && r == r'
  {
    var d := q - q';
    assert b * d == r' - r;
    if d >= 1 {
      Grows(b, d);
    } else if d <= -1 {
      Grows(b, -d);
    }
  }

  lemma Grows(b: int, d: int)
    requires b >= 0 && d >= 1
    ensures b * d >= b
  {
  }

  lemma ServerTotal(commSize: nat, globalSize: nat, bytesPerElement: nat)
    requires commSize > 0 && bytesPerElement > 0 && globalSize % bytesPerElement == 0
    ensures Total(ServerSizes(commSize, globalSize, bytesPerElement)) == globalSize
  {
    ServerSizesAreFair(commSize, globalSize, bytesPerElement);
  }

  /** Empty server blocks occur only when there are more ranks than elements, at the end. */
  lemma ServerZerosTrail(commSize: nat, globalSize: nat, bytesPerElement: nat)
    requires commSize > 0 && bytesPerElement > 0 && globalSize % bytesPerElement == 0
    ensures ZerosTrail(ServerSizes(commSize, globalSize, bytesPerElement))
  {
    ServerSizesAreFair(commSize, globalSize, bytesPerElement);
  }

  method CalculateLocalVectSizesServer(commSize: nat, globalSize: nat, sizes: array<nat>, bytesPerElement: nat)
    requires commSize > 0 && bytesPerElement > 0
    requires sizes.Length == commSize
    requires globalSize / bytesPerElement <= MAX_INT  // the element count is kept in an int
    modifies sizes
    ensures sizes[..] == ServerSizes(commSize, globalSize, bytesPerElement)
  {
    var globalElements := globalSize / bytesPerElement;
    for i := 0 to commSize
      invariant forall k :: 0 <= k < i ==>
        sizes[k] == ServerSize(commSize, globalElements, bytesPerElement, k)
    {
      sizes[i] := globalElements / commSize;
      var rest := globalElements - globalElements / commSize * commSize;
      if i < rest {
        sizes[i] := sizes[i] + 1;
      }
      sizes[i] := sizes[i] * bytesPerElement;
    }
  }

  // ----- what a cut is -----------------------------------------------------

  ghost predicate InRange(p: Part, runner: seq<nat>, server: seq<nat>) {
    p.rankRunner < |runner| && p.rankServer < |server|
  }

  /** Global position of the first byte of a part. */
  ghost function Begin(p: Part, runner: seq<nat>): nat
    requires p.rankRunner < |runner|
  {
    Start(runner, p.rankRunner) + p.offsetRunner
  }

  /** The part is the whole, non-empty, overlap of its runner block and its server block,
      and its two offsets point at the same byte. */
  ghost predicate IsOverlap(p: Part, runner: seq<nat>, server: seq<nat>) {
    && InRange(p, runner, server)
    && p.count > 0
    && Begin(p, runner) == Start(server, p.rankServer) + p.offsetServer
    && Begin(p, runner) == Max(Start(runner, p.rankRunner), Start(server, p.rankServer))
    && Begin(p, runner) + p.count
       == Min(Start(runner, p.rankRunner + 1), Start(server, p.rankServer + 1))
  }

  ghost predicate Adjacent(p: Part, q: Part, runner: seq<nat>)
    requires p.rankRunner < |runner| && q.rankRunner < |runner|
  {
    Begin(q, runner) == Begin(p, runner) + p.count
  }

  ghost predicate AreOverlaps(parts: seq<Part>, runner: seq<nat>, server: seq<nat>) {
    forall k :: 0 <= k < |parts| ==> IsOverlap(parts[k], runner, server)
  }

  ghost predicate AreAdjacent(parts: seq<Part>, runner: seq<nat>)
    requires forall k :: 0 <= k < |parts| ==> parts[k].rankRunner < |runner|
  {
    forall k :: 0 < k < |parts| ==> Adjacent(parts[k - 1], parts[k], runner)
  }

  ghost predicate FillVector(parts: seq<Part>, runner: seq<nat>)
    requires forall k :: 0 <= k < |parts| ==> parts[k].rankRunner < |runner|
  {
    && (|parts| == 0 <==> Total(runner) == 0)
    && (|parts| > 0 ==> Begin(parts[0], runner) == 0)
    && (|parts| > 0 ==> Begin(parts[|parts| - 1], runner) + parts[|parts| - 1].count == Total(runner))
  }

  /** The parts are overlaps that tile the vector in order. */
  ghost predicate IsCut(parts: seq<Part>, runner: seq<nat>, server: seq<nat>) {
    && AreOverlaps(parts, runner, server)
    && AreAdjacent(parts, runner)
    && FillVector(parts, runner)
  }

  // ----- the byte-by-byte walk ---------------------------------------------

  /** The part that is still being extended, after i bytes have been walked. */
  ghost predicate IsOpen(p: Part, i: nat, runner: seq<nat>, server: seq<nat>) {
    && InRange(p, runner, server)
    && Begin(p, runner) == Start(server, p.rankServer) + p.offsetServer
    && Begin(p, runner) == Max(Start(runner, p.rankRunner), Start(server, p.rankServer))
    && Begin(p, runner) + p.count == i
    && (i > 0 ==> p.count > 0)
  }

  /** Everything but the last part is finished, the last is open at byte i. */
  ghost predicate IsPartialCut(parts: seq<Part>, i: nat, runner: seq<nat>, server: seq<nat>) {
    && |parts| > 0
    && (forall k :: 0 <= k < |parts| - 1 ==> IsOverlap(parts[k], runner, server))
    && IsOpen(parts[|parts| - 1], i, runner, server)
    && (forall k :: 0 < k < |parts| ==> Adjacent(parts[k - 1], parts[k], runner))
    && Begin(parts[0], runner) == 0
  }

  lemma ClosePart(parts: seq<Part>, next: Part, i: nat, runner: seq<nat>, server: seq<nat>)
    requires IsPartialCut(parts, i, runner, server)
    requires var p := parts[|parts| - 1];
             && i == Min(Start(runner, p.rankRunner + 1), Start(server, p.rankServer + 1))
             && i > 0
    requires InRange(next, runner, server) && next.count == 1
    requires Begin(next, runner) == Start(server, next.rankServer) + next.offsetServer
    requires Begin(next, runner) == i
    requires i == Max(Start(runner, next.rankRunner), Start(server, next.rankServer))
    ensures IsPartialCut(parts + [next], i + 1, runner, server)
  {
    var all := parts + [next];
    forall k | 0 < k < |all| ensures Adjacent(all[k - 1], all[k], runner) {
      if k < |parts| {
        assert Adjacent(parts[k - 1], parts[k], runner);
      }
    }
    assert all[0] == parts[0];
  }

  /** The part list for the given layouts.  With size_t arithmetic the walk gets stuck on an
      empty runner block, so the result is the cut exactly if nothing follows such a block. */
  method CalculateNToM(commSizeServer: nat, sizesRunner: seq<nat>, bytesPerElement: nat)
    returns (parts: seq<Part>)
    requires commSizeServer > 0 && bytesPerElement > 0
    requires Total(sizesRunner) <= MAX_SIZE_T
    requires Total(sizesRunner) / bytesPerElement <= MAX_INT
    requires Total(sizesRunner) % bytesPerElement == 0
    ensures ZerosTrail(sizesRunner) <==>
            IsCut(parts, sizesRunner, ServerSizes(commSizeServer, Total(sizesRunner), bytesPerElement))
  {
    parts := [];
    var globalSize := Total(sizesRunner);
    if globalSize == 0 {
      AllEmpty(sizesRunner);
      return;
    }
    var buffer := new nat[commSizeServer];
    CalculateLocalVectSizesServer(commSizeServer, globalSize, buffer, bytesPerElement);
    var server := buffer[..];
    ServerSizesAreFair(commSizeServer, globalSize, bytesPerElement);
    ServerZerosTrail(commSizeServer, globalSize, bytesPerElement);

    parts := WalkVector(globalSize, sizesRunner, server);
  }

  /** A first runner rank with nothing, a second one with four elements, one server rank: the list
      is wrong. */
  method EmptyFirstBlock() returns (parts: seq<Part>)
    ensures !IsCut(parts, [0, 4], ServerSizes(1, 4, 1))
  {
    var sizes: seq<nat> := [0, 4];
    assert Start(sizes, 1) == 0;
    assert Total(sizes) == 4;
    assert sizes[0] == 0 && sizes[1] != 0;
    parts := CalculateNToM(1, sizes, 1);
  }

  /** The body of the loop: one more byte. */
  method WalkByte(partsSoFar: seq<Part>, runnerIndex: nat, serverIndex: nat, sizesRunner: seq<nat>, server: seq<nat>)
    returns (parts: seq<Part>, indexInRunner: nat, indexInServer: nat)
    requires |partsSoFar| > 0 && InRange(partsSoFar[|partsSoFar| - 1], sizesRunner, server)
    ensures parts == Stepped(partsSoFar, runnerIndex, serverIndex, sizesRunner, server)
    ensures indexInRunner == NextIndex(runnerIndex, sizesRunner[partsSoFar[|partsSoFar| - 1].rankRunner])
    ensures indexInServer == NextIndex(serverIndex, server[partsSoFar[|partsSoFar| - 1].rankServer])
  {
    parts, indexInRunner, indexInServer := partsSoFar, runnerIndex, serverIndex;
    var last := parts[|parts| - 1];
    var addedPart := false;
    if indexInRunner > PredSizeT(sizesRunner[last.rankRunner]) {
      // the border of a runner block: start a new part
      last := last.(rankRunner := last.rankRunner + 1, offsetRunner := 0);
      indexInRunner := 0;
      last := last.(offsetServer := indexInServer, count := 0);
      parts := parts + [last];
      addedPart := true;
    }
    if indexInServer > PredSizeT(server[last.rankServer]) {
      // the border of a server block, possibly at the same byte
      if !addedPart {
        parts := parts + [last];
      }
      last := last.(rankServer := last.rankServer + 1, offsetServer := 0);
      indexInServer := 0;
      last := last.(offsetRunner := indexInRunner, count := 0);
    }
    last := last.(count := last.count + 1);
    parts := parts[|parts| - 1 := last];
    indexInRunner := indexInRunner + 1;
    indexInServer := indexInServer + 1;
  }

  /** The loop over the bytes of the vector. */
  method WalkVector(globalSize: nat, sizesRunner: seq<nat>, server: seq<nat>) returns (parts: seq<Part>)
    requires ZerosTrail(server) && |server| > 0
    requires Total(server) == Total(sizesRunner) == globalSize && 0 < globalSize <= MAX_SIZE_T
    ensures ZerosTrail(sizesRunner) <==> IsCut(parts, sizesRunner, server)
  {
    parts := [Part(0, 0, 0, 0, 0)];
    var indexInRunner, indexInServer := 0, 0;
    WalkStarts(sizesRunner, server);
    for i := 0 to globalSize
      invariant Walked(parts, i, indexInRunner, indexInServer, sizesRunner, server)
    {
      ghost var before, atRunner, atServer := parts, indexInRunner, indexInServer;
      Crossing(parts[|parts| - 1], i, indexInRunner, indexInServer, sizesRunner, server);
      parts, indexInRunner, indexInServer := WalkByte(parts, indexInRunner, indexInServer, sizesRunner, server);
      Step(before, i, atRunner, atServer, parts, indexInRunner, indexInServer, sizesRunner, server);
    }
    Finish(parts, indexInRunner, indexInServer, sizesRunner, server);
  }

  lemma {:induction false} AllEmpty(sizes: seq<nat>)
    requires Total(sizes) == 0
    ensures forall k :: 0 <= k < |sizes| ==> sizes[k] == 0
  {
    forall k | 0 <= k < |sizes| ensures sizes[k] == 0 {
      StartMonotone(sizes, k + 1, |sizes|);
    }
  }

  /** Where the walk is, whatever the runner layout. */
  ghost predicate WalkState(last: Part, i: nat, indexInRunner: nat, indexInServer: nat,
                            runner: seq<nat>, server: seq<nat>)
  {
    && InRange(last, runner, server)
    && indexInRunner == i - Start(runner, last.rankRunner)
    && indexInServer == i - Start(server, last.rankServer)
    && i <= Start(server, last.rankServer + 1)
    && (runner[last.rankRunner] > 0 ==> i <= Start(runner, last.rankRunner + 1))
    && (forall k :: 0 <= k < last.rankRunner ==> runner[k] > 0)
    && (i == 0 ==> last.rankRunner == 0 && last.rankServer == 0)
  }

  /** The loop invariant of the walk. */
  ghost predicate Walked(parts: seq<Part>, i: nat, indexInRunner: nat, indexInServer: nat,
                         runner: seq<nat>, server: seq<nat>)
  {
    && |parts| > 0
    && WalkState(parts[|parts| - 1], i, indexInRunner, indexInServer, runner, server)
    && (ZerosTrail(runner) ==> IsPartialCut(parts, i, runner, server))
  }

  lemma WalkStarts(runner: seq<nat>, server: seq<nat>)
    requires Total(runner) > 0 && |server| > 0
    ensures Walked([Part(0, 0, 0, 0, 0)], 0, 0, 0, runner, server)
  {
  }

  /** A border test succeeds exactly at a border, and another block follows. */
  lemma Crossing(last: Part, i: nat, indexInRunner: nat, indexInServer: nat,
                 runner: seq<nat>, server: seq<nat>)
    requires WalkState(last, i, indexInRunner, indexInServer, runner, server)
    requires ZerosTrail(server) && Total(server) == Total(runner) <= MAX_SIZE_T && i < Total(runner)
    ensures indexInRunner > PredSizeT(runner[last.rankRunner]) ==>
              && runner[last.rankRunner] > 0
              && i == Start(runner, last.rankRunner + 1)
              && last.rankRunner + 1 < |runner|
    ensures indexInRunner <= PredSizeT(runner[last.rankRunner]) && runner[last.rankRunner] > 0 ==>
              i < Start(runner, last.rankRunner + 1)
    ensures indexInServer > PredSizeT(server[last.rankServer]) ==>
              && i == Start(server, last.rankServer + 1)
              && last.rankServer + 1 < |server|
              && server[last.rankServer + 1] > 0
    ensures indexInServer <= PredSizeT(server[last.rankServer]) ==> i < Start(server, last.rankServer + 1)
    ensures ZerosTrail(runner) ==> runner[last.rankRunner] > 0
    ensures ZerosTrail(runner) && indexInRunner > PredSizeT(runner[last.rankRunner]) ==>
              runner[last.rankRunner + 1] > 0
    ensures i == 0 ==> indexInServer <= PredSizeT(server[last.rankServer])
  {
    var s, r := last.rankServer, last.rankRunner;
    if server[s] == 0 {
      NothingAfterZero(server, s, |server|);
      assert false;
    }
    if s + 1 < |server| && server[s + 1] == 0 {
      NothingAfterZero(server, s + 1, |server|);
    }
    if ZerosTrail(runner) {
      if runner[r] == 0 {
        NothingAfterZero(runner, r, |runner|);
      }
      if r + 1 < |runner| && runner[r + 1] == 0 {
        NothingAfterZero(runner, r + 1, |runner|);
      }
    }
  }

  lemma ExtendPart(parts: seq<Part>, i: nat, runner: seq<nat>, server: seq<nat>)
    requires IsPartialCut(parts, i, runner, server)
    ensures var last := parts[|parts| - 1];
            IsPartialCut(parts[|parts| - 1 := last.(count := last.count + 1)], i + 1, runner, server)
  {
    var last := parts[|parts| - 1];
    var next := parts[|parts| - 1 := last.(count := last.count + 1)];
    assert Begin(next[|parts| - 1], runner) == Begin(last, runner);
    forall k | 0 < k < |next| ensures Adjacent(next[k - 1], next[k], runner) {
      assert Adjacent(parts[k - 1], parts[k], runner);
    }
  }

  /** What one iteration makes of the part list. */
  ghost function Stepped(parts: seq<Part>, indexInRunner: nat, indexInServer: nat,
                         runner: seq<nat>, server: seq<nat>): (next: seq<Part>)
    requires |parts| > 0 && InRange(parts[|parts| - 1], runner, server)
    ensures |next| > 0
  {
    var last := parts[|parts| - 1];
    var crossRunner := indexInRunner > PredSizeT(runner[last.rankRunner]);
    var crossServer := indexInServer > PredSizeT(server[last.rankServer]);
    if crossRunner && crossServer then
      parts + [Part(last.rankRunner + 1, 0, last.rankServer + 1, 0, 1)]
    else if crossRunner then
      parts + [Part(last.rankRunner + 1, 0, last.rankServer, indexInServer, 1)]
    else if crossServer then
      parts + [Part(last.rankRunner, indexInRunner, last.rankServer + 1, 0, 1)]
    else
      parts[|parts| - 1 := last.(count := last.count + 1)]
  }

  /** An index restarts at a border. */
  function NextIndex(index: nat, size: nat): nat {
    1 + if index > PredSizeT(size) then 0 else index
  }

  lemma Step(before: seq<Part>, i: nat, indexInRunner: nat, indexInServer: nat,
             parts: seq<Part>, nextInRunner: nat, nextInServer: nat,
             runner: seq<nat>, server: seq<nat>)
    requires Walked(before, i, indexInRunner, indexInServer, runner, server)
    requires ZerosTrail(server) && Total(server) == Total(runner) <= MAX_SIZE_T && i < Total(runner)
    requires parts == Stepped(before, indexInRunner, indexInServer, runner, server)
    requires nextInRunner == NextIndex(indexInRunner, runner[before[|before| - 1].rankRunner])
    requires nextInServer == NextIndex(indexInServer, server[before[|before| - 1].rankServer])
    ensures Walked(parts, i + 1, nextInRunner, nextInServer, runner, server)
  {
    Crossing(before[|before| - 1], i, indexInRunner, indexInServer, runner, server);
    if ZerosTrail(runner) {
      if |parts| == |before| {
        ExtendPart(before, i, runner, server);
      } else {
        ClosePart(before, parts[|parts| - 1], i, runner, server);
      }
    }
  }

  /** At the end of the vector the open part is an overlap too; and a walk that got stuck on an
      empty block has put the last byte into the wrong block. */
  lemma Finish(parts: seq<Part>, indexInRunner: nat, indexInServer: nat, runner: seq<nat>, server: seq<nat>)
    requires Total(server) == Total(runner) > 0
    requires Walked(parts, Total(runner), indexInRunner, indexInServer, runner, server)
    ensures ZerosTrail(runner) <==> IsCut(parts, runner, server)
  {
    var last := parts[|parts| - 1];
    var r, s := last.rankRunner, last.rankServer;
    StartMonotone(runner, r + 1, |runner|);
    StartMonotone(server, s + 1, |server|);
    if ZerosTrail(runner) {
      assert IsOpen(last, Total(runner), runner, server);
      if runner[r] == 0 {
        NothingAfterZero(runner, r, |runner|);
        assert false;
      }
      assert IsOverlap(last, runner, server);
    } else if IsCut(parts, runner, server) {
      assert IsOverlap(last, runner, server);
      assert Start(runner, r + 1) == Total(runner);
      forall j, k | 0 <= j < k < |runner| && runner[j] == 0 ensures runner[k] == 0 {
        assert r <= j;
        assert runner[r] > 0;
        StartMonotone(runner, r + 1, k);
        StartMonotone(runner, k + 1, |runner|);
      }
    }
  }
}
