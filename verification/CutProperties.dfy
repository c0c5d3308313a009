/**
  What follows from being a cut: every byte lies in one part, the two layouts determine
  the cut, parts respect element borders, and the cut of a vector of other element size
  is the same cut in other units.
 */
module CutProperties {
  import opened Redistribution

  ghost predicate Covers(p: Part, g: nat, runner: seq<nat>)
    requires p.rankRunner < |runner|
  {
    Begin(p, runner) <= g < Begin(p, runner) + p.count
  }

  lemma {:induction false} FindPart(parts: seq<Part>, n: nat, g: nat, runner: seq<nat>, server: seq<nat>)
    returns (k: nat)
    requires IsCut(parts, runner, server) && 0 < n <= |parts|
    requires g < Begin(parts[n - 1], runner) + parts[n - 1].count
    ensures k < n && Covers(parts[k], g, runner)
  {
    if g >= Begin(parts[n - 1], runner) {
      k := n - 1;
    } else {
      assert n > 1;
      assert Adjacent(parts[n - 2], parts[n - 1], runner);
      k := FindPart(parts, n - 1, g, runner, server);
    }
  }

  lemma {:induction false} PartsAdvance(parts: seq<Part>, j: nat, k: nat, runner: seq<nat>, server: seq<nat>)
    requires IsCut(parts, runner, server) && j < k < |parts|
    ensures Begin(parts[j], runner) + parts[j].count <= Begin(parts[k], runner)
  {
    assert Adjacent(parts[k - 1], parts[k], runner);
    if j < k - 1 {
      PartsAdvance(parts, j, k - 1, runner, server);
    }
  }

  /** Every byte of the vector lies in exactly one part, and both coordinates of the part
      address it inside the blocks they belong to. */
  lemma EveryByteOnce(parts: seq<Part>, g: nat, runner: seq<nat>, server: seq<nat>)
    requires IsCut(parts, runner, server) && g < Total(runner)
    ensures exists k ::
              && 0 <= k < |parts|
              && Covers(parts[k], g, runner)
              && (forall j :: 0 <= j < |parts| && Covers(parts[j], g, runner) ==> j == k)
  {
    var k := FindPart(parts, |parts|, g, runner, server);
    forall j | 0 <= j < |parts| && Covers(parts[j], g, runner) ensures j == k {
      if j < k {
        PartsAdvance(parts, j, k, runner, server);
      } else if k < j {
        PartsAdvance(parts, k, j, runner, server);
      }
    }
  }

  /** A byte of a part lies in the two blocks of the part. */
  lemma CoveredBlocks(p: Part, g: nat, r: nat, s: nat, runner: seq<nat>, server: seq<nat>)
    requires IsOverlap(p, runner, server) && Covers(p, g, runner)
    requires r < |runner| && s < |server|
    requires Start(runner, r) <= g < Start(runner, r + 1)
    requires Start(server, s) <= g < Start(server, s + 1)
    ensures p.rankRunner == r && p.rankServer == s
  {
    BlockUnique(runner, p.rankRunner, r, g);
    BlockUnique(server, p.rankServer, s, g);
  }

  ghost predicate BlocksMeet(r: nat, s: nat, runner: seq<nat>, server: seq<nat>)
    requires r < |runner| && s < |server|
  {
    Max(Start(runner, r), Start(server, s)) < Min(Start(runner, r + 1), Start(server, s + 1))
  }

  /** A pair of ranks exchanges data exactly if their blocks meet, and then through one part. */
  lemma OnePartPerPair(parts: seq<Part>, r: nat, s: nat, runner: seq<nat>, server: seq<nat>)
    requires IsCut(parts, runner, server) && Total(server) == Total(runner)
    requires r < |runner| && s < |server|
    ensures BlocksMeet(r, s, runner, server) <==>
            exists k :: 0 <= k < |parts| && parts[k].rankRunner == r && parts[k].rankServer == s
    ensures forall j, k ::
              && 0 <= j < |parts| && parts[j].rankRunner == r && parts[j].rankServer == s
              && 0 <= k < |parts| && parts[k].rankRunner == r && parts[k].rankServer == s
              ==> j == k
  {
    if BlocksMeet(r, s, runner, server) {
      var g := Max(Start(runner, r), Start(server, s));
      StartMonotone(runner, r + 1, |runner|);
      var k := FindPart(parts, |parts|, g, runner, server);
      CoveredBlocks(parts[k], g, r, s, runner, server);
    }
    forall j, k |
      && 0 <= j < |parts| && parts[j].rankRunner == r && parts[j].rankServer == s
      && 0 <= k < |parts| && parts[k].rankRunner == r && parts[k].rankServer == s
      ensures j == k
    {
      assert IsOverlap(parts[j], runner, server) && IsOverlap(parts[k], runner, server);
      if j < k {
        PartsAdvance(parts, j, k, runner, server);
      } else if k < j {
        PartsAdvance(parts, k, j, runner, server);
      }
    }
  }

  /** Parts come in the order of the ranks, so there are few of them. */
  lemma {:induction false} RanksGrow(parts: seq<Part>, k: nat, runner: seq<nat>, server: seq<nat>)
    requires IsCut(parts, runner, server) && k < |parts|
    ensures k <= parts[k].rankRunner + parts[k].rankServer
    ensures k > 0 ==>
              && parts[k - 1].rankRunner <= parts[k].rankRunner
              && parts[k - 1].rankServer <= parts[k].rankServer
              && (parts[k - 1].rankRunner, parts[k - 1].rankServer) != (parts[k].rankRunner, parts[k].rankServer)
  {
    if k > 0 {
      RanksGrow(parts, k - 1, runner, server);
      var p, q := parts[k - 1], parts[k];
      assert Adjacent(p, q, runner);
      assert IsOverlap(p, runner, server) && IsOverlap(q, runner, server);
      if q.rankRunner < p.rankRunner {
        StartMonotone(runner, q.rankRunner + 1, p.rankRunner);
      }
      if q.rankServer < p.rankServer {
        StartMonotone(server, q.rankServer + 1, p.rankServer);
      }
    }
  }

  lemma FewParts(parts: seq<Part>, runner: seq<nat>, server: seq<nat>)
    requires IsCut(parts, runner, server) && |parts| > 0
    ensures |parts| <= |runner| + |server| - 1
  {
    RanksGrow(parts, |parts| - 1, runner, server);
  }

  // ----- the layouts determine the cut -------------------------------------

  lemma OverlapDetermined(p: Part, q: Part, runner: seq<nat>, server: seq<nat>)
    requires IsOverlap(p, runner, server) && IsOverlap(q, runner, server)
    requires Begin(p, runner) == Begin(q, runner)
    ensures p == q
  {
    BlockUnique(runner, p.rankRunner, q.rankRunner, Begin(p, runner));
    BlockUnique(server, p.rankServer, q.rankServer, Begin(p, runner));
  }

  lemma {:induction false} PrefixUnique(ps: seq<Part>, qs: seq<Part>, n: nat, runner: seq<nat>, server: seq<nat>)
    requires IsCut(ps, runner, server) && IsCut(qs, runner, server)
    requires n <= |ps|
    ensures n <= |qs| && ps[..n] == qs[..n]
  {
    if n > 0 {
      PrefixUnique(ps, qs, n - 1, runner, server);
      var k := n - 1;
      if k > 0 {
        assert Adjacent(ps[k - 1], ps[k], runner);
        assert ps[k - 1] == ps[..k][k - 1] == qs[..k][k - 1] == qs[k - 1];
        if k < |qs| {
          assert Adjacent(qs[k - 1], qs[k], runner);
        } else {
          PartsEndInside(ps, k, runner, server);
        }
      }
      OverlapDetermined(ps[k], qs[k], runner, server);
      assert ps[..n] == ps[..k] + [ps[k]];
      assert qs[..n] == qs[..k] + [qs[k]];
    }
  }

  lemma PartsEndInside(parts: seq<Part>, k: nat, runner: seq<nat>, server: seq<nat>)
    requires IsCut(parts, runner, server) && k < |parts|
    ensures Begin(parts[k], runner) < Total(runner)
  {
    if k < |parts| - 1 {
      PartsAdvance(parts, k, |parts| - 1, runner, server);
    }
  }

  /** Sender and receiver compute the list separately; they cannot disagree. */
  lemma CutUnique(ps: seq<Part>, qs: seq<Part>, runner: seq<nat>, server: seq<nat>)
    requires IsCut(ps, runner, server) && IsCut(qs, runner, server)
    ensures ps == qs
  {
    PrefixUnique(ps, qs, |ps|, runner, server);
    PrefixUnique(qs, ps, |qs|, runner, server);
  }

  // ----- elements ----------------------------------------------------------

  function Scaled(sizes: seq<nat>, b: nat): (t: seq<nat>)
    ensures |t| == |sizes|
  {
    seq(|sizes|, i requires 0 <= i < |sizes| => sizes[i] * b)
  }

  function ScaledPart(p: Part, b: nat): Part {
    p.(offsetRunner := p.offsetRunner * b, offsetServer := p.offsetServer * b, count := p.count * b)
  }

  function ScaledParts(parts: seq<Part>, b: nat): (t: seq<Part>)
    ensures |t| == |parts|
  {
    seq(|parts|, i requires 0 <= i < |parts| => ScaledPart(parts[i], b))
  }

  lemma {:induction false} StartScaled(sizes: seq<nat>, b: nat, k: nat)
    requires k <= |sizes|
    ensures Start(Scaled(sizes, b), k) == Start(sizes, k) * b
  {
    if k > 0 {
      StartScaled(sizes, b, k - 1);
      Distribute(Start(sizes, k - 1), sizes[k - 1], b);
    }
  }

  lemma TimesKeepsOrder(x: int, y: int, b: int)
    requires b > 0
    ensures x < y <==> x * b < y * b
    ensures x == y <==> x * b == y * b
  {
    if x < y {
      Distribute(x, y - x, b);
      Grows(b, y - x);
    } else if y < x {
      Distribute(y, x - y, b);
      Grows(b, x - y);
    }
  }

  /** Being an overlap does not depend on the unit of length. */
  lemma OverlapScaled(p: Part, b: nat, runner: seq<nat>, server: seq<nat>)
    requires b > 0 && InRange(p, runner, server)
    ensures IsOverlap(p, runner, server) <==> IsOverlap(ScaledPart(p, b), Scaled(runner, b), Scaled(server, b))
    ensures Begin(ScaledPart(p, b), Scaled(runner, b)) == Begin(p, runner) * b
  {
    var r, s := p.rankRunner, p.rankServer;
    StartScaled(runner, b, r);
    StartScaled(runner, b, r + 1);
    StartScaled(server, b, s);
    StartScaled(server, b, s + 1);
    Distribute(Start(runner, r), p.offsetRunner, b);
    Distribute(Start(server, s), p.offsetServer, b);
    Distribute(Begin(p, runner), p.count, b);
    TimesKeepsOrder(0, p.count, b);
    TimesKeepsOrder(Begin(p, runner), Start(server, s) + p.offsetServer, b);
    TimesKeepsOrder(Start(runner, r), Start(server, s), b);
    TimesKeepsOrder(Start(runner, r + 1), Start(server, s + 1), b);
    TimesKeepsOrder(Begin(p, runner), Start(runner, r), b);
    TimesKeepsOrder(Begin(p, runner), Start(server, s), b);
    TimesKeepsOrder(Begin(p, runner) + p.count, Start(runner, r + 1), b);
    TimesKeepsOrder(Begin(p, runner) + p.count, Start(server, s + 1), b);
  }

  lemma AdjacentScaled(p: Part, q: Part, b: nat, runner: seq<nat>)
    requires b > 0 && p.rankRunner < |runner| && q.rankRunner < |runner|
    ensures Adjacent(p, q, runner) <==> Adjacent(ScaledPart(p, b), ScaledPart(q, b), Scaled(runner, b))
    ensures Begin(ScaledPart(p, b), Scaled(runner, b)) == Begin(p, runner) * b
    ensures Begin(ScaledPart(p, b), Scaled(runner, b)) + p.count * b == (Begin(p, runner) + p.count) * b
  {
    StartScaled(runner, b, p.rankRunner);
    StartScaled(runner, b, q.rankRunner);
    Distribute(Start(runner, p.rankRunner), p.offsetRunner, b);
    Distribute(Start(runner, q.rankRunner), q.offsetRunner, b);
    Distribute(Begin(p, runner), p.count, b);
    TimesKeepsOrder(Begin(q, runner), Begin(p, runner) + p.count, b);
  }

  lemma FillScaled(parts: seq<Part>, b: nat, runner: seq<nat>)
    requires b > 0 && forall k :: 0 <= k < |parts| ==> parts[k].rankRunner < |runner|
    ensures FillVector(parts, runner) <==> FillVector(ScaledParts(parts, b), Scaled(runner, b))
  {
    StartScaled(runner, b, |runner|);
    TimesKeepsOrder(0, Total(runner), b);
    if |parts| > 0 {
      var first, last := parts[0], parts[|parts| - 1];
      AdjacentScaled(first, first, b, runner);
      AdjacentScaled(last, last, b, runner);
      TimesKeepsOrder(Begin(first, runner), 0, b);
      TimesKeepsOrder(Begin(last, runner) + last.count, Total(runner), b);
    }
  }

  lemma AreAdjacentScaled(parts: seq<Part>, b: nat, runner: seq<nat>)
    requires b > 0 && forall k :: 0 <= k < |parts| ==> parts[k].rankRunner < |runner|
    ensures AreAdjacent(parts, runner) <==> AreAdjacent(ScaledParts(parts, b), Scaled(runner, b))
  {
    var scaled := ScaledParts(parts, b);
    forall k | 0 < k < |parts|
      ensures Adjacent(parts[k - 1], parts[k], runner) <==> Adjacent(scaled[k - 1], scaled[k], Scaled(runner, b))
    {
      AdjacentScaled(parts[k - 1], parts[k], b, runner);
    }
  }

  lemma AreOverlapsScaled(parts: seq<Part>, b: nat, runner: seq<nat>, server: seq<nat>)
    requires b > 0 && forall k :: 0 <= k < |parts| ==> InRange(parts[k], runner, server)
    ensures AreOverlaps(parts, runner, server)
            <==> AreOverlaps(ScaledParts(parts, b), Scaled(runner, b), Scaled(server, b))
  {
    var scaled := ScaledParts(parts, b);
    forall k | 0 <= k < |parts|
      ensures IsOverlap(parts[k], runner, server) <==> IsOverlap(scaled[k], Scaled(runner, b), Scaled(server, b))
    {
      OverlapScaled(parts[k], b, runner, server);
    }
  }

  lemma CutScaled(parts: seq<Part>, b: nat, runner: seq<nat>, server: seq<nat>)
    requires b > 0 && forall k :: 0 <= k < |parts| ==> InRange(parts[k], runner, server)
    ensures IsCut(parts, runner, server) <==> IsCut(ScaledParts(parts, b), Scaled(runner, b), Scaled(server, b))
  {
    AreOverlapsScaled(parts, b, runner, server);
    AreAdjacentScaled(parts, b, runner);
    FillScaled(parts, b, runner);
  }

  lemma ServerSizesScaled(commSize: nat, elements: nat, b: nat)
    requires commSize > 0 && b > 0
    ensures ServerSizes(commSize, elements * b, b) == Scaled(ServerSizes(commSize, elements, 1), b)
  {
    MultipleHasNoRest(elements, b);
    var left, right := ServerSizes(commSize, elements * b, b), Scaled(ServerSizes(commSize, elements, 1), b);
    forall i | 0 <= i < commSize ensures left[i] == right[i] {
    }
  }

  lemma DifferenceOfMultiples(x: int, y: int, b: nat)
    requires b > 0 && x % b == 0 && y % b == 0
    ensures (x - y) % b == 0
  {
    var d := x / b - y / b;
    assert x == b * (x / b) && y == b * (y / b);
    assert x - y == b * d by {
      Distribute(x / b, -(y / b), b);
    }
    DivisionIsUnique(x - y, b, (x - y) / b, (x - y) % b, d, 0);
  }

  lemma BorderAligned(elements: seq<nat>, b: nat, k: nat)
    requires b > 0 && k <= |elements|
    ensures Start(Scaled(elements, b), k) % b == 0
  {
    StartScaled(elements, b, k);
    MultipleHasNoRest(Start(elements, k), b);
  }

  lemma OverlapAligned(p: Part, runnerElements: seq<nat>, serverElements: seq<nat>, b: nat)
    requires b > 0 && IsOverlap(p, Scaled(runnerElements, b), Scaled(serverElements, b))
    ensures p.offsetRunner % b == 0 && p.offsetServer % b == 0 && p.count % b == 0
  {
    var runner, server := Scaled(runnerElements, b), Scaled(serverElements, b);
    var first, end := Begin(p, runner), Begin(p, runner) + p.count;
    BorderAligned(runnerElements, b, p.rankRunner);
    BorderAligned(runnerElements, b, p.rankRunner + 1);
    BorderAligned(serverElements, b, p.rankServer);
    BorderAligned(serverElements, b, p.rankServer + 1);
    DifferenceOfMultiples(first, Start(runner, p.rankRunner), b);
    DifferenceOfMultiples(first, Start(server, p.rankServer), b);
    DifferenceOfMultiples(end, first, b);
  }

  /** No part begins or ends inside an element. */
  lemma PartsKeepElementsWhole(parts: seq<Part>, elements: seq<nat>, serverElements: seq<nat>, b: nat)
    requires b > 0 && IsCut(parts, Scaled(elements, b), Scaled(serverElements, b))
    ensures forall k :: 0 <= k < |parts| ==>
              && parts[k].offsetRunner % b == 0
              && parts[k].offsetServer % b == 0
              && parts[k].count % b == 0
  {
    forall k | 0 <= k < |parts|
      ensures parts[k].offsetRunner % b == 0 && parts[k].offsetServer % b == 0 && parts[k].count % b == 0
    {
      OverlapAligned(parts[k], elements, serverElements, b);
    }
  }

  function InElements(p: Part, b: nat): Part
    requires b > 0
  {
    p.(offsetRunner := p.offsetRunner / b, offsetServer := p.offsetServer / b, count := p.count / b)
  }

  /** A cut of bytes is a cut of elements, written in bytes. */
  lemma CutOfElements(parts: seq<Part>, elements: seq<nat>, serverElements: seq<nat>, b: nat) returns (cut: seq<Part>)
    requires b > 0 && IsCut(parts, Scaled(elements, b), Scaled(serverElements, b))
    ensures IsCut(cut, elements, serverElements)
    ensures parts == ScaledParts(cut, b)
  {
    PartsKeepElementsWhole(parts, elements, serverElements, b);
    cut := PartsInElements(parts, b);
    CutScaled(cut, b, elements, serverElements);
  }

  lemma PartsInElements(parts: seq<Part>, b: nat) returns (cut: seq<Part>)
    requires b > 0
    requires forall k :: 0 <= k < |parts| ==>
               parts[k].offsetRunner % b == 0 && parts[k].offsetServer % b == 0 && parts[k].count % b == 0
    ensures parts == ScaledParts(cut, b)
    ensures forall k :: 0 <= k < |parts| ==>
              cut[k].rankRunner == parts[k].rankRunner && cut[k].rankServer == parts[k].rankServer
  {
    cut := seq(|parts|, i requires 0 <= i < |parts| => InElements(parts[i], b));
    forall k | 0 <= k < |parts| ensures ScaledParts(cut, b)[k] == parts[k] {
      BackToBytes(parts[k], b);
    }
  }

  lemma BackToBytes(p: Part, b: nat)
    requires b > 0 && p.offsetRunner % b == 0 && p.offsetServer % b == 0 && p.count % b == 0
    ensures ScaledPart(InElements(p, b), b) == p
  {
  }

  /** The assimilated and the hidden vector, with equally many elements on each runner rank but
      elements of different size, are cut into parts of the same ranks in the same order, and
      offsets and counts differ by the element size only. */
  lemma ScalingLaw(parts: seq<Part>, hidden: seq<Part>, elements: seq<nat>, commSize: nat, b: nat, c: nat)
    requires commSize > 0 && b > 0 && c > 0
    requires IsCut(parts, Scaled(elements, b), ServerSizes(commSize, Total(elements) * b, b))
    requires IsCut(hidden, Scaled(elements, c), ServerSizes(commSize, Total(elements) * c, c))
    ensures |parts| == |hidden|
    ensures forall k :: 0 <= k < |parts| ==>
              && parts[k].rankRunner == hidden[k].rankRunner
              && parts[k].rankServer == hidden[k].rankServer
              && parts[k].offsetRunner * c == hidden[k].offsetRunner * b
              && parts[k].offsetServer * c == hidden[k].offsetServer * b
              && parts[k].count * c == hidden[k].count * b
  {
    var server := ServerSizes(commSize, Total(elements), 1);
    ServerSizesScaled(commSize, Total(elements), b);
    ServerSizesScaled(commSize, Total(elements), c);
    var cut := CutOfElements(parts, elements, server, b);
    var cut' := CutOfElements(hidden, elements, server, c);
    CutUnique(cut, cut', elements, server);
    forall k | 0 <= k < |parts|
      ensures parts[k].offsetRunner * c == hidden[k].offsetRunner * b
      ensures parts[k].offsetServer * c == hidden[k].offsetServer * b
      ensures parts[k].count * c == hidden[k].count * b
    {
      Commute(cut[k].offsetRunner, b, c);
      Commute(cut[k].offsetServer, b, c);
      Commute(cut[k].count, b, c);
    }
  }

  lemma Commute(a: int, b: int, c: int)
    ensures a * b * c == a * c * b
  {
  }
}
