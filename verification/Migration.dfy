/**
  What the part list is for: a state that is sent along it, stored by the server ranks and
  fetched again comes back unchanged (api/api_common.cxx, server/Field.cxx,
  server/EnsembleMember.cxx).
 */
module Migration {
  import opened Integers
  import opened Redistribution
  import opened CutProperties

  newtype byte = x: int | 0 <= x < 256

  // ----- vectors -----------------------------------------------------------

  /** The global vector of which `blocks` are the local parts. */
  function Flatten<T>(blocks: seq<seq<T>>): seq<T> {
    if |blocks| == 0 then [] else Flatten(blocks[..|blocks| - 1]) + blocks[|blocks| - 1]
  }

  ghost predicate HasLayout<T>(blocks: seq<seq<T>>, sizes: seq<nat>) {
    |blocks| == |sizes| && forall k :: 0 <= k < |blocks| ==> |blocks[k]| == sizes[k]
  }

  lemma {:induction false} StartOfPrefix(sizes: seq<nat>, n: nat, k: nat)
    requires k <= n <= |sizes|
    ensures Start(sizes[..n], k) == Start(sizes, k)
  {
    if k > 0 {
      StartOfPrefix(sizes, n, k - 1);
    }
  }

  lemma {:induction false} FlattenIndex<T>(blocks: seq<seq<T>>, sizes: seq<nat>, k: nat)
    requires HasLayout(blocks, sizes) && k < |blocks|
    ensures |Flatten(blocks)| == Total(sizes)
    ensures Start(sizes, k) + sizes[k] <= Total(sizes)
    ensures Flatten(blocks)[Start(sizes, k)..Start(sizes, k) + sizes[k]] == blocks[k]
    decreases |blocks|
  {
    var n := |blocks| - 1;
    StartOfPrefix(sizes, n, n);
    FlattenLength(blocks[..n], sizes[..n]);
    if k < n {
      StartOfPrefix(sizes, n, k);
      FlattenIndex(blocks[..n], sizes[..n], k);
    }
  }

  lemma {:induction false} FlattenLength<T>(blocks: seq<seq<T>>, sizes: seq<nat>)
    requires HasLayout(blocks, sizes)
    ensures |Flatten(blocks)| == Total(sizes)
  {
    if |blocks| > 0 {
      var n := |blocks| - 1;
      FlattenLength(blocks[..n], sizes[..n]);
      StartOfPrefix(sizes, n, n);
    }
  }

  /** The effect of copying `values` into `memory` from position `offset` on. */
  function Splice<T>(memory: seq<T>, offset: nat, values: seq<T>): (t: seq<T>)
    requires offset + |values| <= |memory|
    ensures |t| == |memory|
    ensures forall i :: 0 <= i < |memory| ==>
              t[i] == if offset <= i < offset + |values| then values[i - offset] else memory[i]
  {
    memory[..offset] + values + memory[offset + |values|..]
  }

  // ----- filling a block from pieces ---------------------------------------

  datatype Piece<T> = Piece(offset: nat, values: seq<T>)

  ghost predicate AllPiecesFit<T>(pieces: seq<Piece<T>>, length: nat) {
    forall k :: 0 <= k < |pieces| ==> pieces[k].offset + |pieces[k].values| <= length
  }

  /** Memory after all pieces have been copied into it, in the order given. */
  function Fill<T>(memory: seq<T>, pieces: seq<Piece<T>>): (t: seq<T>)
    requires AllPiecesFit(pieces, |memory|)
    ensures |t| == |memory|
  {
    if |pieces| == 0 then memory
    else
      var n := |pieces| - 1;
      Splice(Fill(memory, pieces[..n]), pieces[n].offset, pieces[n].values)
  }

  ghost predicate Touches<T>(piece: Piece<T>, i: nat) {
    piece.offset <= i < piece.offset + |piece.values|
  }

  ghost predicate Touched<T>(pieces: seq<Piece<T>>, i: nat) {
    exists k :: 0 <= k < |pieces| && Touches(pieces[k], i)
  }

  ghost predicate Agrees<T>(piece: Piece<T>, wanted: seq<T>) {
    piece.offset + |piece.values| <= |wanted| && piece.values == wanted[piece.offset..piece.offset + |piece.values|]
  }

  /** If every piece shows a section of `wanted` and together they touch every position, the
      order of arrival, repetitions and the former contents do not matter. */
  lemma {:induction false} FillGivesWanted<T>(memory: seq<T>, pieces: seq<Piece<T>>, wanted: seq<T>)
    requires |memory| == |wanted|
    requires AllPiecesFit(pieces, |memory|)
    requires forall k :: 0 <= k < |pieces| ==> Agrees(pieces[k], wanted)
    ensures forall i :: 0 <= i < |wanted| && Touched(pieces, i) ==>
              Fill(memory, pieces)[i] == wanted[i]
  {
    if |pieces| > 0 {
      var n := |pieces| - 1;
      FillGivesWanted(memory, pieces[..n], wanted);
      assert Agrees(pieces[n], wanted);
      forall i | 0 <= i < |wanted| && Touched(pieces, i)
        ensures Fill(memory, pieces)[i] == wanted[i]
      {
        if !Touches(pieces[n], i) {
          var k :| 0 <= k < |pieces| && Touches(pieces[k], i);
          assert pieces[..n][k] == pieces[k];
        }
      }
    }
  }

  // ----- messages between a runner and the server --------------------------

  /** `count` values of block k, from position `offset` of the block on. */
  function Section<T>(blocks: seq<seq<T>>, k: nat, offset: nat, count: nat): seq<T> {
    if k < |blocks| && offset + count <= |blocks[k]| then blocks[k][offset..offset + count] else []
  }

  /** What runner rank p.rankRunner sends for part p. */
  function Upload(p: Part, runnerBlocks: seq<seq<byte>>): Piece<byte> {
    Piece(p.offsetServer, Section(runnerBlocks, p.rankRunner, p.offsetRunner, p.count))
  }

  /** What server rank p.rankServer answers for part p. */
  function Download(p: Part, serverBlocks: seq<seq<byte>>): Piece<byte> {
    Piece(p.offsetRunner, Section(serverBlocks, p.rankServer, p.offsetServer, p.count))
  }

  /** Every part fits into the two blocks it connects: the bounds asserted by the code. */
  ghost predicate AllFit(parts: seq<Part>, runner: seq<nat>, server: seq<nat>) {
    forall k :: 0 <= k < |parts| ==>
      && InRange(parts[k], runner, server)
      && parts[k].offsetRunner + parts[k].count <= runner[parts[k].rankRunner]
      && parts[k].offsetServer + parts[k].count <= server[parts[k].rankServer]
  }

  lemma CutFits(parts: seq<Part>, runner: seq<nat>, server: seq<nat>)
    requires IsCut(parts, runner, server)
    ensures AllFit(parts, runner, server)
  {
    forall k | 0 <= k < |parts|
      ensures parts[k].offsetRunner + parts[k].count <= runner[parts[k].rankRunner]
      ensures parts[k].offsetServer + parts[k].count <= server[parts[k].rankServer]
    {
      assert IsOverlap(parts[k], runner, server);
    }
  }

  /** `arrivals` lists, in any order and perhaps repeatedly, the parts of server rank s: all of them. */
  ghost predicate CompleteForServer(arrivals: seq<nat>, parts: seq<Part>, s: nat) {
    && (forall i :: 0 <= i < |arrivals| ==> arrivals[i] < |parts| && parts[arrivals[i]].rankServer == s)
    && (forall k :: 0 <= k < |parts| && parts[k].rankServer == s ==> k in arrivals)
  }

  ghost predicate CompleteForRunner(replies: seq<nat>, parts: seq<Part>, r: nat) {
    && (forall i :: 0 <= i < |replies| ==> replies[i] < |parts| && parts[replies[i]].rankRunner == r)
    && (forall k :: 0 <= k < |parts| && parts[k].rankRunner == r ==> k in replies)
  }

  function Uploads(arrivals: seq<nat>, parts: seq<Part>, runnerBlocks: seq<seq<byte>>): (pieces: seq<Piece<byte>>)
    requires forall i :: 0 <= i < |arrivals| ==> arrivals[i] < |parts|
    ensures |pieces| == |arrivals|
  {
    seq(|arrivals|, i requires 0 <= i < |arrivals| => Upload(parts[arrivals[i]], runnerBlocks))
  }

  function Downloads(replies: seq<nat>, parts: seq<Part>, serverBlocks: seq<seq<byte>>): (pieces: seq<Piece<byte>>)
    requires forall i :: 0 <= i < |replies| ==> replies[i] < |parts|
    ensures |pieces| == |replies|
  {
    seq(|replies|, i requires 0 <= i < |replies| => Download(parts[replies[i]], serverBlocks))
  }

  /** The local block of a global vector. */
  function Block<T>(vector: seq<T>, sizes: seq<nat>, k: nat): seq<T>
    requires k < |sizes| && Start(sizes, k + 1) <= |vector|
  {
    vector[Start(sizes, k)..Start(sizes, k + 1)]
  }

  lemma SliceOfSlice<T>(s: seq<T>, a: nat, b: nat, c: nat, d: nat)
    requires a <= b <= |s| && c <= d <= b - a
    ensures s[a..b][c..d] == s[a + c..a + d]
  {
    var left, right := s[a..b][c..d], s[a + c..a + d];
    assert forall i :: 0 <= i < d - c ==> left[i] == right[i];
  }

  /** A part, cut out of the runner's or the server's block of a vector, is the same section. */
  lemma SameSection<T>(p: Part, vector: seq<T>, runner: seq<nat>, server: seq<nat>)
    requires IsOverlap(p, runner, server)
    requires Start(runner, p.rankRunner + 1) <= |vector| && Start(server, p.rankServer + 1) <= |vector|
    ensures p.offsetRunner + p.count <= runner[p.rankRunner]
    ensures p.offsetServer + p.count <= server[p.rankServer]
    ensures Block(vector, runner, p.rankRunner)[p.offsetRunner..p.offsetRunner + p.count]
            == Block(vector, server, p.rankServer)[p.offsetServer..p.offsetServer + p.count]
  {
    var r, s := p.rankRunner, p.rankServer;
    SliceOfSlice(vector, Start(runner, r), Start(runner, r + 1), p.offsetRunner, p.offsetRunner + p.count);
    SliceOfSlice(vector, Start(server, s), Start(server, s + 1), p.offsetServer, p.offsetServer + p.count);
  }

  ghost predicate AreBlocksOf<T>(blocks: seq<seq<T>>, vector: seq<T>, sizes: seq<nat>) {
    && |blocks| == |sizes| && Total(sizes) == |vector|
    && forall k :: 0 <= k < |sizes| ==> IsBlock(blocks[k], vector, sizes, k)
  }

  ghost predicate IsBlock<T>(block: seq<T>, vector: seq<T>, sizes: seq<nat>, k: nat)
    requires k < |sizes|
  {
    Start(sizes, k + 1) <= |vector| && block == Block(vector, sizes, k)
  }

  lemma FlattenedBlocks<T>(blocks: seq<seq<T>>, sizes: seq<nat>)
    requires HasLayout(blocks, sizes)
    ensures AreBlocksOf(blocks, Flatten(blocks), sizes)
  {
    FlattenLength(blocks, sizes);
    forall k | 0 <= k < |sizes|
      ensures IsBlock(blocks[k], Flatten(blocks), sizes, k)
    {
      FlattenIndex(blocks, sizes, k);
    }
  }

  lemma UploadAgrees(p: Part, runnerBlocks: seq<seq<byte>>, vector: seq<byte>, runner: seq<nat>, server: seq<nat>)
    requires IsOverlap(p, runner, server) && AreBlocksOf(runnerBlocks, vector, runner)
    requires Start(server, p.rankServer + 1) <= |vector|
    ensures Agrees(Upload(p, runnerBlocks), Block(vector, server, p.rankServer))
  {
    assert IsBlock(runnerBlocks[p.rankRunner], vector, runner, p.rankRunner);
    SameSection(p, vector, runner, server);
  }

  lemma DownloadAgrees(p: Part, serverBlocks: seq<seq<byte>>, vector: seq<byte>, runner: seq<nat>, server: seq<nat>)
    requires IsOverlap(p, runner, server) && AreBlocksOf(serverBlocks, vector, server)
    requires Start(runner, p.rankRunner + 1) <= |vector|
    ensures Agrees(Download(p, serverBlocks), Block(vector, runner, p.rankRunner))
  {
    assert IsBlock(serverBlocks[p.rankServer], vector, server, p.rankServer);
    SameSection(p, vector, runner, server);
  }

  lemma ServerPositionTouched(arrivals: seq<nat>, parts: seq<Part>, s: nat, x: nat,
                              runner: seq<nat>, server: seq<nat>) returns (i: nat)
    requires IsCut(parts, runner, server) && Total(server) == Total(runner)
    requires s < |server| && x < server[s] && CompleteForServer(arrivals, parts, s)
    ensures i < |arrivals|
    ensures parts[arrivals[i]].offsetServer <= x < parts[arrivals[i]].offsetServer + parts[arrivals[i]].count
  {
    StartMonotone(server, s + 1, |server|);
    var k := FindPart(parts, |parts|, Start(server, s) + x, runner, server);
    BlockUnique(server, parts[k].rankServer, s, Start(server, s) + x);
    i :| 0 <= i < |arrivals| && arrivals[i] == k;
  }

  lemma RunnerPositionTouched(replies: seq<nat>, parts: seq<Part>, r: nat, x: nat,
                              runner: seq<nat>, server: seq<nat>) returns (i: nat)
    requires IsCut(parts, runner, server) && Total(server) == Total(runner)
    requires r < |runner| && x < runner[r] && CompleteForRunner(replies, parts, r)
    ensures i < |replies|
    ensures parts[replies[i]].offsetRunner <= x < parts[replies[i]].offsetRunner + parts[replies[i]].count
  {
    StartMonotone(runner, r + 1, |runner|);
    var k := FindPart(parts, |parts|, Start(runner, r) + x, runner, server);
    BlockUnique(runner, parts[k].rankRunner, r, Start(runner, r) + x);
    i :| 0 <= i < |replies| && replies[i] == k;
  }

  /** Whatever the order of the messages and whatever was stored before, the server rank ends up
      with its block of the runner's vector. */
  lemma StoredBlock(memory: seq<byte>, arrivals: seq<nat>, parts: seq<Part>, s: nat,
                    runnerBlocks: seq<seq<byte>>, vector: seq<byte>, runner: seq<nat>, server: seq<nat>)
    requires IsCut(parts, runner, server) && Total(server) == Total(runner)
    requires AreBlocksOf(runnerBlocks, vector, runner) && s < |server| && |memory| == server[s]
    requires CompleteForServer(arrivals, parts, s)
    ensures Start(server, s + 1) <= |vector|
    ensures AllPiecesFit(Uploads(arrivals, parts, runnerBlocks), |memory|)
    ensures Fill(memory, Uploads(arrivals, parts, runnerBlocks)) == Block(vector, server, s)
  {
    StartMonotone(server, s + 1, |server|);
    var pieces, wanted := Uploads(arrivals, parts, runnerBlocks), Block(vector, server, s);
    forall i | 0 <= i < |pieces| ensures Agrees(pieces[i], wanted) {
      UploadAgrees(parts[arrivals[i]], runnerBlocks, vector, runner, server);
    }
    FillGivesWanted(memory, pieces, wanted);
    BlocksHaveLayout(runnerBlocks, vector, runner);
    UploadsTouch(arrivals, parts, s, runnerBlocks, runner, server);
  }

  /** Together the messages for a server rank touch every position of its block. */
  lemma UploadsTouch(arrivals: seq<nat>, parts: seq<Part>, s: nat, runnerBlocks: seq<seq<byte>>,
                     runner: seq<nat>, server: seq<nat>)
    requires IsCut(parts, runner, server) && Total(server) == Total(runner) && HasLayout(runnerBlocks, runner)
    requires s < |server| && CompleteForServer(arrivals, parts, s)
    ensures forall x :: 0 <= x < server[s] ==> Touched(Uploads(arrivals, parts, runnerBlocks), x)
  {
    var pieces := Uploads(arrivals, parts, runnerBlocks);
    CutFits(parts, runner, server);
    forall x | 0 <= x < server[s] ensures Touched(pieces, x) {
      var i := ServerPositionTouched(arrivals, parts, s, x, runner, server);
      assert Touches(pieces[i], x);
    }
  }

  lemma BlocksHaveLayout<T>(blocks: seq<seq<T>>, vector: seq<T>, sizes: seq<nat>)
    requires AreBlocksOf(blocks, vector, sizes)
    ensures HasLayout(blocks, sizes)
  {
    forall k | 0 <= k < |sizes| ensures |blocks[k]| == sizes[k] {
      assert IsBlock(blocks[k], vector, sizes, k);
    }
  }

  /** Reading back through the same list gives every runner rank its own block again. */
  lemma FetchedBlock(memory: seq<byte>, replies: seq<nat>, parts: seq<Part>, r: nat,
                     serverBlocks: seq<seq<byte>>, vector: seq<byte>, runner: seq<nat>, server: seq<nat>)
    requires IsCut(parts, runner, server) && Total(server) == Total(runner)
    requires AreBlocksOf(serverBlocks, vector, server) && r < |runner| && |memory| == runner[r]
    requires CompleteForRunner(replies, parts, r)
    ensures Start(runner, r + 1) <= |vector|
    ensures AllPiecesFit(Downloads(replies, parts, serverBlocks), |memory|)
    ensures Fill(memory, Downloads(replies, parts, serverBlocks)) == Block(vector, runner, r)
  {
    StartMonotone(runner, r + 1, |runner|);
    var pieces, wanted := Downloads(replies, parts, serverBlocks), Block(vector, runner, r);
    forall i | 0 <= i < |pieces| ensures Agrees(pieces[i], wanted) {
      DownloadAgrees(parts[replies[i]], serverBlocks, vector, runner, server);
    }
    FillGivesWanted(memory, pieces, wanted);
    BlocksHaveLayout(serverBlocks, vector, server);
    DownloadsTouch(replies, parts, r, serverBlocks, runner, server);
  }

  lemma DownloadsTouch(replies: seq<nat>, parts: seq<Part>, r: nat, serverBlocks: seq<seq<byte>>,
                       runner: seq<nat>, server: seq<nat>)
    requires IsCut(parts, runner, server) && Total(server) == Total(runner) && HasLayout(serverBlocks, server)
    requires r < |runner| && CompleteForRunner(replies, parts, r)
    ensures forall x :: 0 <= x < runner[r] ==> Touched(Downloads(replies, parts, serverBlocks), x)
  {
    var pieces := Downloads(replies, parts, serverBlocks);
    CutFits(parts, runner, server);
    forall x | 0 <= x < runner[r] ensures Touched(pieces, x) {
      var i := RunnerPositionTouched(replies, parts, r, x, runner, server);
      assert Touches(pieces[i], x);
    }
  }

  /** Sending a state, storing it on all server ranks and fetching it again, from any runner of
      the same layout, gives back the same vectors. */
  lemma StateSurvives(parts: seq<Part>, runnerBlocks: seq<seq<byte>>, runner: seq<nat>, server: seq<nat>,
                      serverMemory: seq<seq<byte>>, arrivals: seq<seq<nat>>,
                      serverBlocks: seq<seq<byte>>, r: nat, runnerMemory: seq<byte>, replies: seq<nat>)
    requires IsCut(parts, runner, server) && Total(server) == Total(runner)
    requires HasLayout(runnerBlocks, runner) && HasLayout(serverMemory, server)
    requires |arrivals| == |server| == |serverBlocks|
    requires forall s :: 0 <= s < |server| ==>
               && CompleteForServer(arrivals[s], parts, s)
               && AllPiecesFit(Uploads(arrivals[s], parts, runnerBlocks), |serverMemory[s]|)
               && serverBlocks[s] == Fill(serverMemory[s], Uploads(arrivals[s], parts, runnerBlocks))
    requires r < |runner| && |runnerMemory| == runner[r] && CompleteForRunner(replies, parts, r)
    ensures AllPiecesFit(Downloads(replies, parts, serverBlocks), |runnerMemory|)
    ensures Fill(runnerMemory, Downloads(replies, parts, serverBlocks)) == runnerBlocks[r]
  {
    var vector := Flatten(runnerBlocks);
    FlattenedBlocks(runnerBlocks, runner);
    forall s | 0 <= s < |server|
      ensures IsBlock(serverBlocks[s], vector, server, s)
    {
      StoredBlock(serverMemory[s], arrivals[s], parts, s, runnerBlocks, vector, runner, server);
    }
    StateFetched(parts, runnerBlocks, vector, runner, server, serverBlocks, r, runnerMemory, replies);
  }

  lemma StateFetched(parts: seq<Part>, runnerBlocks: seq<seq<byte>>, vector: seq<byte>,
                     runner: seq<nat>, server: seq<nat>, serverBlocks: seq<seq<byte>>,
                     r: nat, runnerMemory: seq<byte>, replies: seq<nat>)
    requires IsCut(parts, runner, server) && Total(server) == Total(runner)
    requires AreBlocksOf(runnerBlocks, vector, runner) && AreBlocksOf(serverBlocks, vector, server)
    requires r < |runner| && |runnerMemory| == runner[r] && CompleteForRunner(replies, parts, r)
    ensures AllPiecesFit(Downloads(replies, parts, serverBlocks), |runnerMemory|)
    ensures Fill(runnerMemory, Downloads(replies, parts, serverBlocks)) == runnerBlocks[r]
  {
    FetchedBlock(runnerMemory, replies, parts, r, serverBlocks, vector, runner, server);
    assert IsBlock(runnerBlocks[r], vector, runner, r);
  }

  // ----- the runner side ---------------------------------------------------

  /** One connection of a runner rank: which bytes of its two vectors go to which server rank. */
  datatype Connection = Connection(
    sendCount: nat, localVectorOffset: nat,
    sendCountHidden: nat, localVectorOffsetHidden: nat,
    serverRank: nat)

  function ConnectionOf(parts: seq<Part>, hidden: seq<Part>, k: nat): Connection
    requires k < |parts| && (hidden == [] || |hidden| == |parts|)
  {
    if hidden == [] then Connection(parts[k].count, parts[k].offsetRunner, 0, 0, parts[k].rankServer)
    else Connection(parts[k].count, parts[k].offsetRunner, hidden[k].count, hidden[k].offsetRunner,
                    parts[k].rankServer)
  }

  /** The indices, in order, of the first n parts that belong to runner rank r. */
  function PartsOfRunner(parts: seq<Part>, r: nat, n: nat): (ks: seq<nat>)
    requires n <= |parts|
    ensures forall i :: 0 <= i < |ks| ==> ks[i] < n && parts[ks[i]].rankRunner == r
    ensures forall k :: 0 <= k < n && parts[k].rankRunner == r ==> k in ks
  {
    if n == 0 then []
    else PartsOfRunner(parts, r, n - 1) + if parts[n - 1].rankRunner == r then [n - 1] else []
  }

  function ConnectionsOf(parts: seq<Part>, hidden: seq<Part>, ks: seq<nat>): (cs: seq<Connection>)
    requires hidden == [] || |hidden| == |parts|
    requires forall i :: 0 <= i < |ks| ==> ks[i] < |parts|
    ensures |cs| == |ks|
  {
    seq(|ks|, i requires 0 <= i < |ks| => ConnectionOf(parts, hidden, ks[i]))
  }

  /** Both vectors of a field: equally many elements on each runner rank, or no hidden vector. */
  ghost predicate SameElements(sizes: seq<nat>, sizesHidden: seq<nat>, elements: seq<nat>, b: nat, c: nat) {
    && b > 0 && c > 0
    && sizes == Scaled(elements, b)
    && (sizesHidden == Scaled(elements, c) || (Total(sizesHidden) == 0 && |sizesHidden| == |sizes|))
  }

  /** A field the part calculation can cope with. */
  ghost predicate GoodField(commSize: nat, sizes: seq<nat>, sizesHidden: seq<nat>,
                            elements: seq<nat>, b: nat, c: nat)
  {
    && commSize > 0
    && SameElements(sizes, sizesHidden, elements, b, c)
    && ZerosTrail(sizes) && Total(elements) > 0
    && Total(elements) <= MAX_INT && Total(sizes) <= MAX_SIZE_T && Total(sizesHidden) <= MAX_SIZE_T
  }

  /** The two part lists of a field are walked in lock step. */
  ghost predicate InLockStep(parts: seq<Part>, hidden: seq<Part>) {
    && |hidden| == |parts|
    && forall k :: 0 <= k < |parts| ==>
         hidden[k].rankRunner == parts[k].rankRunner && hidden[k].rankServer == parts[k].rankServer
  }

  /** The two lists of a field are cuts, and they run in lock step. */
  method PartLists(commSize: nat, sizes: seq<nat>, sizesHidden: seq<nat>,
                   ghost elements: seq<nat>, b: nat, c: nat) returns (parts: seq<Part>, hidden: seq<Part>)
    requires GoodField(commSize, sizes, sizesHidden, elements, b, c)
    ensures IsCut(parts, sizes, ServerSizes(commSize, Total(sizes), b))
    ensures IsCut(hidden, sizesHidden, ServerSizes(commSize, Total(sizesHidden), c))
    ensures |parts| > 0
    ensures hidden == [] || InLockStep(parts, hidden)
  {
    SizesOfScaled(elements, b);
    SizesOfScaled(elements, c);
    ZerosScaled(elements, b, c);
    parts := CalculateNToM(commSize, sizes, b);
    if Total(sizesHidden) == 0 {
      AllEmpty(sizesHidden);
    }
    hidden := CalculateNToM(commSize, sizesHidden, c);
    if Total(sizesHidden) > 0 {
      ScalingLaw(parts, hidden, elements, commSize, b, c);
    }
  }

  lemma SizesOfScaled(elements: seq<nat>, b: nat)
    requires b > 0
    ensures Total(Scaled(elements, b)) == Total(elements) * b
    ensures Total(Scaled(elements, b)) % b == 0 && Total(Scaled(elements, b)) / b == Total(elements)
  {
    StartScaled(elements, b, |elements|);
    MultipleHasNoRest(Total(elements), b);
  }

  lemma ZerosScaled(elements: seq<nat>, b: nat, c: nat)
    requires b > 0 && c > 0 && ZerosTrail(Scaled(elements, b))
    ensures ZerosTrail(Scaled(elements, c))
  {
    forall j, k | 0 <= j < k < |elements| && Scaled(elements, c)[j] == 0 ensures Scaled(elements, c)[k] == 0 {
      TimesKeepsOrder(elements[j], 0, c);
      TimesKeepsOrder(elements[j], 0, b);
      TimesKeepsOrder(elements[k], 0, b);
      assert Scaled(elements, b)[j] == 0 && Scaled(elements, b)[k] == 0;
    }
  }
}
