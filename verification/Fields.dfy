/**
  The objects that use the part lists: a field on a runner rank, a field and its ensemble
  members on a server rank, and the index maps.
 */
module Fields {
  import opened Integers
  import opened Redistribution
  import opened CutProperties
  import opened Migration

  // ----- a runner rank (api/api_common.cxx) --------------------------------

  datatype Message = Message(serverRank: nat, stateId: int, step: int, values: seq<byte>, valuesHidden: seq<byte>)

  /** A server rank sends a state, or ends the runner; or it has given the runner up. */
  datatype Reply =
    | ChangeState(stateId: int, step: int, nsteps: int, values: seq<byte>, valuesHidden: seq<byte>)
    | EndRunner(stateId: int, step: int)
    | KillRunner

  function MessageOf(c: Connection, stateId: int, step: int, values: seq<byte>, hidden: seq<byte>): Message
    requires c.localVectorOffset + c.sendCount <= |values|
    requires c.localVectorOffsetHidden + c.sendCountHidden <= |hidden|
  {
    Message(c.serverRank, stateId, step,
            values[c.localVectorOffset..c.localVectorOffset + c.sendCount],
            hidden[c.localVectorOffsetHidden..c.localVectorOffsetHidden + c.sendCountHidden])
  }

  function StepsOf(reply: Reply): int {
    if reply.ChangeState? then reply.nsteps else 0
  }

  ghost predicate Reaches(cs: seq<Connection>, length: nat, lengthHidden: nat) {
    forall i :: 0 <= i < |cs| ==>
      && cs[i].localVectorOffset + cs[i].sendCount <= length
      && cs[i].localVectorOffsetHidden + cs[i].sendCountHidden <= lengthHidden
  }

  /** The replies as the assertions of the receiver demand them. */
  ghost predicate Answers(replies: seq<Reply>, cs: seq<Connection>) {
    && |replies| == |cs|
    && (forall i :: 0 <= i < |cs| && replies[i].ChangeState? ==>
          && |replies[i].values| == cs[i].sendCount
          && |replies[i].valuesHidden| == cs[i].sendCountHidden)
    && (forall i, j :: 0 <= i < j < |replies| && !replies[i].KillRunner? && !replies[j].KillRunner? ==>
          StepsOf(replies[i]) == StepsOf(replies[j]))
  }

  function ReplyPieces(replies: seq<Reply>, cs: seq<Connection>): (pieces: seq<Piece<byte>>)
    requires |replies| == |cs|
    ensures |pieces| == |cs|
  {
    seq(|cs|, i requires 0 <= i < |cs| =>
      Piece(cs[i].localVectorOffset, if replies[i].ChangeState? then replies[i].values else []))
  }

  function ReplyPiecesHidden(replies: seq<Reply>, cs: seq<Connection>): (pieces: seq<Piece<byte>>)
    requires |replies| == |cs|
    ensures |pieces| == |cs|
  {
    seq(|cs|, i requires 0 <= i < |cs| =>
      Piece(cs[i].localVectorOffsetHidden, if replies[i].ChangeState? then replies[i].valuesHidden else []))
  }

  class RunnerField {
    const commRank: nat
    var connectedServerRanks: seq<Connection>
    var currentStateId: int
    var currentStep: int

    constructor (commRank: nat)
      ensures this.commRank == commRank && connectedServerRanks == []
      ensures currentStateId == -1 && currentStep == 0
    {
      this.commRank := commRank;
      connectedServerRanks, currentStateId, currentStep := [], -1, 0;
    }

    method InitConnections(commSize: nat, sizes: seq<nat>, sizesHidden: seq<nat>,
                           ghost elements: seq<nat>, b: nat, c: nat)
      returns (ghost parts: seq<Part>, ghost hidden: seq<Part>)
      requires GoodField(commSize, sizes, sizesHidden, elements, b, c)
      requires connectedServerRanks == []
      modifies this`connectedServerRanks
      ensures IsCut(parts, sizes, ServerSizes(commSize, Total(sizes), b))
      ensures IsCut(hidden, sizesHidden, ServerSizes(commSize, Total(sizesHidden), c))
      ensures hidden == [] || InLockStep(parts, hidden)
      ensures connectedServerRanks == ConnectionsOf(parts, hidden, PartsOfRunner(parts, commRank, |parts|))
    {
      var ps, hs := PartLists(commSize, sizes, sizesHidden, elements, b, c);
      parts, hidden := ps, hs;
      Connect(ps, hs);
    }

    /** The loop over the parts; the hidden parts are walked in lock step. */
    method Connect(ps: seq<Part>, hs: seq<Part>)
      requires hs == [] || InLockStep(ps, hs)
      requires connectedServerRanks == []
      modifies this`connectedServerRanks
      ensures connectedServerRanks == ConnectionsOf(ps, hs, PartsOfRunner(ps, commRank, |ps|))
    {
      var hiddenPart := 0;
      for k := 0 to |ps|
        invariant hiddenPart == if hs == [] then 0 else k
        invariant connectedServerRanks == ConnectionsOf(ps, hs, PartsOfRunner(ps, commRank, k))
      {
        if ps[k].rankRunner == commRank {
          var hiddenSendCount, hiddenLocalOffset := 0, 0;
          if |hs| > 0 {
            assert hs[hiddenPart].rankRunner == commRank;
            hiddenSendCount := hs[hiddenPart].count;
            hiddenLocalOffset := hs[hiddenPart].offsetRunner;
          }
          connectedServerRanks := connectedServerRanks
          + [Connection(ps[k].count, ps[k].offsetRunner, hiddenSendCount, hiddenLocalOffset, ps[k].rankServer)];
        }
        if |hs| > 0 {
          hiddenPart := hiddenPart + 1;
        }
      }
    }

    /** Member and step of the one register go to all connected server ranks. */
    method PutState(values: seq<byte>, hiddenValues: seq<byte>) returns (messages: seq<Message>)
      requires Reaches(connectedServerRanks, |values|, |hiddenValues|)
      modifies this`currentStateId
      ensures |messages| == |connectedServerRanks|
      ensures forall i :: 0 <= i < |messages| ==>
                messages[i] == MessageOf(connectedServerRanks[i], old(currentStateId), currentStep, values, hiddenValues)
      ensures forall i :: 0 <= i < |messages| ==>
                && messages[i].serverRank == connectedServerRanks[i].serverRank
                && messages[i].stateId == old(currentStateId) && messages[i].step == currentStep
      ensures currentStateId == -1
    {
      messages := [];
      for i := 0 to |connectedServerRanks|
        invariant |messages| == i && currentStateId == old(currentStateId)
        invariant forall j :: 0 <= j < i ==>
          messages[j] == MessageOf(connectedServerRanks[j], currentStateId, currentStep, values, hiddenValues)
      {
        messages := messages + [MessageOf(connectedServerRanks[i], currentStateId, currentStep, values, hiddenValues)];
      }
      currentStateId := -1;
    }

    /** Receives from every server rank in turn; a runner that is finalizing does not wait for them,
        one that is told to be dead ends at once. */
    method GetState(values: seq<byte>, hiddenValues: seq<byte>, replies: seq<Reply>, finalizing: bool)
      returns (nsteps: int, newValues: seq<byte>, newHidden: seq<byte>, aborted: bool)
      requires Reaches(connectedServerRanks, |values|, |hiddenValues|)
      requires Answers(replies, connectedServerRanks)
      modifies this`currentStateId, this`currentStep
      ensures AllPiecesFit(ReplyPieces(replies, connectedServerRanks), |values|)
      ensures AllPiecesFit(ReplyPiecesHidden(replies, connectedServerRanks), |hiddenValues|)
      ensures aborted <==> !finalizing && KillRunner in replies
      ensures !finalizing && !aborted ==>
                && newValues == Fill(values, ReplyPieces(replies, connectedServerRanks))
                && newHidden == Fill(hiddenValues, ReplyPiecesHidden(replies, connectedServerRanks))
      ensures finalizing ==> newValues == values && newHidden == hiddenValues
      ensures replies != [] && !finalizing && !aborted ==>
                && currentStateId == replies[|replies| - 1].stateId
                && currentStep == replies[|replies| - 1].step
                && (forall i :: 0 <= i < |replies| ==>
                      nsteps == if replies[i].ChangeState? then replies[i].nsteps else 0)
      ensures replies == [] || finalizing ==>
                && currentStateId == old(currentStateId) && currentStep == old(currentStep)
                && nsteps == if replies == [] then -1 else 0
    {
      nsteps, newValues, newHidden, aborted := -1, values, hiddenValues, false;
      var cs := connectedServerRanks;
      ghost var ps, hs := ReplyPieces(replies, cs), ReplyPiecesHidden(replies, cs);
      for i := 0 to |cs|
        invariant finalizing ==> i == 0
        invariant KillRunner !in replies[..i]
        invariant Received(values, newValues, ps, i) && Received(hiddenValues, newHidden, hs, i)
        invariant i > 0 ==> currentStateId == replies[i - 1].stateId && currentStep == replies[i - 1].step
        invariant i > 0 ==> nsteps == StepsOf(replies[i - 1])
        invariant i == 0 ==> currentStateId == old(currentStateId) && currentStep == old(currentStep) && nsteps == -1
      {
        if finalizing { return 0, newValues, newHidden, false; }
        if replies[i].KillRunner? { return nsteps, newValues, newHidden, true; }
        ReceivedNext(values, newValues, ps, i);
        ReceivedNext(hiddenValues, newHidden, hs, i);
        if replies[i].ChangeState? {
          newValues := Splice(newValues, cs[i].localVectorOffset, replies[i].values);
          newHidden := Splice(newHidden, cs[i].localVectorOffsetHidden, replies[i].valuesHidden);
        } else {
          assert Splice(newValues, ps[i].offset, []) == newValues && Splice(newHidden, hs[i].offset, []) == newHidden;
        }
        currentStateId, currentStep, nsteps := replies[i].stateId, replies[i].step, StepsOf(replies[i]);
        assert replies[..i + 1] == replies[..i] + [replies[i]];
      }
      assert ps[..|cs|] == ps && hs[..|cs|] == hs && replies[..|cs|] == replies;
    }
  }

  /** The register carries member and step from the answers to the next messages. */
  method GetAndPut(f: RunnerField, values: seq<byte>, hiddenValues: seq<byte>, replies: seq<Reply>,
                   id: int, step: int) returns (messages: seq<Message>)
    requires Reaches(f.connectedServerRanks, |values|, |hiddenValues|) && Answers(replies, f.connectedServerRanks)
    requires replies != []
    requires forall i :: 0 <= i < |replies| ==>
               replies[i].ChangeState? && replies[i].stateId == id && replies[i].step == step
    modifies f`currentStateId, f`currentStep
    ensures |messages| == |replies|
    ensures forall i :: 0 <= i < |messages| ==> messages[i].stateId == id && messages[i].step == step
  {
    var nsteps, newValues, newHidden, aborted := f.GetState(values, hiddenValues, replies, false);
    messages := f.PutState(newValues, newHidden);
  }

  lemma FillOneMore(memory: seq<byte>, pieces: seq<Piece<byte>>, piece: Piece<byte>)
    requires AllPiecesFit(pieces, |memory|) && piece.offset + |piece.values| <= |memory|
    ensures AllPiecesFit(pieces + [piece], |memory|)
    ensures Fill(memory, pieces + [piece]) == Splice(Fill(memory, pieces), piece.offset, piece.values)
  {
    assert (pieces + [piece])[..|pieces|] == pieces;
  }

  /** The memory after the first i pieces. */
  ghost predicate Received(before: seq<byte>, memory: seq<byte>, pieces: seq<Piece<byte>>, i: nat)
    requires i <= |pieces|
  {
    AllPiecesFit(pieces[..i], |before|) && memory == Fill(before, pieces[..i])
  }

  lemma ReceivedNext(before: seq<byte>, memory: seq<byte>, pieces: seq<Piece<byte>>, i: nat)
    requires i < |pieces| && Received(before, memory, pieces, i)
    requires pieces[i].offset + |pieces[i].values| <= |before|
    ensures Received(before, Splice(memory, pieces[i].offset, pieces[i].values), pieces, i + 1)
  {
    var some, piece := pieces[..i], pieces[i];
    assert pieces[..i + 1] == some + [piece];
    FillOneMore(before, some, piece);
  }

  // ----- a server rank (server/EnsembleMember.cxx, server/Field.cxx) --------

  /** The two vectors of an ensemble member on a server rank. */
  datatype Member = Member(background: seq<byte>, hidden: seq<byte>)

  /** The message of a runner rank goes to the place that its parts say. */
  function StorePart(m: Member, part: Part, values: seq<byte>, hiddenPart: Part, valuesHidden: seq<byte>): Member
    requires |values| + part.offsetServer <= |m.background| && |valuesHidden| + hiddenPart.offsetServer <= |m.hidden|
  {
    Member(Splice(m.background, part.offsetServer, values), Splice(m.hidden, hiddenPart.offsetServer, valuesHidden))
  }

  /** What is sent to the runner rank of a part: sections of the analysis and of the hidden state. */
  function ReplyOf(m: Member, part: Part, hiddenPart: Part, stateId: int, step: int, nsteps: int): Reply
    requires part.offsetServer + part.count <= |m.background|
    requires hiddenPart.offsetServer + hiddenPart.count <= |m.hidden|
  {
    ChangeState(stateId, step, nsteps,
                m.background[part.offsetServer..part.offsetServer + part.count],
                m.hidden[hiddenPart.offsetServer..hiddenPart.offsetServer + hiddenPart.count])
  }

  /** The part that stands for no hidden part; its ranks mean nothing. */
  const NO_PART := Part(0, 0, 0, 0, 0)

  function Resized(v: seq<byte>, n: nat): (w: seq<byte>)
    ensures |w| == n && forall i :: 0 <= i < n ==> w[i] == if i < |v| then v[i] else 0
  {
    if n <= |v| then v[..n] else v + seq(n - |v|, _ => 0 as byte)
  }

  /** The last part of a server rank's block ends where the block ends. */
  lemma LastPartOfBlock(parts: seq<Part>, s: nat, runner: seq<nat>, server: seq<nat>) returns (k: nat)
    requires IsCut(parts, runner, server) && Total(server) == Total(runner) && s < |server| && server[s] > 0
    ensures k < |parts| && parts[k].rankServer == s && parts[k].offsetServer + parts[k].count >= server[s]
  {
    var g := Start(server, s) + server[s] - 1;
    StartMonotone(server, s + 1, |server|);
    k := FindPart(parts, |parts|, g, runner, server);
    BlockUnique(server, parts[k].rankServer, s, g);
  }

  ghost predicate BoundsHold(parts: seq<Part>, s: nat, size: int) {
    forall k :: 0 <= k < |parts| && parts[k].rankServer == s ==> parts[k].offsetServer + parts[k].count <= size
  }

  /** The bounds that are asserted when a part is stored hold for all parts of a server rank if and
      only if the size of its block, in bytes, fits an int. */
  lemma AssertedBounds(parts: seq<Part>, s: nat, runner: seq<nat>, server: seq<nat>)
    requires IsCut(parts, runner, server) && Total(server) == Total(runner) && s < |server|
    ensures BoundsHold(parts, s, Wrap32(server[s])) <==> server[s] <= MAX_INT
  {
    NarrowingKeeps(server[s]);
    CutFits(parts, runner, server);
    if server[s] > MAX_INT {
      var k := LastPartOfBlock(parts, s, runner, server);
    }
  }

  class EnsembleMember {
    var stateBackground: seq<byte>
    var stateHidden: seq<byte>

    ghost function View(): Member
      reads this
    {
      Member(stateBackground, stateHidden)
    }

    constructor ()
      ensures View() == Member([], [])
    {
      stateBackground, stateHidden := [], [];
    }

    /** The sizes of the local blocks are handed over as ints.  A size that has become negative is too
        large for a vector: `ok` is false then. */
    method SetLocalVectSize(localVectSize: nat, localVectSizeHidden: nat) returns (ok: bool)
      modifies this
      ensures ok <==> Wrap32(localVectSize) >= 0 && Wrap32(localVectSizeHidden) >= 0
      ensures ok ==> View() == Member(Resized(old(stateBackground), Wrap32(localVectSize)),
                                      Resized(old(stateHidden), Wrap32(localVectSizeHidden)))
    {
      var size, sizeHidden := Wrap32(localVectSize), Wrap32(localVectSizeHidden);
      if size < 0 { return false; }
      stateBackground := Resized(stateBackground, size);
      if sizeHidden < 0 { return false; }
      stateHidden := Resized(stateHidden, sizeHidden);
      return true;
    }

    method StoreBackgroundStatePart(part: Part, values: seq<byte>, hiddenPart: Part, valuesHidden: seq<byte>)
      requires |values| == part.count && |valuesHidden| == hiddenPart.count
      requires part.count + part.offsetServer <= |stateBackground|
      requires hiddenPart.count + hiddenPart.offsetServer <= |stateHidden|
      modifies this
      ensures View() == StorePart(old(View()), part, values, hiddenPart, valuesHidden)
    {
      stateBackground := Splice(stateBackground, part.offsetServer, values);
      stateHidden := Splice(stateHidden, hiddenPart.offsetServer, valuesHidden);
    }
  }

  /** Bytes of server rank s in the first k parts. */
  function CountBefore(parts: seq<Part>, k: nat, s: nat): nat
    requires k <= |parts|
  {
    if k == 0 then 0 else CountBefore(parts, k - 1, s) + if parts[k - 1].rankServer == s then parts[k - 1].count else 0
  }

  /** Runner ranks that share one of the first k parts with server rank s. */
  function RunnersBefore(parts: seq<Part>, k: nat, s: nat): (runners: set<nat>)
    requires k <= |parts|
    ensures forall r :: r in runners <==>
                          exists i :: 0 <= i < k && parts[i].rankServer == s && parts[i].rankRunner == r
  {
    if k == 0 then {}
    else RunnersBefore(parts, k - 1, s) + if parts[k - 1].rankServer == s then {parts[k - 1].rankRunner} else {}
  }

  /** How much of block s lies before position g. */
  function FilledBefore(server: seq<nat>, s: nat, g: nat): nat
    requires s < |server|
  {
    Max(0, Min(g - Start(server, s), server[s]))
  }

  lemma PartFills(p: Part, s: nat, runner: seq<nat>, server: seq<nat>)
    requires IsOverlap(p, runner, server) && s < |server|
    ensures FilledBefore(server, s, Begin(p, runner) + p.count)
            == FilledBefore(server, s, Begin(p, runner)) + if p.rankServer == s then p.count else 0
  {
    if p.rankServer < s {
      StartMonotone(server, p.rankServer + 1, s);
    } else if s < p.rankServer {
      StartMonotone(server, s + 1, p.rankServer);
    }
  }

  lemma {:induction false} PartsFill(parts: seq<Part>, k: nat, s: nat, runner: seq<nat>, server: seq<nat>)
    requires IsCut(parts, runner, server) && 0 < k <= |parts| && s < |server|
    ensures CountBefore(parts, k, s)
            == FilledBefore(server, s, Begin(parts[k - 1], runner) + parts[k - 1].count)
  {
    PartFills(parts[k - 1], s, runner, server);
    if k > 1 {
      PartsFill(parts, k - 1, s, runner, server);
      assert Adjacent(parts[k - 2], parts[k - 1], runner);
    }
  }

  /** The parts of one server rank add up to its block. */
  lemma LocalSize(parts: seq<Part>, s: nat, runner: seq<nat>, server: seq<nat>)
    requires IsCut(parts, runner, server) && Total(server) == Total(runner) && s < |server|
    ensures CountBefore(parts, |parts|, s) == server[s]
  {
    StartMonotone(server, s + 1, |server|);
    if |parts| > 0 {
      PartsFill(parts, |parts|, s, runner, server);
    }
  }

  /** A runner rank is connected exactly if its block meets the server rank's block. */
  lemma ConnectedRunners(parts: seq<Part>, s: nat, runner: seq<nat>, server: seq<nat>)
    requires IsCut(parts, runner, server) && Total(server) == Total(runner) && s < |server|
    ensures forall r :: 0 <= r < |runner| ==>
              (r in RunnersBefore(parts, |parts|, s) <==> BlocksMeet(r, s, runner, server))
  {
    forall r | 0 <= r < |runner|
      ensures r in RunnersBefore(parts, |parts|, s) <==> BlocksMeet(r, s, runner, server)
    {
      OnePartPerPair(parts, r, s, runner, server);
    }
  }

  lemma TotalIsMultiple(sizes: seq<nat>, elements: seq<nat>, b: nat)
    requires b > 0 && (sizes == Scaled(elements, b) || Total(sizes) == 0)
    ensures Total(sizes) % b == 0
  {
    SizesOfScaled(elements, b);
  }

  lemma FieldTotals(commSize: nat, sizes: seq<nat>, sizesHidden: seq<nat>, elements: seq<nat>, b: nat, c: nat)
    requires GoodField(commSize, sizes, sizesHidden, elements, b, c)
    ensures Total(sizes) % b == 0 && Total(sizesHidden) % c == 0
  {
    TotalIsMultiple(sizes, elements, b);
    TotalIsMultiple(sizesHidden, elements, c);
  }

  /** What the sums over a part list amount to on one server rank. */
  lemma VectorView(parts: seq<Part>, s: nat, commSize: nat, sizes: seq<nat>, b: nat)
    requires commSize > 0 && b > 0 && s < commSize && Total(sizes) % b == 0
    requires IsCut(parts, sizes, ServerSizes(commSize, Total(sizes), b))
    ensures CountBefore(parts, |parts|, s) == ServerSizes(commSize, Total(sizes), b)[s]
    ensures forall r :: 0 <= r < |sizes| ==>
              (r in RunnersBefore(parts, |parts|, s)
               <==> BlocksMeet(r, s, sizes, ServerSizes(commSize, Total(sizes), b)))
  {
    var server := ServerSizes(commSize, Total(sizes), b);
    ServerTotal(commSize, Total(sizes), b);
    LocalSize(parts, s, sizes, server);
    ConnectedRunners(parts, s, sizes, server);
  }

  class ServerField {
    const commRank: nat
    const bytesPerElement: nat
    const bytesPerElementHidden: nat
    var localVectSizesRunner: seq<nat>
    var localVectSizesRunnerHidden: seq<nat>
    var parts: seq<Part>
    var partsHidden: seq<Part>
    var localVectSize: nat
    var localVectSizeHidden: nat
    var connectedRunnerRanks: set<nat>

    constructor (commRank: nat, sizes: seq<nat>, sizesHidden: seq<nat>, b: nat, c: nat)
      ensures this.commRank == commRank && bytesPerElement == b && bytesPerElementHidden == c
      ensures localVectSizesRunner == sizes && localVectSizesRunnerHidden == sizesHidden
      ensures localVectSize == 0 && localVectSizeHidden == 0 && connectedRunnerRanks == {}
    {
      this.commRank, bytesPerElement, bytesPerElementHidden := commRank, b, c;
      localVectSizesRunner, localVectSizesRunnerHidden := sizes, sizesHidden;
      parts, partsHidden, localVectSize, localVectSizeHidden, connectedRunnerRanks := [], [], 0, 0, {};
    }

    ghost function Server(commSize: nat): seq<nat>
      requires commSize > 0 && bytesPerElement > 0
      reads this
    {
      ServerSizes(commSize, Total(localVectSizesRunner), bytesPerElement)
    }

    ghost function ServerHidden(commSize: nat): seq<nat>
      requires commSize > 0 && bytesPerElementHidden > 0
      reads this
    {
      ServerSizes(commSize, Total(localVectSizesRunnerHidden), bytesPerElementHidden)
    }

    /** The local sizes are those of the server's layout, and the connected runner ranks are the
        ones whose block meets the block of this rank. */
    method CalculateParts(commSize: nat, ghost elements: seq<nat>)
      requires GoodField(commSize, localVectSizesRunner, localVectSizesRunnerHidden, elements,
                         bytesPerElement, bytesPerElementHidden)
      requires commRank < commSize && localVectSize == 0 && localVectSizeHidden == 0 && connectedRunnerRanks == {}
      modifies this
      ensures localVectSizesRunner == old(localVectSizesRunner)
      ensures localVectSizesRunnerHidden == old(localVectSizesRunnerHidden)
      ensures IsCut(parts, localVectSizesRunner, Server(commSize))
      ensures IsCut(partsHidden, localVectSizesRunnerHidden, ServerHidden(commSize))
      ensures localVectSize == Server(commSize)[commRank]
      ensures localVectSizeHidden == ServerHidden(commSize)[commRank]
      ensures forall r :: 0 <= r < |localVectSizesRunner| ==>
                (r in connectedRunnerRanks <==> BlocksMeet(r, commRank, localVectSizesRunner, Server(commSize)))
    {
      var ps, hs := PartLists(commSize, localVectSizesRunner, localVectSizesRunnerHidden, elements,
                              bytesPerElement, bytesPerElementHidden);
      parts, partsHidden := ps, hs;
      AddUp(ps, hs);
      FieldTotals(commSize, localVectSizesRunner, localVectSizesRunnerHidden, elements,
                  bytesPerElement, bytesPerElementHidden);
      VectorView(ps, commRank, commSize, localVectSizesRunner, bytesPerElement);
      VectorView(hs, commRank, commSize, localVectSizesRunnerHidden, bytesPerElementHidden);
    }

    /** The loop over the parts; the hidden parts are walked in lock step. */
    method AddUp(ps: seq<Part>, hs: seq<Part>)
      requires hs == [] || InLockStep(ps, hs)
      requires localVectSize == 0 && localVectSizeHidden == 0 && connectedRunnerRanks == {}
      modifies this`localVectSize, this`localVectSizeHidden, this`connectedRunnerRanks
      ensures localVectSize == CountBefore(ps, |ps|, commRank)
      ensures localVectSizeHidden == CountBefore(hs, |hs|, commRank)
      ensures connectedRunnerRanks == RunnersBefore(ps, |ps|, commRank)
    {
      var hiddenPart := 0;
      for k := 0 to |ps|
        invariant hiddenPart == if hs == [] then 0 else k
        invariant localVectSize == CountBefore(ps, k, commRank)
        invariant localVectSizeHidden == CountBefore(hs, hiddenPart, commRank)
        invariant connectedRunnerRanks == RunnersBefore(ps, k, commRank)
      {
        if ps[k].rankServer == commRank {
          localVectSize := localVectSize + ps[k].count;
          connectedRunnerRanks := connectedRunnerRanks + {ps[k].rankRunner};
          if |hs| > 0 {
            assert hs[hiddenPart].rankServer == commRank;
            localVectSizeHidden := localVectSizeHidden + hs[hiddenPart].count;
          }
        }
        if |hs| > 0 {
          hiddenPart := hiddenPart + 1;
        }
      }
    }

    /** Finds the part that connects this server rank with runner rank r. */
    method GetPart(r: nat) returns (part: Part)
      requires exists k :: 0 <= k < |parts| && parts[k].rankServer == commRank && parts[k].rankRunner == r
      ensures part in parts && part.rankServer == commRank && part.rankRunner == r
    {
      var k := 0;
      while k < |parts|
        invariant 0 <= k <= |parts|
        invariant forall j :: 0 <= j < k ==> !(parts[j].rankServer == commRank && parts[j].rankRunner == r)
      {
        if parts[k].rankServer == commRank && parts[k].rankRunner == r {
          return parts[k];
        }
        k := k + 1;
      }
      assert false;
    }

    /** The same among the hidden parts, if there are any. */
    method GetPartHidden(r: nat) returns (part: Part)
      requires partsHidden != [] ==>
                 exists k :: 0 <= k < |partsHidden| &&
                   partsHidden[k].rankServer == commRank && partsHidden[k].rankRunner == r
      ensures if partsHidden == [] then part == NO_PART
              else part in partsHidden && part.rankServer == commRank && part.rankRunner == r
    {
      if |partsHidden| == 0 { return NO_PART; }
      var k := 0;
      while k < |partsHidden|
        invariant 0 <= k <= |partsHidden|
        invariant forall j :: 0 <= j < k ==> !(partsHidden[j].rankServer == commRank && partsHidden[j].rankRunner == r)
      {
        if partsHidden[k].rankServer == commRank && partsHidden[k].rankRunner == r {
          return partsHidden[k];
        }
        k := k + 1;
      }
      assert false;
    }
  }

  // ----- index maps --------------------------------------------------------

  datatype IndexEntry = IndexEntry(index: int, varid: int)

  /** Rank 0 of a runner collects the index maps of all ranks, each at its displacement; without
      maps the elements are numbered. */
  method GatherGlobalIndexMap(given: bool, maps: seq<seq<IndexEntry>>, sizes: seq<nat>, ghost elements: seq<nat>,
                              b: nat, globalSize: nat) returns (globalIndexMap: seq<IndexEntry>)
    requires b > 0 && sizes == Scaled(elements, b) && globalSize == Total(elements)
    requires given ==> HasLayout(maps, elements)
    ensures |globalIndexMap| == globalSize
    ensures given ==> globalIndexMap == Flatten(maps)
    ensures !given ==> forall i :: 0 <= i < globalSize ==> globalIndexMap[i] == IndexEntry(i, 0)
  {
    globalIndexMap := [];
    if !given {
      for i := 0 to globalSize
        invariant |globalIndexMap| == i && forall k :: 0 <= k < i ==> globalIndexMap[k] == IndexEntry(k, 0)
      {
        globalIndexMap := globalIndexMap + [IndexEntry(i, 0)];
      }
    } else {
      var lastDispl := 0;
      for i := 0 to |maps|
        invariant lastDispl == |globalIndexMap| == Start(elements, i)
        invariant globalIndexMap == Flatten(maps[..i])
      {
        MultipleHasNoRest(elements[i], b);
        assert maps[..i + 1][..i] == maps[..i];
        globalIndexMap := globalIndexMap[..lastDispl] + maps[i];
        lastDispl := lastDispl + sizes[i] / b;
      }
      assert maps[..|maps|] == maps;
    }
  }

  /** Server rank 0 hands every rank the entries of its elements. */
  method ScatterIndexMap(commSize: nat, globalSize: nat, globalIndexMap: seq<IndexEntry>, b: nat)
    returns (localIndexMaps: seq<seq<IndexEntry>>)
    requires commSize > 0 && b > 0 && globalSize == |globalIndexMap| * b && |globalIndexMap| <= MAX_INT
    ensures AreBlocksOf(localIndexMaps, globalIndexMap, ServerSizes(commSize, |globalIndexMap|, 1))
  {
    MultipleHasNoRest(|globalIndexMap|, b);
    var sizes := new nat[commSize];
    CalculateLocalVectSizesServer(commSize, globalSize, sizes, b);
    var scounts := InCounts(sizes[..], b);
    ElementCounts(commSize, |globalIndexMap|, b);
    assert scounts == ServerSizes(commSize, |globalIndexMap|, 1);
    ServerTotal(commSize, |globalIndexMap|, 1);
    localIndexMaps := SplitByCounts(globalIndexMap, scounts);
  }

  method InCounts(sizes: seq<nat>, b: nat) returns (scounts: seq<nat>)
    requires b > 0
    ensures |scounts| == |sizes| && forall i :: 0 <= i < |sizes| ==> scounts[i] == sizes[i] / b
  {
    scounts := [];
    for i := 0 to |sizes|
      invariant |scounts| == i && forall k :: 0 <= k < i ==> scounts[k] == sizes[k] / b
    {
      scounts := scounts + [sizes[i] / b];
    }
  }

  method SplitByCounts<T>(all: seq<T>, scounts: seq<nat>) returns (blocks: seq<seq<T>>)
    requires Total(scounts) == |all|
    ensures AreBlocksOf(blocks, all, scounts)
  {
    blocks := [];
    var lastDispl := 0;
    for i := 0 to |scounts|
      invariant |blocks| == i && lastDispl == Start(scounts, i) <= |all|
      invariant forall k :: 0 <= k < i ==> IsBlock(blocks[k], all, scounts, k)
    {
      StartMonotone(scounts, i + 1, |scounts|);
      blocks := blocks + [all[lastDispl..lastDispl + scounts[i]]];
      lastDispl := lastDispl + scounts[i];
    }
  }

  /** Dividing the server's byte counts by the element size gives its layout in elements. */
  lemma ElementCounts(commSize: nat, count: nat, b: nat)
    requires commSize > 0 && b > 0
    ensures var bytes, elements := ServerSizes(commSize, count * b, b), ServerSizes(commSize, count, 1);
            forall i :: 0 <= i < commSize ==> bytes[i] / b == elements[i]
  {
    ServerSizesScaled(commSize, count, b);
    var elements := ServerSizes(commSize, count, 1);
    forall i | 0 <= i < commSize ensures Scaled(elements, b)[i] / b == elements[i] {
      MultipleHasNoRest(elements[i], b);
    }
  }

  /** The entry a server rank holds for one of its elements is the entry of the runner element
      whose bytes the part list puts there. */
  lemma IndexMapsFollowData(parts: seq<Part>, elements: seq<nat>, server: seq<nat>, b: nat,
                            maps: seq<seq<IndexEntry>>, localIndexMaps: seq<seq<IndexEntry>>,
                            k: nat, p: Part, j: nat)
    requires b > 0 && IsCut(parts, Scaled(elements, b), Scaled(server, b))
    requires HasLayout(maps, elements)
    requires AreBlocksOf(localIndexMaps, Flatten(maps), server)
    requires k < |parts| && p == InElements(parts[k], b) && j < p.count
    ensures p.rankServer < |localIndexMaps| && p.offsetServer + j < |localIndexMaps[p.rankServer]|
    ensures p.rankRunner < |maps| && p.offsetRunner + j < |maps[p.rankRunner]|
    ensures localIndexMaps[p.rankServer][p.offsetServer + j] == maps[p.rankRunner][p.offsetRunner + j]
  {
    var p' := PartInElements(parts, elements, server, b, k);
    SameEntryOfMaps(p, j, maps, localIndexMaps, elements, server);
  }

  lemma SameEntryOfMaps(p: Part, j: nat, maps: seq<seq<IndexEntry>>, localIndexMaps: seq<seq<IndexEntry>>,
                        elements: seq<nat>, server: seq<nat>)
    requires IsOverlap(p, elements, server) && j < p.count
    requires HasLayout(maps, elements) && AreBlocksOf(localIndexMaps, Flatten(maps), server)
    ensures p.offsetServer + j < |localIndexMaps[p.rankServer]|
    ensures p.offsetRunner + j < |maps[p.rankRunner]|
    ensures localIndexMaps[p.rankServer][p.offsetServer + j] == maps[p.rankRunner][p.offsetRunner + j]
  {
    FlattenedBlocks(maps, elements);
    SameEntry(p, j, Flatten(maps), maps, localIndexMaps, elements, server);
  }

  lemma PartInElements(parts: seq<Part>, elements: seq<nat>, server: seq<nat>, b: nat, k: nat) returns (p: Part)
    requires b > 0 && IsCut(parts, Scaled(elements, b), Scaled(server, b)) && k < |parts|
    ensures p == InElements(parts[k], b) && IsOverlap(p, elements, server)
  {
    var cut := CutOfElements(parts, elements, server, b);
    assert parts[k] == ScaledPart(cut[k], b);
    p := cut[k];
    ScaledInElements(p, b);
  }

  lemma ScaledInElements(p: Part, b: nat)
    requires b > 0
    ensures InElements(ScaledPart(p, b), b) == p
  {
    MultipleHasNoRest(p.offsetRunner, b);
    MultipleHasNoRest(p.offsetServer, b);
    MultipleHasNoRest(p.count, b);
  }

  lemma SameEntry(p: Part, j: nat, all: seq<IndexEntry>, maps: seq<seq<IndexEntry>>,
                  localIndexMaps: seq<seq<IndexEntry>>, elements: seq<nat>, server: seq<nat>)
    requires IsOverlap(p, elements, server) && j < p.count
    requires AreBlocksOf(maps, all, elements) && AreBlocksOf(localIndexMaps, all, server)
    ensures p.offsetServer + j < |localIndexMaps[p.rankServer]|
    ensures p.offsetRunner + j < |maps[p.rankRunner]|
    ensures localIndexMaps[p.rankServer][p.offsetServer + j] == maps[p.rankRunner][p.offsetRunner + j]
  {
    var left, right := maps[p.rankRunner], localIndexMaps[p.rankServer];
    assert IsBlock(left, all, elements, p.rankRunner) && IsBlock(right, all, server, p.rankServer);
  }
}
