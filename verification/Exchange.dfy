/**
  The exchange as the objects of module Fields do it: what the connections of the runner ranks
  send, what the server ranks make of it, and what comes back.
 */
module Exchange {
  import opened Redistribution
  import opened CutProperties
  import opened Migration
  import opened Fields

  /** Both vectors of a field, cut alike. */
  datatype Lists = Lists(parts: seq<Part>, hidden: seq<Part>,
                         runner: seq<nat>, server: seq<nat>, runnerHidden: seq<nat>, serverHidden: seq<nat>)

  /** All parts fit into their blocks, and the two lists are walked in lock step. */
  ghost predicate Fitting(l: Lists) {
    && AllFit(l.parts, l.runner, l.server) && AllFit(l.hidden, l.runnerHidden, l.serverHidden)
    && |l.runnerHidden| == |l.runner| && |l.serverHidden| == |l.server|
    && (l.hidden == [] || InLockStep(l.parts, l.hidden))
  }

  ghost predicate GoodLists(l: Lists) {
    && Fitting(l)
    && IsCut(l.parts, l.runner, l.server) && Total(l.server) == Total(l.runner)
    && IsCut(l.hidden, l.runnerHidden, l.serverHidden) && Total(l.serverHidden) == Total(l.runnerHidden)
  }

  /** What the runner ranks and the server ranks compute for a field are such lists. */
  lemma FieldLists(l: Lists, commSize: nat, elements: seq<nat>, b: nat, c: nat)
    requires GoodField(commSize, l.runner, l.runnerHidden, elements, b, c)
    requires l.server == ServerSizes(commSize, Total(l.runner), b)
    requires l.serverHidden == ServerSizes(commSize, Total(l.runnerHidden), c)
    requires IsCut(l.parts, l.runner, l.server) && IsCut(l.hidden, l.runnerHidden, l.serverHidden)
    requires l.hidden == [] || InLockStep(l.parts, l.hidden)
    ensures GoodLists(l)
  {
    FieldTotals(commSize, l.runner, l.runnerHidden, elements, b, c);
    ServerTotal(commSize, Total(l.runner), b);
    ServerTotal(commSize, Total(l.runnerHidden), c);
    CutFits(l.parts, l.runner, l.server);
    CutFits(l.hidden, l.runnerHidden, l.serverHidden);
  }

  function HiddenPart(l: Lists, k: nat): Part {
    if k < |l.hidden| then l.hidden[k] else NO_PART
  }

  lemma PartsFit(l: Lists, k: nat)
    requires Fitting(l) && k < |l.parts|
    ensures var p, h := l.parts[k], HiddenPart(l, k);
            && p.rankRunner < |l.runner| && p.offsetRunner + p.count <= l.runner[p.rankRunner]
            && p.rankServer < |l.server| && p.offsetServer + p.count <= l.server[p.rankServer]
            && h.offsetRunner + h.count <= l.runnerHidden[p.rankRunner]
            && h.offsetServer + h.count <= l.serverHidden[p.rankServer]
  {
  }

  lemma ConnectionIsParts(l: Lists, k: nat)
    requires Fitting(l) && k < |l.parts|
    ensures var p, h := l.parts[k], HiddenPart(l, k);
            ConnectionOf(l.parts, l.hidden, k)
            == Connection(p.count, p.offsetRunner, h.count, h.offsetRunner, p.rankServer)
  {
  }

  // ----- to the server -----------------------------------------------------

  /** What the runner rank of part k sends through it. */
  function MessageFor(l: Lists, k: nat, blocks: seq<seq<byte>>, hiddenBlocks: seq<seq<byte>>,
                      stateId: int, step: int): Message
    requires Fitting(l) && k < |l.parts|
    requires HasLayout(blocks, l.runner) && HasLayout(hiddenBlocks, l.runnerHidden)
  {
    PartsFit(l, k);
    ConnectionIsParts(l, k);
    var r := l.parts[k].rankRunner;
    MessageOf(ConnectionOf(l.parts, l.hidden, k), stateId, step, blocks[r], hiddenBlocks[r])
  }

  /** The messages of a runner rank are those of its parts: each goes to the rank of the part and
      carries the sections of both vectors that belong there. */
  lemma ConnectionsFollowParts(l: Lists, r: nat, i: nat, blocks: seq<seq<byte>>, hiddenBlocks: seq<seq<byte>>,
                               stateId: int, step: int)
    requires Fitting(l) && HasLayout(blocks, l.runner) && HasLayout(hiddenBlocks, l.runnerHidden)
    requires r < |l.runner| && i < |PartsOfRunner(l.parts, r, |l.parts|)|
    ensures var k := PartsOfRunner(l.parts, r, |l.parts|)[i];
            var c := ConnectionsOf(l.parts, l.hidden, PartsOfRunner(l.parts, r, |l.parts|))[i];
            var msg := MessageFor(l, k, blocks, hiddenBlocks, stateId, step);
            && Reaches([c], |blocks[r]|, |hiddenBlocks[r]|)
            && MessageOf(c, stateId, step, blocks[r], hiddenBlocks[r]) == msg
            && msg.serverRank == l.parts[k].rankServer && msg.stateId == stateId && msg.step == step
            && msg.values == Upload(l.parts[k], blocks).values
            && (l.hidden != [] ==> msg.valuesHidden == Upload(l.hidden[k], hiddenBlocks).values)
  {
    var k := PartsOfRunner(l.parts, r, |l.parts|)[i];
    PartsFit(l, k);
    ConnectionIsParts(l, k);
  }

  /** A member on a server rank, before the first and after each of the messages for it. */
  ghost predicate Stores(l: Lists, trace: seq<Member>, arrivals: seq<nat>, blocks: seq<seq<byte>>,
                         hiddenBlocks: seq<seq<byte>>, stateId: int, step: int)
    requires Fitting(l) && HasLayout(blocks, l.runner) && HasLayout(hiddenBlocks, l.runnerHidden)
  {
    && |trace| == |arrivals| + 1
    && (forall i :: 0 <= i < |arrivals| ==> arrivals[i] < |l.parts|)
    && forall i :: 0 <= i < |arrivals| ==>
         StoresOne(l, trace[i], arrivals[i], blocks, hiddenBlocks, stateId, step, trace[i + 1])
  }

  ghost predicate StoresOne(l: Lists, m: Member, k: nat, blocks: seq<seq<byte>>, hiddenBlocks: seq<seq<byte>>,
                            stateId: int, step: int, m': Member)
    requires Fitting(l) && HasLayout(blocks, l.runner) && HasLayout(hiddenBlocks, l.runnerHidden)
  {
    k < |l.parts| &&
    var msg, p, h := MessageFor(l, k, blocks, hiddenBlocks, stateId, step), l.parts[k], HiddenPart(l, k);
    && |msg.values| + p.offsetServer <= |m.background| && |msg.valuesHidden| + h.offsetServer <= |m.hidden|
    && m' == StorePart(m, p, msg.values, h, msg.valuesHidden)
  }

  /** The parts a server rank looks up for a runner rank are those the runner rank has cut for it. */
  lemma PartsAreFound(l: Lists, k: nat, part: Part, hiddenPart: Part)
    requires GoodLists(l) && k < |l.parts|
    requires part in l.parts && SameRanks(part, l.parts[k])
    requires if l.hidden == [] then hiddenPart == NO_PART else hiddenPart in l.hidden && SameRanks(hiddenPart, l.parts[k])
    ensures part == l.parts[k] && hiddenPart == HiddenPart(l, k)
  {
    var r, s := l.parts[k].rankRunner, l.parts[k].rankServer;
    PartsFit(l, k);
    OnePartPerPair(l.parts, r, s, l.runner, l.server);
    var j :| 0 <= j < |l.parts| && l.parts[j] == part;
    if l.hidden != [] {
      OnePartPerPair(l.hidden, r, s, l.runnerHidden, l.serverHidden);
      var i :| 0 <= i < |l.hidden| && l.hidden[i] == hiddenPart;
    }
  }

  predicate SameRanks(p: Part, q: Part) {
    p.rankRunner == q.rankRunner && p.rankServer == q.rankServer
  }

  /** One message puts the uploads of its parts into both vectors. */
  lemma StoresUpload(l: Lists, m: Member, k: nat, blocks: seq<seq<byte>>, hiddenBlocks: seq<seq<byte>>,
                     stateId: int, step: int, m': Member)
    requires Fitting(l) && HasLayout(blocks, l.runner) && HasLayout(hiddenBlocks, l.runnerHidden)
    requires StoresOne(l, m, k, blocks, hiddenBlocks, stateId, step, m')
    ensures var piece := Upload(l.parts[k], blocks);
            && piece.offset + |piece.values| <= |m.background|
            && m'.background == Splice(m.background, piece.offset, piece.values)
    ensures l.hidden != [] ==>
              var piece := Upload(l.hidden[k], hiddenBlocks);
              && piece.offset + |piece.values| <= |m.hidden|
              && m'.hidden == Splice(m.hidden, piece.offset, piece.values)
  {
    PartsFit(l, k);
    ConnectionIsParts(l, k);
  }

  ghost predicate Takes(memory: seq<byte>, piece: Piece<byte>, memory': seq<byte>) {
    piece.offset + |piece.values| <= |memory| && memory' == Splice(memory, piece.offset, piece.values)
  }

  /** A memory that takes one piece after the other. */
  lemma {:induction false} FilledInTurn(memories: seq<seq<byte>>, pieces: seq<Piece<byte>>, n: nat)
    requires |memories| == |pieces| + 1 && n <= |pieces|
    requires forall i :: 0 <= i < |pieces| ==> Takes(memories[i], pieces[i], memories[i + 1])
    ensures AllPiecesFit(pieces[..n], |memories[0]|)
    ensures memories[n] == Fill(memories[0], pieces[..n])
  {
    if n > 0 {
      FilledInTurn(memories, pieces, n - 1);
      assert Takes(memories[n - 1], pieces[n - 1], memories[n]);
      assert pieces[..n] == pieces[..n - 1] + [pieces[n - 1]];
      FillOneMore(memories[0], pieces[..n - 1], pieces[n - 1]);
    }
  }

  /** The assimilated vector is filled with the uploads, message by message. */
  lemma BackgroundFilled(l: Lists, trace: seq<Member>, arrivals: seq<nat>, blocks: seq<seq<byte>>,
                         hiddenBlocks: seq<seq<byte>>, stateId: int, step: int)
    requires Fitting(l) && HasLayout(blocks, l.runner) && HasLayout(hiddenBlocks, l.runnerHidden)
    requires Stores(l, trace, arrivals, blocks, hiddenBlocks, stateId, step)
    ensures AllPiecesFit(Uploads(arrivals, l.parts, blocks), |trace[0].background|)
    ensures trace[|arrivals|].background == Fill(trace[0].background, Uploads(arrivals, l.parts, blocks))
  {
    var pieces := Uploads(arrivals, l.parts, blocks);
    forall i | 0 <= i < |pieces| ensures Takes(Backgrounds(trace)[i], pieces[i], Backgrounds(trace)[i + 1]) {
      StoresUpload(l, trace[i], arrivals[i], blocks, hiddenBlocks, stateId, step, trace[i + 1]);
    }
    FilledInTurn(Backgrounds(trace), pieces, |pieces|);
    assert pieces[..|pieces|] == pieces;
  }

  /** And so is the hidden one, if there is one. */
  lemma HiddenFilled(l: Lists, trace: seq<Member>, arrivals: seq<nat>, blocks: seq<seq<byte>>,
                     hiddenBlocks: seq<seq<byte>>, stateId: int, step: int)
    requires Fitting(l) && HasLayout(blocks, l.runner) && HasLayout(hiddenBlocks, l.runnerHidden) && l.hidden != []
    requires Stores(l, trace, arrivals, blocks, hiddenBlocks, stateId, step)
    ensures AllPiecesFit(Uploads(arrivals, l.hidden, hiddenBlocks), |trace[0].hidden|)
    ensures trace[|arrivals|].hidden == Fill(trace[0].hidden, Uploads(arrivals, l.hidden, hiddenBlocks))
  {
    var pieces := Uploads(arrivals, l.hidden, hiddenBlocks);
    forall i | 0 <= i < |pieces| ensures Takes(Hiddens(trace)[i], pieces[i], Hiddens(trace)[i + 1]) {
      StoresUpload(l, trace[i], arrivals[i], blocks, hiddenBlocks, stateId, step, trace[i + 1]);
    }
    FilledInTurn(Hiddens(trace), pieces, |pieces|);
    assert pieces[..|pieces|] == pieces;
  }

  // ----- back to a runner --------------------------------------------------

  ghost predicate HaveLayout(members: seq<Member>, server: seq<nat>, serverHidden: seq<nat>) {
    && |members| == |server| == |serverHidden|
    && forall s :: 0 <= s < |members| ==> |members[s].background| == server[s] && |members[s].hidden| == serverHidden[s]
  }

  /** The replies to a runner rank, one for each of its connections. */
  ghost predicate AreReplies(l: Lists, members: seq<Member>, r: nat, stateId: int, step: int, nsteps: int,
                             replies: seq<Reply>)
    requires Fitting(l) && HaveLayout(members, l.server, l.serverHidden)
  {
    var ks := PartsOfRunner(l.parts, r, |l.parts|);
    && |replies| == |ks|
    && forall i :: 0 <= i < |ks| ==> IsReply(l, members, ks[i], stateId, step, nsteps, replies[i])
  }

  ghost predicate IsReply(l: Lists, members: seq<Member>, k: nat, stateId: int, step: int, nsteps: int, reply: Reply)
    requires Fitting(l) && HaveLayout(members, l.server, l.serverHidden) && k < |l.parts|
  {
    PartsFit(l, k);
    reply == ReplyOf(members[l.parts[k].rankServer], l.parts[k], HiddenPart(l, k), stateId, step, nsteps)
  }

  lemma ReplyIsDownload(l: Lists, members: seq<Member>, k: nat, stateId: int, step: int, nsteps: int, reply: Reply)
    requires Fitting(l) && HaveLayout(members, l.server, l.serverHidden) && k < |l.parts|
    requires IsReply(l, members, k, stateId, step, nsteps, reply)
    ensures var c := ConnectionOf(l.parts, l.hidden, k);
            && reply.ChangeState? && |reply.values| == c.sendCount && |reply.valuesHidden| == c.sendCountHidden
            && reply.stateId == stateId && reply.step == step && reply.nsteps == nsteps
            && Piece(c.localVectorOffset, reply.values) == Download(l.parts[k], Backgrounds(members))
            && (if l.hidden == [] then c.localVectorOffsetHidden == 0 && reply.valuesHidden == []
                else Piece(c.localVectorOffsetHidden, reply.valuesHidden) == Download(l.hidden[k], Hiddens(members)))
  {
    PartsFit(l, k);
    ConnectionIsParts(l, k);
  }

  lemma RepliesAreDownloads(l: Lists, members: seq<Member>, r: nat, stateId: int, step: int, nsteps: int,
                            replies: seq<Reply>)
    requires Fitting(l) && HaveLayout(members, l.server, l.serverHidden)
    requires AreReplies(l, members, r, stateId, step, nsteps, replies)
    ensures forall i :: 0 <= i < |replies| ==>
              && replies[i].ChangeState? && replies[i].stateId == stateId
              && replies[i].step == step && replies[i].nsteps == nsteps
    ensures var ks := PartsOfRunner(l.parts, r, |l.parts|);
            var cs := ConnectionsOf(l.parts, l.hidden, ks);
            && Answers(replies, cs)
            && ReplyPieces(replies, cs) == Downloads(ks, l.parts, Backgrounds(members))
            && (l.hidden != [] ==> ReplyPiecesHidden(replies, cs) == Downloads(ks, l.hidden, Hiddens(members)))
            && (l.hidden == [] ==> forall i :: 0 <= i < |cs| ==> ReplyPiecesHidden(replies, cs)[i] == Piece(0, []))
  {
    var ks := PartsOfRunner(l.parts, r, |l.parts|);
    forall i | 0 <= i < |ks|
      ensures var c := ConnectionOf(l.parts, l.hidden, ks[i]);
              && replies[i].ChangeState? && |replies[i].values| == c.sendCount
              && |replies[i].valuesHidden| == c.sendCountHidden && replies[i].nsteps == nsteps
              && replies[i].stateId == stateId && replies[i].step == step
              && Piece(c.localVectorOffset, replies[i].values) == Download(l.parts[ks[i]], Backgrounds(members))
              && (if l.hidden == [] then c.localVectorOffsetHidden == 0 && replies[i].valuesHidden == []
                  else Piece(c.localVectorOffsetHidden, replies[i].valuesHidden)
                       == Download(l.hidden[ks[i]], Hiddens(members)))
    {
      ReplyIsDownload(l, members, ks[i], stateId, step, nsteps, replies[i]);
    }
  }

  function Backgrounds(members: seq<Member>): (blocks: seq<seq<byte>>)
    ensures |blocks| == |members|
  {
    seq(|members|, s requires 0 <= s < |members| => members[s].background)
  }

  function Hiddens(members: seq<Member>): (blocks: seq<seq<byte>>)
    ensures |blocks| == |members|
  {
    seq(|members|, s requires 0 <= s < |members| => members[s].hidden)
  }

  // ----- there and back ----------------------------------------------------

  /** What a server rank has made of the messages for it, in any order. */
  ghost predicate StoredAt(l: Lists, s: nat, trace: seq<Member>, arrivals: seq<nat>, blocks: seq<seq<byte>>,
                           hiddenBlocks: seq<seq<byte>>, stateId: int, step: int, member: Member)
    requires Fitting(l) && HasLayout(blocks, l.runner) && HasLayout(hiddenBlocks, l.runnerHidden) && s < |l.server|
  {
    && CompleteForServer(arrivals, l.parts, s)
    && Stores(l, trace, arrivals, blocks, hiddenBlocks, stateId, step)
    && |trace[0].background| == l.server[s] && |trace[0].hidden| == l.serverHidden[s]
    && trace[|arrivals|] == member
  }

  ghost predicate AllStored(l: Lists, traces: seq<seq<Member>>, arrivals: seq<seq<nat>>, blocks: seq<seq<byte>>,
                            hiddenBlocks: seq<seq<byte>>, stateId: int, step: int, members: seq<Member>)
    requires Fitting(l) && HasLayout(blocks, l.runner) && HasLayout(hiddenBlocks, l.runnerHidden)
  {
    && |traces| == |arrivals| == |members| == |l.server|
    && forall s :: 0 <= s < |l.server| ==>
         StoredAt(l, s, traces[s], arrivals[s], blocks, hiddenBlocks, stateId, step, members[s])
  }

  /** The block is what all messages for the server rank make of the memory. */
  ghost predicate IsFilled(block: seq<byte>, memory: seq<byte>, arrivals: seq<nat>, parts: seq<Part>, s: nat,
                           blocks: seq<seq<byte>>) {
    && CompleteForServer(arrivals, parts, s)
    && AllPiecesFit(Uploads(arrivals, parts, blocks), |memory|)
    && block == Fill(memory, Uploads(arrivals, parts, blocks))
  }

  lemma StoredIsFilled(l: Lists, s: nat, trace: seq<Member>, arrivals: seq<nat>, blocks: seq<seq<byte>>,
                       hiddenBlocks: seq<seq<byte>>, stateId: int, step: int, member: Member)
    requires Fitting(l) && HasLayout(blocks, l.runner) && HasLayout(hiddenBlocks, l.runnerHidden) && s < |l.server|
    requires StoredAt(l, s, trace, arrivals, blocks, hiddenBlocks, stateId, step, member)
    ensures IsFilled(member.background, trace[0].background, arrivals, l.parts, s, blocks)
    ensures l.hidden != [] ==> IsFilled(member.hidden, trace[0].hidden, arrivals, l.hidden, s, hiddenBlocks)
    ensures |trace[0].background| == l.server[s] && |trace[0].hidden| == l.serverHidden[s]
  {
    BackgroundFilled(l, trace, arrivals, blocks, hiddenBlocks, stateId, step);
    if l.hidden != [] {
      HiddenFilled(l, trace, arrivals, blocks, hiddenBlocks, stateId, step);
    }
  }

  /** Every server rank has its block of both vectors filled, from whatever memory it had. */
  lemma AllFilled(l: Lists, traces: seq<seq<Member>>, arrivals: seq<seq<nat>>, blocks: seq<seq<byte>>,
                  hiddenBlocks: seq<seq<byte>>, stateId: int, step: int, members: seq<Member>)
    returns (memory: seq<seq<byte>>, memoryHidden: seq<seq<byte>>)
    requires Fitting(l) && HasLayout(blocks, l.runner) && HasLayout(hiddenBlocks, l.runnerHidden)
    requires AllStored(l, traces, arrivals, blocks, hiddenBlocks, stateId, step, members)
    ensures HasLayout(memory, l.server) && HasLayout(memoryHidden, l.serverHidden)
    ensures AreFilled(Backgrounds(members), memory, arrivals, l.parts, blocks)
    ensures l.hidden != [] ==> AreFilled(Hiddens(members), memoryHidden, arrivals, l.hidden, hiddenBlocks)
  {
    var n := |traces|;
    memory := seq(n, s requires 0 <= s < n => if traces[s] == [] then [] else traces[s][0].background);
    memoryHidden := seq(n, s requires 0 <= s < n => if traces[s] == [] then [] else traces[s][0].hidden);
    forall s | 0 <= s < n
      ensures IsFilled(Backgrounds(members)[s], memory[s], arrivals[s], l.parts, s, blocks)
      ensures l.hidden != [] ==> IsFilled(Hiddens(members)[s], memoryHidden[s], arrivals[s], l.hidden, s, hiddenBlocks)
      ensures |memory[s]| == l.server[s] && |memoryHidden[s]| == l.serverHidden[s]
    {
      StoredIsFilled(l, s, traces[s], arrivals[s], blocks, hiddenBlocks, stateId, step, members[s]);
    }
  }

  ghost predicate AreFilled(stored: seq<seq<byte>>, memory: seq<seq<byte>>, arrivals: seq<seq<nat>>, parts: seq<Part>,
                            blocks: seq<seq<byte>>) {
    && |stored| == |memory| == |arrivals|
    && forall s :: 0 <= s < |stored| ==> IsFilled(stored[s], memory[s], arrivals[s], parts, s, blocks)
  }

  lemma {:induction false} FillWithNothing(memory: seq<byte>, pieces: seq<Piece<byte>>)
    requires AllPiecesFit(pieces, |memory|) && forall i :: 0 <= i < |pieces| ==> pieces[i].values == []
    ensures Fill(memory, pieces) == memory
  {
    if |pieces| > 0 {
      FillWithNothing(memory, pieces[..|pieces| - 1]);
    }
  }

  /** A field without hidden parts has an empty hidden vector. */
  lemma NothingHidden(l: Lists, r: nat)
    requires GoodLists(l) && l.hidden == [] && r < |l.runnerHidden|
    ensures l.runnerHidden[r] == 0
  {
    StartMonotone(l.runnerHidden, r + 1, |l.runnerHidden|);
  }

  /** All runner ranks put their state; every server rank stores what it gets, in any order, over
      whatever it had; it answers, to any runner of the same layout, with what it has stored; and what
      the runner's rank r then gets are both vectors as they were put. */
  lemma ExchangeSurvives(l: Lists, blocks: seq<seq<byte>>, hiddenBlocks: seq<seq<byte>>, stateId: int, step: int,
                         traces: seq<seq<Member>>, arrivals: seq<seq<nat>>, members: seq<Member>,
                         r: nat, replies: seq<Reply>, step': int, nsteps: int, values: seq<byte>, hiddenValues: seq<byte>)
    requires GoodLists(l) && HasLayout(blocks, l.runner) && HasLayout(hiddenBlocks, l.runnerHidden)
    requires AllStored(l, traces, arrivals, blocks, hiddenBlocks, stateId, step, members)
    requires HaveLayout(members, l.server, l.serverHidden)
    requires AreReplies(l, members, r, stateId, step', nsteps, replies)
    requires r < |l.runner| && |values| == l.runner[r] && |hiddenValues| == l.runnerHidden[r]
    ensures var cs := ConnectionsOf(l.parts, l.hidden, PartsOfRunner(l.parts, r, |l.parts|));
            && Answers(replies, cs)
            && AllPiecesFit(ReplyPieces(replies, cs), |values|)
            && Fill(values, ReplyPieces(replies, cs)) == blocks[r]
            && AllPiecesFit(ReplyPiecesHidden(replies, cs), |hiddenValues|)
            && Fill(hiddenValues, ReplyPiecesHidden(replies, cs)) == hiddenBlocks[r]
  {
    RepliesAreDownloads(l, members, r, stateId, step', nsteps, replies);
    var memory, memoryHidden := AllFilled(l, traces, arrivals, blocks, hiddenBlocks, stateId, step, members);
    VectorSurvives(l.parts, blocks, l.runner, l.server, memory, arrivals, Backgrounds(members), r, values);
    if l.hidden != [] {
      SamePartsOfRunner(l.parts, l.hidden, r, |l.parts|);
      VectorSurvives(l.hidden, hiddenBlocks, l.runnerHidden, l.serverHidden, memoryHidden, arrivals, Hiddens(members),
                     r, hiddenValues);
    } else {
      NothingHidden(l, r);
      var cs := ConnectionsOf(l.parts, l.hidden, PartsOfRunner(l.parts, r, |l.parts|));
      FillWithNothing(hiddenValues, ReplyPiecesHidden(replies, cs));
    }
  }

  lemma {:induction false} SamePartsOfRunner(parts: seq<Part>, hidden: seq<Part>, r: nat, n: nat)
    requires InLockStep(parts, hidden) && n <= |parts|
    ensures PartsOfRunner(hidden, r, n) == PartsOfRunner(parts, r, n)
  {
    if n > 0 {
      SamePartsOfRunner(parts, hidden, r, n - 1);
    }
  }

  lemma VectorSurvives(parts: seq<Part>, blocks: seq<seq<byte>>, runner: seq<nat>, server: seq<nat>,
                       memory: seq<seq<byte>>, arrivals: seq<seq<nat>>, stored: seq<seq<byte>>, r: nat, values: seq<byte>)
    requires IsCut(parts, runner, server) && Total(server) == Total(runner)
    requires HasLayout(blocks, runner) && HasLayout(memory, server)
    requires AreFilled(stored, memory, arrivals, parts, blocks)
    requires r < |runner| && |values| == runner[r]
    ensures var pieces := Downloads(PartsOfRunner(parts, r, |parts|), parts, stored);
            AllPiecesFit(pieces, |values|) && Fill(values, pieces) == blocks[r]
  {
    forall s | 0 <= s < |server|
      ensures CompleteForServer(arrivals[s], parts, s)
      ensures AllPiecesFit(Uploads(arrivals[s], parts, blocks), |memory[s]|)
      ensures stored[s] == Fill(memory[s], Uploads(arrivals[s], parts, blocks))
    {
      assert IsFilled(stored[s], memory[s], arrivals[s], parts, s, blocks);
    }
    StateSurvives(parts, blocks, runner, server, memory, arrivals, stored, r, values, PartsOfRunner(parts, r, |parts|));
  }
}
