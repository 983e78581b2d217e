/**
 Capacity-driven splitting: a FIFO queue of chunks that are sent to the model or cut into
 pieces and queued again. Prompt sizes, capacity verdicts and model answers are arbitrary.
 */
module AtomicProblems {
  import opened DependencyChunks
  import opened CapacitySplit
  import opened Basics

  const MAX_SPLIT_DEPTH := 5

  // ---------- The work queue ----------

  /** What a model call comes back with: a lost connection, a failure, or extracted problems. */
  datatype Answer = Transient | Failed | Extracted(problems: seq<int>)

  /** Everything the queue learns about one chunk from outside. */
  datatype Reply = Reply(promptSize: nat, fits: bool, answer: Answer)

  datatype Item = Item(chunk: Chunk, depth: nat)

  /** A call whose result was kept: the chunk, its depth, the turn of the call, the problems. */
  datatype Call = Call(chunk: Chunk, depth: nat, turn: nat, problems: seq<int>)

  datatype Outcome = Aborted | Finished(problems: seq<int>)

  function Problems(answer: Answer): seq<int> {
    if answer.Extracted? then answer.problems else []
  }

  function Chunks(queue: seq<Item>): seq<Chunk> {
    seq(|queue|, i requires 0 <= i < |queue| => queue[i].chunk)
  }

  function CallChunks(calls: seq<Call>): seq<Chunk> {
    seq(|calls|, i requires 0 <= i < |calls| => calls[i].chunk)
  }

  function AllProblems(calls: seq<Call>): seq<int> {
    if calls == [] then [] else AllProblems(calls[..|calls| - 1]) + calls[|calls| - 1].problems
  }

  function Queue(pieces: seq<Chunk>, depth: nat): seq<Item> {
    seq(|pieces|, i requires 0 <= i < |pieces| => Item(pieces[i], depth))
  }

  function AtDepth(queue: seq<Item>, d: nat): nat {
    if queue == [] then 0 else (if queue[0].depth == d then 1 else 0) + AtDepth(queue[1..], d)
  }

  lemma {:induction false} AtDepthJoin(a: seq<Item>, b: seq<Item>, d: nat)
    ensures AtDepth(a + b, d) == AtDepth(a, d) + AtDepth(b, d)
  {
    if a == [] {
      JoinEmpty(b);
    } else {
      TailOfJoin(a, b);
      AtDepthJoin(a[1..], b, d);
    }
  }

  lemma {:induction false} AtDepthQueue(pieces: seq<Chunk>, depth: nat, d: nat)
    ensures AtDepth(Queue(pieces, depth), d) == if d == depth then |pieces| else 0
  {
    if pieces != [] {
      assert Queue(pieces, depth)[1..] == Queue(pieces[1..], depth);
      AtDepthQueue(pieces[1..], depth, d);
    }
  }

  /** Depths never fall along the queue and differ by at most one. */
  ghost predicate TwoLevels(queue: seq<Item>) {
    && (forall i :: 0 <= i < |queue| ==> queue[i].depth <= MAX_SPLIT_DEPTH)
    && (forall i, j :: 0 <= i < j < |queue| ==> queue[i].depth <= queue[j].depth <= queue[i].depth + 1)
  }

  /** Every queued or finished chunk descends from the first one. */
  ghost predicate AllDescend(start: Chunk, chunks: seq<Chunk>) {
    forall i :: 0 <= i < |chunks| ==> Descends(chunks[i], start)
  }

  /** Every change of the first chunk is still in the queue or in a finished call. */
  ghost predicate Conserved(start: Chunk, calls: seq<Call>, queue: seq<Item>) {
    Safe(start) ==> multiset(start.changes) <= Sum(CallChunks(calls)) + Sum(Chunks(queue))
  }

  predicate Splittable(chunk: Chunk, depth: nat) {
    |chunk.changes| > 1 && depth < MAX_SPLIT_DEPTH
  }

  ghost predicate QueueState(start: Chunk, queue: seq<Item>, calls: seq<Call>) {
    && TwoLevels(queue)
    && AllDescend(start, Chunks(queue)) && AllDescend(start, CallChunks(calls))
    && Conserved(start, calls, queue)
  }

  lemma {:induction false} PopChunks(queue: seq<Item>)
    requires queue != []
    ensures Chunks(queue) == [queue[0].chunk] + Chunks(queue[1..])
    ensures Sum(Chunks(queue)) == multiset(queue[0].chunk.changes) + Sum(Chunks(queue[1..]))
  {
    assert Chunks(queue)[1..] == Chunks(queue[1..]);
  }

  /** Dropping a chunk without changes. */
  lemma {:induction false} AfterSkip(start: Chunk, queue: seq<Item>, calls: seq<Call>)
    requires QueueState(start, queue, calls) && queue != [] && queue[0].chunk.changes == []
    ensures QueueState(start, queue[1..], calls)
  {
    PopChunks(queue);
    assert Chunks(queue[1..]) == Chunks(queue)[1..];
  }

  lemma {:induction false} AfterCall(start: Chunk, queue: seq<Item>, calls: seq<Call>, call: Call)
    requires QueueState(start, queue, calls) && queue != [] && call.chunk == queue[0].chunk
    ensures QueueState(start, queue[1..], calls + [call])
  {
    PopChunks(queue);
    assert Chunks(queue[1..]) == Chunks(queue)[1..];
    assert CallChunks(calls + [call]) == CallChunks(calls) + [call.chunk];
    SumJoin(CallChunks(calls), [call.chunk]);
    SumOne(call.chunk);
    assert Descends(Chunks(queue)[0], start);
  }

  lemma {:induction false} LevelsAfterSplit(queue: seq<Item>, pieces: seq<Chunk>)
    requires TwoLevels(queue) && queue != [] && queue[0].depth < MAX_SPLIT_DEPTH
    ensures TwoLevels(queue[1..] + Queue(pieces, queue[0].depth + 1))
  {
    var rest, added := queue[1..], Queue(pieces, queue[0].depth + 1);
    var all := rest + added;
    forall i | 0 <= i < |all| ensures queue[0].depth <= all[i].depth <= queue[0].depth + 1 {
      assert i < |rest| ==> all[i] == queue[i + 1];
    }
  }

  lemma {:induction false} ChunksAfterSplit(queue: seq<Item>, pieces: seq<Chunk>)
    requires queue != []
    ensures Chunks(queue[1..] + Queue(pieces, queue[0].depth + 1)) == Chunks(queue[1..]) + pieces
    ensures Chunks(queue[1..]) == Chunks(queue)[1..]
  {
  }

  lemma {:induction false} DescendAfterSplit(start: Chunk, chunks: seq<Chunk>, chunk: Chunk, pieces: seq<Chunk>)
    requires AllDescend(start, chunks) && chunks != []
    requires chunk.changes == chunks[0].changes && chunk.contexts == chunks[0].contexts && !chunk.terminal
    requires forall i :: 0 <= i < |pieces| ==> Descends(pieces[i], chunk)
    ensures Descends(chunk, start) && AllDescend(start, chunks[1..] + pieces)
  {
    assert Descends(chunks[0], start);
    assert Descends(chunk, start);
    forall i | 0 <= i < |pieces| ensures Descends(pieces[i], start) {
      DescendsTwice(pieces[i], chunk, start);
    }
  }

  /** Cutting a chunk above the depth limit into pieces one level down. */
  lemma {:induction false} AfterSplit(start: Chunk, queue: seq<Item>, calls: seq<Call>, chunk: Chunk,
                                      pieces: seq<Chunk>)
    requires QueueState(start, queue, calls) && queue != [] && queue[0].depth < MAX_SPLIT_DEPTH
    requires chunk.changes == queue[0].chunk.changes && chunk.contexts == queue[0].chunk.contexts && !chunk.terminal
    requires IsCapacitySplit(chunk, pieces)
    ensures QueueState(start, queue[1..] + Queue(pieces, queue[0].depth + 1), calls)
  {
    LevelsAfterSplit(queue, pieces);
    ChunksAfterSplit(queue, pieces);
    DescendAfterSplit(start, Chunks(queue), chunk, pieces);
    PopChunks(queue);
    SumJoin(Chunks(queue[1..]), pieces);
    if Safe(start) {
      SafePiece(chunk, start);
    }
  }

  /** Popping one item lowers the count at its depth and raises only the next one. */
  lemma {:induction false} DepthCounts(queue: seq<Item>, pieces: seq<Chunk>, d: nat)
    requires queue != []
    ensures AtDepth(queue[1..] + Queue(pieces, queue[0].depth + 1), d) ==
            AtDepth(queue, d) - (if d == queue[0].depth then 1 else 0)
            + (if d == queue[0].depth + 1 then |pieces| else 0)
  {
    AtDepthJoin(queue[1..], Queue(pieces, queue[0].depth + 1), d);
    AtDepthQueue(pieces, queue[0].depth + 1, d);
  }

  /** The measure: fewer items at the depth of the head, as many as before above it. */
  ghost predicate Falls(queue: seq<Item>, queue': seq<Item>, depth: nat) {
    && AtDepth(queue', depth) == AtDepth(queue, depth) - 1
    && forall d: nat :: d < depth ==> AtDepth(queue', d) == AtDepth(queue, d)
  }

  lemma {:induction false} PopFalls(queue: seq<Item>)
    requires queue != []
    ensures Falls(queue, queue[1..], queue[0].depth)
  {
  }

  // ---------- The run, turn by turn ----------

  /** One chunk that was measured: its item, and the pieces it was cut into, if any. */
  datatype Turn = Turn(item: Item, pieces: seq<Chunk>)

  /** Too large for the model, and it can still be cut. */
  ghost predicate CutForSize(item: Item, reply: Reply) {
    !reply.fits && |item.chunk.changes| > 1 && item.depth < 5
  }

  /** The call found nothing, and the chunk may be cut for a second try. */
  ghost predicate CutForRetry(item: Item, reply: Reply) {
    && !CutForSize(item, reply) && (reply.answer == Failed || reply.answer == Extracted([]))
    && |item.chunk.changes| > 1 && item.depth < 5 && !item.chunk.terminal
  }

  /** The connection was lost on a chunk that was sent to the model. */
  ghost predicate Breaks(item: Item, reply: Reply) {
    !CutForSize(item, reply) && reply.answer == Transient
  }

  /** What the call found is kept. */
  ghost predicate KeepsResult(item: Item, reply: Reply) {
    !CutForSize(item, reply) && !CutForRetry(item, reply) && reply.answer != Transient
  }

  /** A chunk has changes when its turn comes; it is cut in the way that fits its prompt, or not at all. */
  ghost predicate TurnOk(half: nat, oracle: nat -> Reply, trace: seq<Turn>, i: nat)
    requires half > 0 && i < |trace|
  {
    var item, reply := trace[i].item, oracle(i);
    && item.chunk.changes != [] && item.depth <= 5
    && if CutForSize(item, reply) || CutForRetry(item, reply)
       then IsStrategySplit(item.chunk.(terminal := false), reply.promptSize, half, trace[i].pieces)
       else trace[i].pieces == []
  }

  /** Everything that was ever queued: the first chunk, then the pieces turn by turn, one level down. */
  ghost function Queued(start: Chunk, trace: seq<Turn>): seq<Item> {
    if trace == [] then [Item(start, 0)] else
      var last := trace[|trace| - 1];
      Queued(start, trace[..|trace| - 1])
      + seq(|last.pieces|, i requires 0 <= i < |last.pieces| => Item(last.pieces[i], last.item.depth + 1))
  }

  /** The items that have changes, in order; the others are dropped when they are taken up. */
  ghost function WithChanges(items: seq<Item>): seq<Item> {
    if items == [] then [] else (if items[0].chunk.changes == [] then [] else [items[0]]) + WithChanges(items[1..])
  }

  /** First in, first out: turn i takes up the i-th item with changes that was queued by earlier turns. */
  ghost predicate TakesInOrder(start: Chunk, trace: seq<Turn>, i: nat)
    requires i < |trace|
  {
    i < |WithChanges(Queued(start, trace[..i]))| && WithChanges(Queued(start, trace[..i]))[i] == trace[i].item
  }

  /** The calls are those of the turns that keep their result, in order. */
  ghost predicate CallsOf(oracle: nat -> Reply, trace: seq<Turn>, calls: seq<Call>) {
    && (forall k :: 0 <= k < |calls| ==> IsCallOf(oracle, trace, calls[k]))
    && (forall j, k :: 0 <= j < k < |calls| ==> calls[j].turn < calls[k].turn)
    && (forall i :: 0 <= i < |trace| && KeepsResult(trace[i].item, oracle(i)) ==>
                      exists k :: 0 <= k < |calls| && calls[k].turn == i)
  }

  ghost predicate IsCallOf(oracle: nat -> Reply, trace: seq<Turn>, call: Call) {
    && call.turn < |trace| && trace[call.turn].item == Item(call.chunk, call.depth)
    && KeepsResult(trace[call.turn].item, oracle(call.turn))
    && call.problems == match oracle(call.turn).answer case Extracted(ps) => ps case _ => []
  }

  ghost predicate IsTrace(start: Chunk, half: nat, oracle: nat -> Reply, trace: seq<Turn>, calls: seq<Call>)
    requires half > 0
  {
    && (forall i :: 0 <= i < |trace| ==> TurnOk(half, oracle, trace, i))
    && (forall i :: 0 <= i < |trace| ==> TakesInOrder(start, trace, i))
    && CallsOf(oracle, trace, calls)
  }

  /**
   The whole run. It aborts exactly when the last turn lost the connection on a chunk that was sent to the
   model; no turn before does. Otherwise it ends when all that was queued has been taken up, with the problems
   of the kept calls in order.
   */
  ghost predicate IsRunOf(start: Chunk, half: nat, oracle: nat -> Reply, trace: seq<Turn>, calls: seq<Call>,
                          outcome: Outcome)
    requires half > 0
  {
    && IsTrace(start, half, oracle, trace, calls)
    && (forall i :: 0 <= i < |trace| - 1 ==> !Breaks(trace[i].item, oracle(i)))
    && (outcome.Aborted? <==> trace != [] && Breaks(trace[|trace| - 1].item, oracle(|trace| - 1)))
    && (outcome.Finished? ==>
          outcome.problems == AllProblems(calls) && |WithChanges(Queued(start, trace))| == |trace|)
  }

  // ---------- Keeping the trace ----------

  ghost function Items(trace: seq<Turn>): seq<Item> {
    seq(|trace|, i requires 0 <= i < |trace| => trace[i].item)
  }

  /** The loop: the trace so far, and what of all that was queued is still in the queue. */
  ghost predicate Tracing(start: Chunk, half: nat, oracle: nat -> Reply, trace: seq<Turn>, calls: seq<Call>,
                          queue: seq<Item>)
    requires half > 0
  {
    && CallsOf(oracle, trace, calls) && Books(start, half, oracle, trace, queue)
    && (forall i :: 0 <= i < |trace| ==> !Breaks(trace[i].item, oracle(i)))
  }

  ghost predicate Books(start: Chunk, half: nat, oracle: nat -> Reply, trace: seq<Turn>, queue: seq<Item>)
    requires half > 0
  {
    && (forall i :: 0 <= i < |trace| ==> TurnOk(half, oracle, trace, i))
    && (forall i :: 0 <= i < |trace| ==> TakesInOrder(start, trace, i))
    && WithChanges(Queued(start, trace)) == Items(trace) + WithChanges(queue)
  }

  lemma {:induction false} WithChangesJoin(a: seq<Item>, b: seq<Item>)
    ensures WithChanges(a + b) == WithChanges(a) + WithChanges(b)
  {
    if a == [] {
      JoinEmpty(b);
    } else {
      TailOfJoin(a, b);
      WithChangesJoin(a[1..], b);
      JoinAssociates(if a[0].chunk.changes == [] then [] else [a[0]], WithChanges(a[1..]), WithChanges(b));
    }
  }

  /** The books after one more turn on the head of the queue. */
  lemma {:induction false} QueuedAfter(start: Chunk, trace: seq<Turn>, queue: seq<Item>, pieces: seq<Chunk>)
    requires WithChanges(Queued(start, trace)) == Items(trace) + WithChanges(queue)
    requires queue != [] && queue[0].chunk.changes != []
    ensures var more := trace + [Turn(queue[0], pieces)];
            && WithChanges(Queued(start, more)) ==
               Items(more) + WithChanges(queue[1..] + Queue(pieces, queue[0].depth + 1))
            && TakesInOrder(start, more, |trace|)
  {
    var added := Queue(pieces, queue[0].depth + 1);
    TraceNext(start, trace, Turn(queue[0], pieces));
    WithChangesJoin(Queued(start, trace), added);
    WithChangesJoin(queue[1..], added);
    HeadFirst(Items(trace), queue[0], WithChanges(queue[1..]), WithChanges(added));
  }

  lemma {:induction false} TraceNext(start: Chunk, trace: seq<Turn>, turn: Turn)
    ensures (trace + [turn])[..|trace|] == trace && (trace + [turn])[|trace|] == turn
    ensures Queued(start, trace + [turn]) == Queued(start, trace) + Queue(turn.pieces, turn.item.depth + 1)
    ensures Items(trace + [turn]) == Items(trace) + [turn.item]
  {
    assert (trace + [turn])[..|trace|] == trace;
  }

  lemma {:induction false} HeadFirst(done: seq<Item>, head: Item, rest: seq<Item>, added: seq<Item>)
    ensures (done + ([head] + rest)) + added == (done + [head]) + (rest + added)
    ensures |done| < |done + ([head] + rest)| && (done + ([head] + rest))[|done|] == head
  {
    JoinAssociates(done, [head], rest);
    JoinAssociates(done + [head], rest, added);
  }

  /** One more turn; earlier turns do not change. */
  lemma {:induction false} BooksAfter(start: Chunk, half: nat, oracle: nat -> Reply, trace: seq<Turn>, queue: seq<Item>,
                   pieces: seq<Chunk>)
    requires half > 0 && Books(start, half, oracle, trace, queue) && queue != []
    requires TurnOk(half, oracle, trace + [Turn(queue[0], pieces)], |trace|)
    ensures Books(start, half, oracle, trace + [Turn(queue[0], pieces)],
                  queue[1..] + Queue(pieces, queue[0].depth + 1))
  {
    var more := trace + [Turn(queue[0], pieces)];
    QueuedAfter(start, trace, queue, pieces);
    forall i | 0 <= i < |more|
      ensures TurnOk(half, oracle, more, i) && TakesInOrder(start, more, i)
    {
      if i < |trace| {
        assert TurnOk(half, oracle, trace, i) && TakesInOrder(start, trace, i);
        assert more[..i] == trace[..i] && more[i] == trace[i];
      }
    }
  }

  lemma {:induction false} CallsKept(oracle: nat -> Reply, trace: seq<Turn>, calls: seq<Call>, turn: Turn)
    requires CallsOf(oracle, trace, calls) && !KeepsResult(turn.item, oracle(|trace|))
    ensures CallsOf(oracle, trace + [turn], calls)
  {
    forall k | 0 <= k < |calls| ensures IsCallOf(oracle, trace + [turn], calls[k]) {
      assert IsCallOf(oracle, trace, calls[k]);
    }
  }

  lemma {:induction false} CallAdded(oracle: nat -> Reply, trace: seq<Turn>, calls: seq<Call>, turn: Turn, call: Call)
    requires CallsOf(oracle, trace, calls) && call.turn == |trace| && IsCallOf(oracle, trace + [turn], call)
    ensures CallsOf(oracle, trace + [turn], calls + [call])
  {
    var more, all := trace + [turn], calls + [call];
    forall k | 0 <= k < |all| ensures IsCallOf(oracle, more, all[k]) && (k < |calls| ==> all[k].turn < |trace|) {
      if k < |calls| {
        assert IsCallOf(oracle, trace, calls[k]);
      }
    }
    forall i | 0 <= i < |more| && KeepsResult(more[i].item, oracle(i))
      ensures exists k :: 0 <= k < |all| && all[k].turn == i
    {
      if i < |trace| {
        var k :| 0 <= k < |calls| && calls[k].turn == i;
        assert all[k].turn == i;
      } else {
        assert all[|calls|] == call;
      }
    }
  }

  lemma {:induction false} NoBreakAfter(oracle: nat -> Reply, trace: seq<Turn>, turn: Turn)
    requires forall i :: 0 <= i < |trace| ==> !Breaks(trace[i].item, oracle(i))
    requires !Breaks(turn.item, oracle(|trace|))
    ensures forall i :: 0 <= i < |trace + [turn]| ==> !Breaks((trace + [turn])[i].item, oracle(i))
  {
  }

  /** A turn that cuts its chunk. */
  lemma {:induction false} TraceCut(start: Chunk, half: nat, oracle: nat -> Reply, trace: seq<Turn>, calls: seq<Call>,
                                    queue: seq<Item>,
                 pieces: seq<Chunk>)
    requires half > 0 && Tracing(start, half, oracle, trace, calls, queue)
    requires queue != [] && queue[0].chunk.changes != [] && queue[0].depth <= 5
    requires CutForSize(queue[0], oracle(|trace|)) || CutForRetry(queue[0], oracle(|trace|))
    requires IsStrategySplit(queue[0].chunk.(terminal := false), oracle(|trace|).promptSize, half, pieces)
    ensures Tracing(start, half, oracle, trace + [Turn(queue[0], pieces)], calls,
                    queue[1..] + Queue(pieces, queue[0].depth + 1))
  {
    var turn := Turn(queue[0], pieces);
    assert (trace + [turn])[|trace|] == turn;
    BooksAfter(start, half, oracle, trace, queue, pieces);
    CallsKept(oracle, trace, calls, turn);
    NoBreakAfter(oracle, trace, turn);
  }

  /** A turn that keeps the result of its call. */
  lemma {:induction false} TraceKeep(start: Chunk, half: nat, oracle: nat -> Reply, trace: seq<Turn>,
                                     calls: seq<Call>, queue: seq<Item>,
                  call: Call)
    requires half > 0 && Tracing(start, half, oracle, trace, calls, queue)
    requires queue != [] && queue[0].chunk.changes != [] && queue[0].depth <= 5
    requires KeepsResult(queue[0], oracle(|trace|))
    requires call == Call(queue[0].chunk, queue[0].depth, |trace|, Problems(oracle(|trace|).answer))
    ensures Tracing(start, half, oracle, trace + [Turn(queue[0], [])], calls + [call], queue[1..])
  {
    var turn := Turn(queue[0], []);
    assert (trace + [turn])[|trace|] == turn;
    BooksAfter(start, half, oracle, trace, queue, []);
    JoinEmpty(queue[1..]);
    CallAdded(oracle, trace, calls, turn, call);
    NoBreakAfter(oracle, trace, turn);
  }

  /** A turn that loses the connection ends the run. */
  lemma {:induction false} TraceBreaks(start: Chunk, half: nat, oracle: nat -> Reply, trace: seq<Turn>,
                                       calls: seq<Call>, queue: seq<Item>)
    requires half > 0 && Tracing(start, half, oracle, trace, calls, queue)
    requires queue != [] && queue[0].chunk.changes != [] && queue[0].depth <= 5
    requires Breaks(queue[0], oracle(|trace|))
    ensures IsRunOf(start, half, oracle, trace + [Turn(queue[0], [])], calls, Aborted)
  {
    var turn := Turn(queue[0], []);
    assert (trace + [turn])[|trace|] == turn;
    BooksAfter(start, half, oracle, trace, queue, []);
    CallsKept(oracle, trace, calls, turn);
  }

  lemma {:induction false} TraceEnds(start: Chunk, half: nat, oracle: nat -> Reply, trace: seq<Turn>, calls: seq<Call>)
    requires half > 0 && Tracing(start, half, oracle, trace, calls, [])
    ensures IsRunOf(start, half, oracle, trace, calls, Finished(AllProblems(calls)))
  {
    JoinEmpty(Items(trace));
  }

  /** Cut the head of the queue and put its pieces at the end, one level down. */
  method SplitAndRequeue(ghost start: Chunk, queue: seq<Item>, ghost calls: seq<Call>, promptSize: nat, half: nat)
    returns (queue': seq<Item>, ghost pieces: seq<Chunk>)
    requires half > 0 && QueueState(start, queue, calls)
    requires queue != [] && queue[0].depth < MAX_SPLIT_DEPTH && |queue[0].chunk.changes| > 1
    ensures QueueState(start, queue', calls) && Falls(queue, queue', queue[0].depth)
    ensures queue' == queue[1..] + Queue(pieces, queue[0].depth + 1)
    ensures IsStrategySplit(queue[0].chunk.(terminal := false), promptSize, half, pieces)
  {
    var chunk := queue[0].chunk.(terminal := false);
    var cut := SplitForCapacity(chunk, promptSize, half);
    pieces := cut;
    AfterSplit(start, queue, calls, chunk, cut);
    queue' := queue[1..] + Queue(cut, queue[0].depth + 1);
    forall d: nat { DepthCounts(queue, cut, d); }
  }

  /** Every change of the start is in the chunk of some kept call. */
  ghost predicate CoversStart(start: Chunk, calls: seq<Call>) {
    forall x :: x in start.changes ==> exists k :: 0 <= k < |calls| && x in calls[k].chunk.changes
  }

  /** No chunk of the run shows a change that the start does not have. */
  ghost predicate NothingForeign(start: Chunk, calls: seq<Call>) {
    forall k, x :: 0 <= k < |calls| && x in calls[k].chunk.changes ==> x in start.changes
  }

  /** Every change of the start has a named file. */
  ghost predicate AllNamed(start: Chunk) {
    forall x :: x in start.changes ==> x.file.Some? && x.file.value != ""
  }

  /** Everything the loop knows between two turns. */
  ghost predicate LoopState(start: Chunk, half: nat, oracle: nat -> Reply, trace: seq<Turn>, calls: seq<Call>,
                            queue: seq<Item>, problems: seq<int>)
    requires half > 0
  {
    && QueueState(start, queue, calls) && Tracing(start, half, oracle, trace, calls, queue)
    && problems == AllProblems(calls)
  }

  /** The turn of a chunk with changes: cut it, give up, or keep what the call found. */
  method TakeTurn(ghost start: Chunk, half: nat, oracle: nat -> Reply, ghost trace: seq<Turn>, turn: nat,
                  calls: seq<Call>, queue: seq<Item>, problems: seq<int>)
    returns (broken: bool, calls': seq<Call>, queue': seq<Item>, problems': seq<int>, ghost pieces: seq<Chunk>)
    requires half > 0 && LoopState(start, half, oracle, trace, calls, queue, problems) && turn == |trace|
    requires queue != [] && queue[0].chunk.changes != []
    ensures broken ==>
              && IsRunOf(start, half, oracle, trace + [Turn(queue[0], pieces)], calls', Aborted)
              && Delivers(start, calls', Aborted)
    ensures !broken ==>
              && LoopState(start, half, oracle, trace + [Turn(queue[0], pieces)], calls', queue', problems')
              && Falls(queue, queue', queue[0].depth)
  {
    var current, depth, reply := queue[0].chunk, queue[0].depth, oracle(turn);
    var canSplitNormal := Splittable(current, depth) && !current.terminal;
    var canForceSplit := Splittable(current, depth) && !reply.fits;
    var found := Problems(reply.answer);
    broken, calls', queue', problems', pieces := false, calls, queue, problems, [];
    PopFalls(queue);
    if !reply.fits && (canSplitNormal || canForceSplit) {
      queue', pieces := SplitAndRequeue(start, queue, calls, reply.promptSize, half);
      TraceCut(start, half, oracle, trace, calls, queue, pieces);
    } else if reply.answer.Transient? {
      TraceBreaks(start, half, oracle, trace, calls, queue);
      NoForeignCalls(start, calls);
      broken := true;
    } else if found == [] && canSplitNormal {
      queue', pieces := SplitAndRequeue(start, queue, calls, reply.promptSize, half);
      TraceCut(start, half, oracle, trace, calls, queue, pieces);
    } else {
      var call := Call(current, depth, turn, found);
      AfterCall(start, queue, calls, call);
      ProblemsAppend(calls, call);
      TraceKeep(start, half, oracle, trace, calls, queue, call);
      calls', problems', queue' := calls + [call], problems + found, queue[1..];
    }
  }

  lemma {:induction false} StartLoop(start: Chunk, half: nat, oracle: nat -> Reply)
    requires half > 0
    ensures LoopState(start, half, oracle, [], [], [Item(start, 0)], [])
  {
    StartQueue(start);
    StartTrace(start, half, oracle);
  }

  lemma {:induction false} SkipEmpty(start: Chunk, half: nat, oracle: nat -> Reply, trace: seq<Turn>, calls: seq<Call>,
                  queue: seq<Item>, problems: seq<int>)
    requires half > 0 && LoopState(start, half, oracle, trace, calls, queue, problems)
    requires queue != [] && queue[0].chunk.changes == []
    ensures LoopState(start, half, oracle, trace, calls, queue[1..], problems)
    ensures Falls(queue, queue[1..], queue[0].depth)
  {
    PopFalls(queue);
    AfterSkip(start, queue, calls);
    JoinEmpty(WithChanges(queue[1..]));
  }

  /** What the result promises besides being a run. */
  ghost predicate Delivers(start: Chunk, calls: seq<Call>, outcome: Outcome) {
    && NothingForeign(start, calls)
    && (outcome.Finished? && AllNamed(start) ==> CoversStart(start, calls))
    && (outcome.Finished? && Safe(start) ==> multiset(start.changes) <= Sum(CallChunks(calls)))
  }

  method BuildAtomicProblems(start: Chunk, half: nat, oracle: nat -> Reply)
    returns (outcome: Outcome, calls: seq<Call>, ghost trace: seq<Turn>)
    requires half > 0
    ensures IsRunOf(start, half, oracle, trace, calls, outcome)
    ensures Delivers(start, calls, outcome)
  {
    var queue := [Item(start, 0)];
    var turn: nat := 0;
    var problems := [];
    calls, trace := [], [];
    StartLoop(start, half, oracle);
    while queue != []
      invariant LoopState(start, half, oracle, trace, calls, queue, problems) && turn == |trace|
      decreases AtDepth(queue, 0), AtDepth(queue, 1), AtDepth(queue, 2), AtDepth(queue, 3), AtDepth(queue, 4),
                AtDepth(queue, 5)
    {
      ghost var pieces, head := [], queue[0];
      if queue[0].chunk.changes == [] {
        SkipEmpty(start, half, oracle, trace, calls, queue, problems);
        queue := queue[1..];
        continue;
      }
      var broken;
      broken, calls, queue, problems, pieces := TakeTurn(start, half, oracle, trace, turn, calls, queue, problems);
      trace, turn := trace + [Turn(head, pieces)], turn + 1;
      if broken {
        return Aborted, calls, trace;
      }
    }
    outcome := Finished(problems);
    RunEnds(start, half, oracle, trace, calls, problems);
  }

  lemma {:induction false} RunEnds(start: Chunk, half: nat, oracle: nat -> Reply, trace: seq<Turn>, calls: seq<Call>,
                                   problems: seq<int>)
    requires half > 0 && LoopState(start, half, oracle, trace, calls, [], problems)
    ensures IsRunOf(start, half, oracle, trace, calls, Finished(problems))
    ensures Delivers(start, calls, Finished(problems))
  {
    TraceEnds(start, half, oracle, trace, calls);
    NoForeignCalls(start, calls);
    assert Sum(Chunks([])) == multiset{};
    if AllNamed(start) {
      AllCovered(start, calls);
    }
  }

  lemma {:induction false} StartTrace(start: Chunk, half: nat, oracle: nat -> Reply)
    requires half > 0
    ensures Tracing(start, half, oracle, [], [], [Item(start, 0)])
  {
    JoinEmpty(WithChanges([Item(start, 0)]));
    assert Items([]) == [];
  }

  lemma {:induction false} NoForeignCalls(start: Chunk, calls: seq<Call>)
    requires AllDescend(start, CallChunks(calls))
    ensures NothingForeign(start, calls)
  {
    forall k, x | 0 <= k < |calls| && x in calls[k].chunk.changes ensures x in start.changes {
      assert Descends(CallChunks(calls)[k], start);
    }
  }

  lemma {:induction false} AllCovered(start: Chunk, calls: seq<Call>)
    requires AllNamed(start) && Conserved(start, calls, [])
    ensures CoversStart(start, calls)
  {
    assert Sum(Chunks([])) == multiset{};
    forall x | x in start.changes ensures exists k :: 0 <= k < |calls| && x in calls[k].chunk.changes {
      assert multiset(start.changes)[x] > 0;
      SumShows(CallChunks(calls), x);
      var k :| 0 <= k < |CallChunks(calls)| && x in CallChunks(calls)[k].changes;
      assert x in calls[k].chunk.changes;
    }
  }

  /** If the first answer fits and finds problems, that is all: one call, and its problems are the result. */
  lemma {:induction false} FirstAnswerEnds(start: Chunk, half: nat, oracle: nat -> Reply, trace: seq<Turn>,
                                           calls: seq<Call>,
                        outcome: Outcome, ps: seq<int>)
    requires half > 0 && IsRunOf(start, half, oracle, trace, calls, outcome)
    requires start.changes != [] && oracle(0).fits && oracle(0).answer == Extracted(ps) && ps != []
    ensures outcome == Finished(ps) && |calls| == 1
  {
    assert WithChanges([Item(start, 0)][1..]) == [];
    assert WithChanges([Item(start, 0)]) == [Item(start, 0)];
    assert trace != [];
    assert TakesInOrder(start, trace, 0) && TurnOk(half, oracle, trace, 0) && trace[..0] == [];
    assert KeepsResult(trace[0].item, oracle(0));
    OneQueued(start, trace[..1]);
    assert |trace| > 1 ==> TakesInOrder(start, trace, 1);
    assert |trace| == 1;
    var k :| 0 <= k < |calls| && calls[k].turn == 0;
    assert forall j :: 0 <= j < |calls| ==> IsCallOf(oracle, trace, calls[j]);
    LateTurns(calls, |calls| - 1);
    assert calls == [calls[0]] && calls[0].problems == ps;
    ProblemsAppend([], calls[0]);
    JoinEmpty([calls[0]]);
    JoinEmpty(ps);
  }

  /** A first turn that cuts nothing leaves nothing to take up. */
  lemma {:induction false} OneQueued(start: Chunk, trace: seq<Turn>)
    requires |trace| == 1 && trace[0].pieces == []
    ensures |WithChanges(Queued(start, trace))| <= 1
  {
    assert trace[..0] == [] && Queue([], trace[0].item.depth + 1) == [];
    JoinEmpty([Item(start, 0)]);
    assert [Item(start, 0)][1..] == [];
  }

  /** Call k was made in turn k or later. */
  lemma {:induction false} LateTurns(calls: seq<Call>, k: nat)
    requires k < |calls| && forall i, j :: 0 <= i < j < |calls| ==> calls[i].turn < calls[j].turn
    ensures calls[k].turn >= k
  {
    if k > 0 {
      LateTurns(calls, k - 1);
    }
  }

  /** Every turn that fits and finds problems is the turn of a kept call with these problems. */
  lemma {:induction false} FoundIsKept(start: Chunk, half: nat, oracle: nat -> Reply, trace: seq<Turn>,
                                       calls: seq<Call>,
                    outcome: Outcome, i: nat, ps: seq<int>)
    requires half > 0 && IsRunOf(start, half, oracle, trace, calls, outcome)
    requires i < |trace| && oracle(i).fits && oracle(i).answer == Extracted(ps) && ps != []
    ensures exists k :: 0 <= k < |calls| && calls[k].turn == i && calls[k].problems == ps
  {
    assert KeepsResult(trace[i].item, oracle(i));
    var k :| 0 <= k < |calls| && calls[k].turn == i;
    assert IsCallOf(oracle, trace, calls[k]);
  }

  /** The problems of calls stand in the order of the calls. */
  lemma {:induction false} ProblemsAppend(calls: seq<Call>, call: Call)
    ensures AllProblems([]) == []
    ensures AllProblems(calls + [call]) == AllProblems(calls) + call.problems
  {
    assert (calls + [call])[..|calls|] == calls;
  }

  lemma {:induction false} StartQueue(start: Chunk)
    ensures QueueState(start, [Item(start, 0)], [])
  {
    var queue := [Item(start, 0)];
    assert Chunks(queue) == [start];
    SumOne(start);
  }
}
