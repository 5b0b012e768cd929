/** The hand-off of requests between software and hardware queues of block/blk-mq.c, as interleaved
    steps of any number of threads.

    Inserters, queue runners and the CPU-dead callback share the software queue lists, the bitmap of
    pending software queues of each hardware queue, and the dispatch lists.  A software queue's list
    is only touched under its lock; its bit is read, set and cleared by single steps, and a runner
    clears it before it takes the lock.
 */
module BlkMq {
  import opened Common

  // ---------------------------------------------------------------- the map of queues

  /** `hw` and `index` give the hardware queue of each software queue and its bit there; `ctxs` lists
      the software queues of each hardware queue. */
  datatype World = World(hw: seq<nat>, index: seq<nat>, ctxs: seq<seq<nat>>)

  predicate Mapped(w: World, c: nat)
    requires c < |w.hw| == |w.index|
  {
    w.hw[c] < |w.ctxs| && w.index[c] < |w.ctxs[w.hw[c]]| && w.ctxs[w.hw[c]][w.index[c]] == c
  }

  predicate Slot(w: World, h: nat, i: nat)
    requires |w.hw| == |w.index| && h < |w.ctxs| && i < |w.ctxs[h]|
  {
    var c := w.ctxs[h][i];
    c < |w.hw| && w.hw[c] == h && w.index[c] == i
  }

  /** The bits of a hardware queue and the software queues mapped to it are in bijection. */
  predicate Topology(w: World) {
    && |w.hw| == |w.index|
    && (forall c :: 0 <= c < |w.hw| ==> Mapped(w, c))
    && (forall h, i :: 0 <= h < |w.ctxs| && 0 <= i < |w.ctxs[h]| ==> Slot(w, h, i))
  }

  /** The loop of blk_mq_map_swqueue: software queues take the next free bit of their hardware queue. */
  method MapSwqueue(hw: seq<nat>, nrHw: nat) returns (w: World)
    requires forall c :: 0 <= c < |hw| ==> hw[c] < nrHw
    ensures Topology(w) && w.hw == hw && |w.ctxs| == nrHw
  {
    var ctxs: seq<seq<nat>> := seq(nrHw, i => []);
    var index: seq<nat> := [];
    var c := 0;
    while c < |hw|
      invariant 0 <= c <= |hw|
      invariant |ctxs| == nrHw && Topology(World(hw[..c], index, ctxs))
    {
      ghost var w0 := World(hw[..c], index, ctxs);
      var h := hw[c];
      index := index + [|ctxs[h]|];
      ctxs := ctxs[h := ctxs[h] + [c]];
      MapOne(w0, hw[c]);
      assert hw[..c + 1] == hw[..c] + [hw[c]];
      c := c + 1;
    }
    assert hw[..c] == hw;
    w := World(hw, index, ctxs);
  }

  ghost function Mapping(w: World, h: nat): (w': World)
    requires h < |w.ctxs|
  {
    World(w.hw + [h], w.index + [|w.ctxs[h]|], w.ctxs[h := w.ctxs[h] + [|w.hw|]])
  }

  lemma MapOne(w: World, h: nat)
    requires Topology(w) && h < |w.ctxs|
    ensures Topology(Mapping(w, h))
  {
    var w' := Mapping(w, h);
    forall c | 0 <= c < |w'.hw| ensures Mapped(w', c) {
      if c < |w.hw| {
        assert Mapped(w, c);
      }
    }
    forall g, i | 0 <= g < |w'.ctxs| && 0 <= i < |w'.ctxs[g]| ensures Slot(w', g, i) {
      if i < |w.ctxs[g]| {
        assert Slot(w, g, i);
      }
    }
  }

  // ---------------------------------------------------------------- threads and state

  /** Where a thread is.  `rqs`, `list` and `tmp` are its private lists of requests. */
  datatype Pc =
    | Done
    | InsWant(c: nat, rqs: seq<nat>, atHead: bool, run: bool)
    | InsTest(c: nat, run: bool)                  // list updated, lock held
    | InsSet(c: nat, run: bool)                   // bit seen clear, lock held
    | InsUnlock(c: nat, run: bool)                // bit seen set or set, lock held
    | InsKick(c: nat, run: bool)
    | RunScan(h: nat, i: nat, list: seq<nat>)
    | RunClear(h: nat, i: nat, list: seq<nat>)    // bit seen set
    | RunSplice(h: nat, i: nat, list: seq<nat>)   // bit cleared, list not yet spliced
    | RunPeek(h: nat, list: seq<nat>)
    | RunTake(h: nat, list: seq<nat>)             // dispatch list seen non-empty
    | RunIssue(h: nat, list: seq<nat>)
    | RunBack(h: nat, list: seq<nat>)             // driver was busy
    | RunKick(h: nat)
    | DeadWant(h: nat, c: nat)
    | DeadClear(h: nat, c: nat, tmp: seq<nat>)    // list taken, lock held
    | DeadPut(h: nat, tmp: seq<nat>)

  /** `work`: hardware queues with a run scheduled.  `unkicked`: hardware queues that were given
      requests by a caller that chose not to run them, and were not kicked since. */
  datatype State = State(lists: seq<seq<nat>>, bits: set<(nat, nat)>, owner: seq<Option<nat>>,
                         dispatch: seq<seq<nat>>, work: set<nat>, unkicked: set<nat>,
                         pcs: seq<Pc>, driver: seq<nat>, ended: seq<nat>)

  datatype Outcome = Ok | Busy | Error

  datatype Step =
    | BeginInsert(t: nat, c: nat, rqs: seq<nat>, atHead: bool, run: bool)
    | BeginRun(t: nat, h: nat)
    | BeginDead(t: nat, h: nat, c: nat)
    | Kick(h: nat)
    | Complete(k: nat)
    | Go(t: nat, outcome: Outcome)

  /** blk_mq_hw_queue_mapped: some software queue is mapped to hardware queue `h`. */
  predicate Served(w: World, h: nat) {
    h < |w.ctxs| && w.ctxs[h] != []
  }

  predicate PcOk(w: World, pc: Pc) {
    match pc
    case Done => true
    case InsWant(c, _, _, _) => c < |w.hw|
    case InsTest(c, _) => c < |w.hw|
    case InsSet(c, _) => c < |w.hw|
    case InsUnlock(c, _) => c < |w.hw|
    case InsKick(c, _) => c < |w.hw|
    case RunScan(h, i, _) => Served(w, h) && i <= |w.ctxs[h]|
    case RunClear(h, i, _) => h < |w.ctxs| && i < |w.ctxs[h]|
    case RunSplice(h, i, _) => h < |w.ctxs| && i < |w.ctxs[h]|
    case RunPeek(h, _) => Served(w, h)
    case RunTake(h, _) => Served(w, h)
    case RunIssue(h, _) => Served(w, h)
    case RunBack(h, _) => Served(w, h)
    case RunKick(h) => h < |w.ctxs|
    case DeadWant(h, c) => h < |w.ctxs| && c < |w.hw|
    case DeadClear(h, c, _) => h < |w.ctxs| && c < |w.hw|
    case DeadPut(h, _) => h < |w.ctxs|
  }

  /** The lock a thread holds between steps. */
  predicate Holds(pc: Pc, c: nat) {
    (pc.InsTest? || pc.InsSet? || pc.InsUnlock? || pc.DeadClear?) && pc.c == c
  }

  predicate Shape(w: World, s: State) {
    && Topology(w)
    && |s.lists| == |s.owner| == |w.hw| && |s.dispatch| == |w.ctxs|
    && WorkOk(w, s)
    && forall t :: 0 <= t < |s.pcs| ==> PcOk(w, s.pcs[t])
  }

  /** Runs are scheduled only for hardware queues that have software queues. */
  predicate WorkOk(w: World, s: State) {
    forall h :: h in s.work ==> Served(w, h)
  }

  /** blk_mq_run_hw_queue: schedules a run, except that a hardware queue without software queues is left alone. */
  function Kicked(w: World, s: State, h: nat): State {
    if Served(w, h) then s.(work := s.work + {h}, unkicked := s.unkicked - {h}) else s
  }

  /** The lock a thread has to take for its next step is free, or it needs none. */
  predicate Free(w: World, s: State, pc: Pc)
    requires Shape(w, s) && PcOk(w, pc)
  {
    match pc
    case InsWant(c, _, _, _) => s.owner[c].None?
    case RunSplice(h, i, _) => Slot(w, h, i) && s.owner[w.ctxs[h][i]].None?
    case DeadWant(_, c) => s.owner[c].None?
    case _ => true
  }

  predicate Enabled(w: World, s: State, step: Step)
    requires Shape(w, s)
  {
    match step
    case BeginInsert(t, c, rqs, atHead, _) => t < |s.pcs| && s.pcs[t].Done? && c < |w.hw| && (atHead ==> |rqs| == 1)
    case BeginRun(t, h) => t < |s.pcs| && s.pcs[t].Done? && h in s.work && h < |w.ctxs|
    case BeginDead(t, h, c) => t < |s.pcs| && s.pcs[t].Done? && h < |w.ctxs| && c < |w.hw|
    case Kick(h) => h < |w.ctxs|
    case Complete(k) => k < |s.driver|
    case Go(t, _) => t < |s.pcs| && !s.pcs[t].Done? && Free(w, s, s.pcs[t])
  }

  function At(s: State, t: nat, pc: Pc): State
    requires t < |s.pcs|
  {
    s.(pcs := s.pcs[t := pc])
  }

  /** Only the program counter of `t` differs. */
  predicate OneMoves(s: State, s': State, t: nat) {
    t < |s.pcs| && |s'.pcs| == |s.pcs| && s'.pcs == s.pcs[t := s'.pcs[t]]
  }

  predicate Inserting(pc: Pc) {
    pc.InsWant? || pc.InsTest? || pc.InsSet? || pc.InsUnlock? || pc.InsKick?
  }

  predicate Closing(pc: Pc) {
    pc.DeadWant? || pc.DeadClear? || pc.DeadPut?
  }

  /** blk_mq_insert_request and blk_mq_insert_requests. */
  function NextInsert(w: World, s: State, t: nat): (s': State)
    requires Shape(w, s) && t < |s.pcs| && Inserting(s.pcs[t]) && PcOk(w, s.pcs[t]) && Free(w, s, s.pcs[t])
    ensures OneMoves(s, s', t) && PcOk(w, s'.pcs[t])
    ensures |s'.lists| == |s'.owner| == |w.hw| && |s'.dispatch| == |w.ctxs| && WorkOk(w, s')
  {
    match s.pcs[t]
    case InsWant(c, rqs, atHead, run) =>
      var list := if atHead then rqs + s.lists[c] else s.lists[c] + rqs;
      At(s.(lists := s.lists[c := list], owner := s.owner[c := Some(t)]), t, InsTest(c, run))
    case InsTest(c, run) =>
      if (w.hw[c], w.index[c]) in s.bits then At(s, t, InsUnlock(c, run)) else At(s, t, InsSet(c, run))
    case InsSet(c, run) =>
      At(s.(bits := s.bits + {(w.hw[c], w.index[c])}), t, InsUnlock(c, run))
    case InsUnlock(c, run) =>
      At(s.(owner := s.owner[c := None]), t, InsKick(c, run))
    case InsKick(c, run) =>
      var h := w.hw[c];
      if run then At(Kicked(w, s, h), t, Done)
      else At(s.(unkicked := s.unkicked + {h}), t, Done)
  }

  /** __blk_mq_run_hw_queue. */
  function NextRun(w: World, s: State, t: nat, outcome: Outcome): (s': State)
    requires Shape(w, s) && t < |s.pcs| && !s.pcs[t].Done? && !Inserting(s.pcs[t]) && !Closing(s.pcs[t])
    requires PcOk(w, s.pcs[t]) && Free(w, s, s.pcs[t])
    ensures OneMoves(s, s', t) && PcOk(w, s'.pcs[t])
    ensures |s'.lists| == |s'.owner| == |w.hw| && |s'.dispatch| == |w.ctxs| && WorkOk(w, s')
  {
    match s.pcs[t]
    case RunScan(h, i, list) =>
      if i == |w.ctxs[h]| then At(s, t, RunPeek(h, list))
      else if (h, i) in s.bits then At(s, t, RunClear(h, i, list))
      else At(s, t, RunScan(h, i + 1, list))
    case RunClear(h, i, list) =>
      At(s.(bits := s.bits - {(h, i)}), t, RunSplice(h, i, list))
    case RunSplice(h, i, list) =>
      var c := w.ctxs[h][i];
      At(s.(lists := s.lists[c := []]), t, RunScan(h, i + 1, list + s.lists[c]))
    case RunPeek(h, list) =>
      if s.dispatch[h] == [] then At(s, t, RunIssue(h, list)) else At(s, t, RunTake(h, list))
    case RunTake(h, list) =>
      At(s.(dispatch := s.dispatch[h := []]), t, RunIssue(h, s.dispatch[h] + list))
    case RunIssue(h, list) =>
      if list == [] then At(s, t, Done)
      else
        (match outcome
         case Ok => At(s.(driver := s.driver + [list[0]]), t, RunIssue(h, list[1..]))
         case Busy => At(s, t, RunBack(h, list))
         case Error => At(s.(ended := s.ended + [list[0]]), t, RunIssue(h, list[1..])))
    case RunBack(h, list) =>
      At(s.(dispatch := s.dispatch[h := list + s.dispatch[h]]), t, RunKick(h))
    case RunKick(h) =>
      At(Kicked(w, s, h), t, Done)
  }

  /** blk_mq_hctx_notify_dead. */
  function NextDead(w: World, s: State, t: nat): (s': State)
    requires Shape(w, s) && t < |s.pcs| && Closing(s.pcs[t]) && PcOk(w, s.pcs[t]) && Free(w, s, s.pcs[t])
    ensures OneMoves(s, s', t) && PcOk(w, s'.pcs[t])
    ensures |s'.lists| == |s'.owner| == |w.hw| && |s'.dispatch| == |w.ctxs| && WorkOk(w, s')
  {
    match s.pcs[t]
    case DeadWant(h, c) =>
      if s.lists[c] == [] then At(s, t, Done)
      else At(s.(lists := s.lists[c := []], owner := s.owner[c := Some(t)]), t, DeadClear(h, c, s.lists[c]))
    case DeadClear(h, c, tmp) =>
      At(s.(bits := s.bits - {(h, w.index[c])}, owner := s.owner[c := None]), t, DeadPut(h, tmp))
    case DeadPut(h, tmp) =>
      At(s.(dispatch := s.dispatch[h := s.dispatch[h] + tmp]), t, RunKick(h))
  }

  /** The next step of thread `t`. */
  function Next(w: World, s: State, t: nat, outcome: Outcome): (s': State)
    requires Shape(w, s) && Enabled(w, s, Go(t, outcome))
    ensures OneMoves(s, s', t) && PcOk(w, s'.pcs[t])
    ensures |s'.lists| == |s'.owner| == |w.hw| && |s'.dispatch| == |w.ctxs| && WorkOk(w, s')
  {
    assert PcOk(w, s.pcs[t]);
    if Inserting(s.pcs[t]) then NextInsert(w, s, t)
    else if Closing(s.pcs[t]) then NextDead(w, s, t)
    else NextRun(w, s, t, outcome)
  }

  function Apply(w: World, s: State, step: Step): (s': State)
    requires Shape(w, s) && Enabled(w, s, step)
  {
    match step
    case BeginInsert(t, c, rqs, atHead, run) => At(s, t, InsWant(c, rqs, atHead, run))
    case BeginRun(t, h) => At(s.(work := s.work - {h}), t, RunScan(h, 0, []))
    case BeginDead(t, h, c) => At(s, t, DeadWant(h, c))
    case Kick(h) => Kicked(w, s, h)
    case Complete(k) => s.(driver := s.driver[..k] + s.driver[k + 1..], ended := s.ended + [s.driver[k]])
    case Go(t, outcome) => Next(w, s, t, outcome)
  }

  // ---------------------------------------------------------------- pending bits and attention

  predicate Bit(w: World, s: State, c: nat)
    requires c < |w.hw| == |w.index|
  {
    (w.hw[c], w.index[c]) in s.bits
  }

  /** A runner between clearing the bit of `c` and splicing its list, or an inserter that holds the
      lock of `c` and has yet to see the bit set. */
  predicate Covers(w: World, pc: Pc, c: nat)
    requires c < |w.hw| == |w.index|
  {
    || ((pc.InsTest? || pc.InsSet?) && pc.c == c)
    || (pc.RunSplice? && pc.h == w.hw[c] && pc.i == w.index[c])
  }

  /** An inserter that has yet to decide on a run, or a runner that has yet to pass the bit of `c`. */
  predicate Attends(w: World, pc: Pc, c: nat)
    requires c < |w.hw| == |w.index|
  {
    || ((pc.InsTest? || pc.InsSet? || pc.InsUnlock? || pc.InsKick?) && pc.c == c)
    || ((pc.RunScan? || pc.RunClear? || pc.RunSplice?) && pc.h == w.hw[c] && pc.i <= w.index[c])
  }

  /** A runner that has yet to look at the dispatch list of `h`, or a thread about to schedule a run. */
  predicate Tends(pc: Pc, h: nat) {
    || ((pc.RunScan? || pc.RunClear? || pc.RunSplice? || pc.RunPeek? || pc.RunTake?) && pc.h == h)
    || pc == RunKick(h)
  }

  predicate Covered(w: World, s: State, c: nat)
    requires c < |w.hw| == |w.index|
  {
    Bit(w, s, c) || exists t :: 0 <= t < |s.pcs| && Covers(w, s.pcs[t], c)
  }

  predicate Wanted(s: State, h: nat) {
    h in s.work || h in s.unkicked
  }

  predicate Attended(w: World, s: State, c: nat)
    requires c < |w.hw| == |w.index|
  {
    Wanted(s, w.hw[c]) || exists t :: 0 <= t < |s.pcs| && Attends(w, s.pcs[t], c)
  }

  /** Requests on a software queue are marked pending, and will be looked at. */
  predicate CtxInv(w: World, s: State, c: nat)
    requires c < |w.hw| == |w.index| == |s.lists|
  {
    s.lists[c] != [] ==> Covered(w, s, c) && Attended(w, s, c)
  }

  /** Requests on a dispatch list will be looked at. */
  predicate HctxInv(s: State, h: nat)
    requires h < |s.dispatch|
  {
    s.dispatch[h] != [] ==> Wanted(s, h) || exists t :: 0 <= t < |s.pcs| && Tends(s.pcs[t], h)
  }

  /** Locks have the owner they record, and a software queue being closed stays empty. */
  predicate LockInv(s: State, t: nat, c: nat)
    requires t < |s.pcs| && c < |s.owner| == |s.lists|
  {
    && (Holds(s.pcs[t], c) <==> s.owner[c] == Some(t))
    && (s.pcs[t].DeadClear? && s.pcs[t].c == c ==> s.lists[c] == [])
  }

  /** A thread that has requests of a closing software queue, or that is about to schedule a run, does it for
      a hardware queue for which runs are scheduled. */
  predicate Kicks(w: World, pc: Pc) {
    pc.DeadClear? || pc.DeadPut? || pc.RunKick? ==> Served(w, pc.h)
  }

  predicate Inv(w: World, s: State) {
    && Shape(w, s)
    && (forall t :: 0 <= t < |s.pcs| ==> Kicks(w, s.pcs[t]))
    && (forall t, c :: 0 <= t < |s.pcs| && 0 <= c < |s.owner| ==> LockInv(s, t, c))
    && (forall c :: 0 <= c < |w.hw| ==> CtxInv(w, s, c))
    && (forall h :: 0 <= h < |w.ctxs| ==> HctxInv(s, h))
  }

  /** What has to hold of a step of thread `t` to keep CtxInv of `c`; no quantifier over threads. */
  predicate CtxLocal(w: World, s: State, s': State, t: nat, c: nat)
    requires c < |w.hw| == |w.index| == |s.lists| == |s'.lists| && t < |s.pcs| == |s'.pcs|
  {
    var (pc, pc') := (s.pcs[t], s'.pcs[t]);
    || s'.lists[c] == []
    || Covers(w, pc', c)
    || (&& s.lists[c] != []
        && (Bit(w, s, c) || Covers(w, pc, c) ==> Bit(w, s', c))
        && (Bit(w, s', c) && (Wanted(s, w.hw[c]) || Attends(w, pc, c)) ==> Wanted(s', w.hw[c]) || Attends(w, pc', c)))
  }

  lemma CtxFrame(w: World, s: State, s': State, t: nat, c: nat)
    requires c < |w.hw| == |w.index| == |s.lists| == |s'.lists| && OneMoves(s, s', t)
    requires CtxInv(w, s, c) && CtxLocal(w, s, s', t, c)
    ensures CtxInv(w, s', c)
  {
    if s'.lists[c] != [] {
      if Covers(w, s'.pcs[t], c) {
        assert Attends(w, s'.pcs[t], c);
      } else {
        CoveredFrame(w, s, s', t, c);
        AttendedFrame(w, s, s', t, c);
      }
    }
  }

  lemma CoveredFrame(w: World, s: State, s': State, t: nat, c: nat)
    requires c < |w.hw| == |w.index| && OneMoves(s, s', t) && Covered(w, s, c)
    requires Bit(w, s, c) || Covers(w, s.pcs[t], c) ==> Bit(w, s', c)
    ensures Covered(w, s', c)
  {
    if !Bit(w, s', c) {
      var u :| 0 <= u < |s.pcs| && Covers(w, s.pcs[u], c);
      assert Covers(w, s'.pcs[u], c);
    }
  }

  lemma AttendedFrame(w: World, s: State, s': State, t: nat, c: nat)
    requires c < |w.hw| == |w.index| && OneMoves(s, s', t) && Covered(w, s', c) && Attended(w, s, c)
    requires Bit(w, s', c) && (Wanted(s, w.hw[c]) || Attends(w, s.pcs[t], c)) ==> Wanted(s', w.hw[c]) || Attends(w, s'.pcs[t], c)
    ensures Attended(w, s', c)
  {
    if !Bit(w, s', c) {
      var u :| 0 <= u < |s'.pcs| && Covers(w, s'.pcs[u], c);
      assert Attends(w, s'.pcs[u], c);
    } else if !Wanted(s', w.hw[c]) && !Attends(w, s'.pcs[t], c) {
      var u :| 0 <= u < |s.pcs| && Attends(w, s.pcs[u], c);
      assert Attends(w, s'.pcs[u], c);
    }
  }

  predicate HctxLocal(s: State, s': State, t: nat, h: nat)
    requires h < |s.dispatch| == |s'.dispatch| && t < |s.pcs| == |s'.pcs|
  {
    || s'.dispatch[h] == []
    || Tends(s'.pcs[t], h)
    || Wanted(s', h)
    || (s.dispatch[h] != [] && !Wanted(s, h) && !Tends(s.pcs[t], h))
  }

  lemma HctxFrame(s: State, s': State, t: nat, h: nat)
    requires h < |s.dispatch| == |s'.dispatch| && OneMoves(s, s', t)
    requires HctxInv(s, h) && HctxLocal(s, s', t, h)
    ensures HctxInv(s', h)
  {
    if s'.dispatch[h] != [] && !Tends(s'.pcs[t], h) && !Wanted(s', h) {
      var u :| 0 <= u < |s.pcs| && Tends(s.pcs[u], h);
      assert Tends(s'.pcs[u], h);
    }
  }

  // ---------------------------------------------------------------- every step keeps the invariant

  /** Clearing the bit a dead CPU's software queue would have in hardware queue `h` hides no request:
      whatever software queue owns that bit is empty, or covered without it. */
  predicate Safe(w: World, s: State, h: nat, c: nat)
    requires Shape(w, s) && c < |w.hw|
  {
    forall v :: 0 <= v < |w.hw| && w.hw[v] == h && w.index[v] == w.index[c] ==>
      s.lists[v] == [] || exists u :: 0 <= u < |s.pcs| && Covers(w, s.pcs[u], v)
  }

  /** What the CPU-dead callback has to be careful about: that the bit it clears hides nothing, and that it
      does not take requests to a hardware queue that is never run. */
  predicate Careful(w: World, s: State, step: Step)
    requires Shape(w, s)
  {
    step.Go? && step.t < |s.pcs| ==>
      var pc := s.pcs[step.t];
      && (pc.DeadClear? ==> PcOk(w, pc) && Safe(w, s, pc.h, pc.c))
      && (pc.DeadWant? ==> PcOk(w, pc) && (s.lists[pc.c] == [] || Served(w, pc.h)))
  }

  lemma ShapeFrame(w: World, s: State, s': State, t: nat)
    requires Shape(w, s) && OneMoves(s, s', t) && PcOk(w, s'.pcs[t])
    requires |s'.lists| == |s'.owner| == |w.hw| && |s'.dispatch| == |w.ctxs| && WorkOk(w, s')
    ensures Shape(w, s')
  {
    forall u | 0 <= u < |s'.pcs| ensures PcOk(w, s'.pcs[u]) {
      assert PcOk(w, s.pcs[u]);
    }
  }

  lemma NextShape(w: World, s: State, t: nat, outcome: Outcome)
    requires Shape(w, s) && Enabled(w, s, Go(t, outcome))
    ensures Shape(w, Next(w, s, t, outcome))
  {
    ShapeFrame(w, s, Next(w, s, t, outcome), t);
  }

  lemma InsertCtx(w: World, s: State, t: nat, c: nat)
    requires Shape(w, s) && t < |s.pcs| && Inserting(s.pcs[t]) && PcOk(w, s.pcs[t]) && Free(w, s, s.pcs[t]) && c < |w.hw|
    ensures CtxLocal(w, s, NextInsert(w, s, t), t, c)
  {
    assert Mapped(w, c);
  }

  lemma RunCtx(w: World, s: State, t: nat, outcome: Outcome, c: nat)
    requires Shape(w, s) && t < |s.pcs| && !s.pcs[t].Done? && !Inserting(s.pcs[t]) && !Closing(s.pcs[t])
    requires PcOk(w, s.pcs[t]) && Free(w, s, s.pcs[t]) && c < |w.hw|
    ensures CtxLocal(w, s, NextRun(w, s, t, outcome), t, c)
  {
    assert Mapped(w, c);
  }

  lemma DeadCtx(w: World, s: State, t: nat, c: nat)
    requires Shape(w, s) && t < |s.pcs| && Closing(s.pcs[t]) && PcOk(w, s.pcs[t]) && Free(w, s, s.pcs[t]) && c < |w.hw|
    requires !s.pcs[t].DeadClear? || (w.hw[c], w.index[c]) != (s.pcs[t].h, w.index[s.pcs[t].c])
    ensures CtxLocal(w, s, NextDead(w, s, t), t, c)
  {
  }

  /** A software queue whose bit is cleared by the CPU-dead callback. */
  lemma VictimCtx(w: World, s: State, t: nat, v: nat)
    requires Shape(w, s) && t < |s.pcs| && s.pcs[t].DeadClear? && PcOk(w, s.pcs[t]) && v < |w.hw|
    requires s.lists[v] == [] || exists u :: 0 <= u < |s.pcs| && Covers(w, s.pcs[u], v)
    ensures CtxInv(w, NextDead(w, s, t), v)
  {
    var s' := NextDead(w, s, t);
    if s.lists[v] != [] {
      var u :| 0 <= u < |s.pcs| && Covers(w, s.pcs[u], v);
      assert Covers(w, s'.pcs[u], v) && Attends(w, s'.pcs[u], v);
    }
  }

  lemma NextCtx(w: World, s: State, t: nat, outcome: Outcome, c: nat)
    requires Shape(w, s) && Enabled(w, s, Go(t, outcome)) && Careful(w, s, Go(t, outcome)) && c < |w.hw| && CtxInv(w, s, c)
    ensures CtxInv(w, Next(w, s, t, outcome), c)
  {
    var pc := s.pcs[t];
    assert PcOk(w, pc);
    if pc.DeadClear? && w.hw[c] == pc.h && w.index[c] == w.index[pc.c] {
      VictimCtx(w, s, t, c);
    } else {
      if Inserting(pc) {
        InsertCtx(w, s, t, c);
      } else if Closing(pc) {
        DeadCtx(w, s, t, c);
      } else {
        RunCtx(w, s, t, outcome, c);
      }
      CtxFrame(w, s, Next(w, s, t, outcome), t, c);
    }
  }

  lemma InsertHctx(w: World, s: State, t: nat, h: nat)
    requires Shape(w, s) && t < |s.pcs| && Inserting(s.pcs[t]) && PcOk(w, s.pcs[t]) && Free(w, s, s.pcs[t]) && h < |w.ctxs|
    ensures HctxInv(s, h) ==> HctxInv(NextInsert(w, s, t), h)
  {
    if HctxInv(s, h) {
      HctxFrame(s, NextInsert(w, s, t), t, h);
    }
  }

  lemma RunHctx(w: World, s: State, t: nat, outcome: Outcome, h: nat)
    requires Shape(w, s) && t < |s.pcs| && !s.pcs[t].Done? && !Inserting(s.pcs[t]) && !Closing(s.pcs[t])
    requires PcOk(w, s.pcs[t]) && Kicks(w, s.pcs[t]) && Free(w, s, s.pcs[t]) && h < |w.ctxs|
    ensures HctxInv(s, h) ==> HctxInv(NextRun(w, s, t, outcome), h)
  {
    if HctxInv(s, h) {
      HctxFrame(s, NextRun(w, s, t, outcome), t, h);
    }
  }

  lemma DeadHctx(w: World, s: State, t: nat, h: nat)
    requires Shape(w, s) && t < |s.pcs| && Closing(s.pcs[t]) && PcOk(w, s.pcs[t]) && Free(w, s, s.pcs[t]) && h < |w.ctxs|
    ensures HctxInv(s, h) ==> HctxInv(NextDead(w, s, t), h)
  {
    if HctxInv(s, h) {
      HctxFrame(s, NextDead(w, s, t), t, h);
    }
  }

  lemma NextHctx(w: World, s: State, t: nat, outcome: Outcome, h: nat)
    requires Shape(w, s) && Enabled(w, s, Go(t, outcome)) && Kicks(w, s.pcs[t]) && h < |w.ctxs| && HctxInv(s, h)
    ensures HctxInv(Next(w, s, t, outcome), h)
  {
    var pc := s.pcs[t];
    assert PcOk(w, pc);
    if Inserting(pc) {
      InsertHctx(w, s, t, h);
    } else if Closing(pc) {
      DeadHctx(w, s, t, h);
    } else {
      RunHctx(w, s, t, outcome, h);
    }
  }

  lemma InsertLock(w: World, s: State, t: nat, u: nat, c: nat)
    requires Shape(w, s) && t < |s.pcs| && Inserting(s.pcs[t]) && PcOk(w, s.pcs[t]) && Free(w, s, s.pcs[t])
    requires u < |s.pcs| && c < |s.owner| && LockInv(s, t, c) && LockInv(s, u, c)
    ensures LockInv(NextInsert(w, s, t), u, c)
  {
  }

  lemma RunLock(w: World, s: State, t: nat, outcome: Outcome, u: nat, c: nat)
    requires Shape(w, s) && t < |s.pcs| && !s.pcs[t].Done? && !Inserting(s.pcs[t]) && !Closing(s.pcs[t])
    requires PcOk(w, s.pcs[t]) && Free(w, s, s.pcs[t])
    requires u < |s.pcs| && c < |s.owner| && LockInv(s, u, c)
    ensures LockInv(NextRun(w, s, t, outcome), u, c)
  {
  }

  lemma ClosingLock(w: World, s: State, t: nat, u: nat, c: nat)
    requires Shape(w, s) && t < |s.pcs| && Closing(s.pcs[t]) && PcOk(w, s.pcs[t]) && Free(w, s, s.pcs[t])
    requires u < |s.pcs| && c < |s.owner| && LockInv(s, t, c) && LockInv(s, u, c)
    ensures LockInv(NextDead(w, s, t), u, c)
  {
  }

  lemma NextLock(w: World, s: State, t: nat, outcome: Outcome, u: nat, c: nat)
    requires Shape(w, s) && Enabled(w, s, Go(t, outcome)) && u < |s.pcs| && c < |s.owner|
    requires LockInv(s, t, c) && LockInv(s, u, c)
    ensures LockInv(Next(w, s, t, outcome), u, c)
  {
    var pc := s.pcs[t];
    assert PcOk(w, pc);
    if Inserting(pc) {
      InsertLock(w, s, t, u, c);
    } else if Closing(pc) {
      ClosingLock(w, s, t, u, c);
    } else {
      RunLock(w, s, t, outcome, u, c);
    }
  }

  lemma NextKicks(w: World, s: State, t: nat, outcome: Outcome)
    requires Shape(w, s) && Enabled(w, s, Go(t, outcome)) && Careful(w, s, Go(t, outcome)) && Kicks(w, s.pcs[t])
    ensures Kicks(w, Next(w, s, t, outcome).pcs[t])
  {
    assert PcOk(w, s.pcs[t]);
  }

  lemma NextKeeps(w: World, s: State, t: nat, outcome: Outcome)
    requires Inv(w, s) && Enabled(w, s, Go(t, outcome)) && Careful(w, s, Go(t, outcome))
    ensures Inv(w, Next(w, s, t, outcome))
  {
    var s' := Next(w, s, t, outcome);
    NextShape(w, s, t, outcome);
    NextKicks(w, s, t, outcome);
    forall u | 0 <= u < |s'.pcs| ensures Kicks(w, s'.pcs[u]) {
      assert Kicks(w, s.pcs[u]);
    }
    forall u, c | 0 <= u < |s'.pcs| && 0 <= c < |s'.owner| ensures LockInv(s', u, c) {
      assert LockInv(s, t, c) && LockInv(s, u, c);
      NextLock(w, s, t, outcome, u, c);
    }
    forall c | 0 <= c < |w.hw| ensures CtxInv(w, s', c) {
      NextCtx(w, s, t, outcome, c);
    }
    forall h | 0 <= h < |w.ctxs| ensures HctxInv(s', h) {
      NextHctx(w, s, t, outcome, h);
    }
  }

  /** Beginning an operation, from outside. */
  lemma BeginKeeps(w: World, s: State, s': State, t: nat)
    requires Inv(w, s) && OneMoves(s, s', t) && s.pcs[t].Done? && PcOk(w, s'.pcs[t])
    requires s'.pcs[t].InsWant? || s'.pcs[t].DeadWant? || s'.pcs[t].RunScan?
    requires s' == s.(pcs := s'.pcs, work := s'.work)
    requires if s'.pcs[t].RunScan? then s'.pcs[t].i == 0 && s'.work == s.work - {s'.pcs[t].h} else s'.work == s.work
    ensures Inv(w, s')
  {
    ShapeFrame(w, s, s', t);
    forall u | 0 <= u < |s'.pcs| ensures Kicks(w, s'.pcs[u]) {
      assert Kicks(w, s.pcs[u]);
    }
    forall u, c | 0 <= u < |s'.pcs| && 0 <= c < |s'.owner| ensures LockInv(s', u, c) {
      assert LockInv(s, u, c) && LockInv(s, t, c);
    }
    forall c | 0 <= c < |w.hw| ensures CtxInv(w, s', c) {
      CtxFrame(w, s, s', t, c);
    }
    forall h | 0 <= h < |w.ctxs| ensures HctxInv(s', h) {
      HctxFrame(s, s', t, h);
    }
  }

  /** Scheduling a run from outside, or a completion by the driver. */
  lemma OutsideKeeps(w: World, s: State, s': State)
    requires Inv(w, s) && s' == s.(work := s'.work, unkicked := s'.unkicked, driver := s'.driver, ended := s'.ended)
    requires WorkOk(w, s') && forall h :: Wanted(s, h) ==> Wanted(s', h)
    ensures Inv(w, s')
  {
    forall u, c | 0 <= u < |s'.pcs| && 0 <= c < |s'.owner| ensures LockInv(s', u, c) {
      assert LockInv(s, u, c);
    }
    forall c | 0 <= c < |w.hw| ensures CtxInv(w, s', c) {
      assert CtxInv(w, s, c);
      if s.lists[c] != [] && !Wanted(s, w.hw[c]) {
        var u :| 0 <= u < |s.pcs| && Attends(w, s.pcs[u], c);
        assert Attends(w, s'.pcs[u], c);
      }
      if s.lists[c] != [] && !Bit(w, s, c) {
        var u :| 0 <= u < |s.pcs| && Covers(w, s.pcs[u], c);
        assert Covers(w, s'.pcs[u], c);
      }
    }
    forall h | 0 <= h < |w.ctxs| ensures HctxInv(s', h) {
      assert HctxInv(s, h);
      if s.dispatch[h] != [] && !Wanted(s, h) {
        var u :| 0 <= u < |s.pcs| && Tends(s.pcs[u], h);
        assert Tends(s'.pcs[u], h);
      }
    }
  }

  lemma ApplyKeeps(w: World, s: State, step: Step)
    requires Inv(w, s) && Enabled(w, s, step) && Careful(w, s, step)
    ensures Inv(w, Apply(w, s, step))
  {
    match step
    case BeginInsert(t, c, rqs, atHead, run) => BeginKeeps(w, s, Apply(w, s, step), t);
    case BeginRun(t, h) => BeginKeeps(w, s, Apply(w, s, step), t);
    case BeginDead(t, h, c) => BeginKeeps(w, s, Apply(w, s, step), t);
    case Kick(h) => OutsideKeeps(w, s, Apply(w, s, step));
    case Complete(k) => OutsideKeeps(w, s, Apply(w, s, step));
    case Go(t, outcome) => NextKeeps(w, s, t, outcome);
  }

  // ---------------------------------------------------------------- runs

  function Init(w: World, threads: nat): State {
    State(seq(|w.hw|, _ => []), {}, seq(|w.hw|, _ => None), seq(|w.ctxs|, _ => []), {}, {},
          seq(threads, _ => Done), [], [])
  }

  lemma InitInv(w: World, threads: nat)
    requires Topology(w)
    ensures Inv(w, Init(w, threads))
  {
  }

  /** The state a sequence of steps leads to; None if some step is not enabled. */
  function Run(w: World, threads: nat, steps: seq<Step>): Option<State> {
    if steps == [] then Some(Init(w, threads))
    else
      var r := Run(w, threads, steps[..|steps| - 1]);
      var step := steps[|steps| - 1];
      if r.Some? && Shape(w, r.value) && Enabled(w, r.value, step) then Some(Apply(w, r.value, step)) else None
  }

  /** A run in which the CPU-dead callback never hides a request. */
  predicate CarefulRun(w: World, threads: nat, steps: seq<Step>) {
    steps == [] || (
      && CarefulRun(w, threads, steps[..|steps| - 1])
      && var r := Run(w, threads, steps[..|steps| - 1]);
         r.Some? && Shape(w, r.value) && Careful(w, r.value, steps[|steps| - 1]))
  }

  /** No interleaving loses sight of a request. */
  lemma {:induction false} PendingInEveryRun(w: World, threads: nat, steps: seq<Step>)
    requires Topology(w) && CarefulRun(w, threads, steps) && Run(w, threads, steps).Some?
    ensures Inv(w, Run(w, threads, steps).value)
  {
    if steps == [] {
      InitInv(w, threads);
    } else {
      var front := steps[..|steps| - 1];
      PendingInEveryRun(w, threads, front);
      ApplyKeeps(w, Run(w, threads, front).value, steps[|steps| - 1]);
    }
  }

  /** When every thread is done and no run is scheduled or owed, nothing is left queued. */
  lemma NothingLeft(w: World, threads: nat, steps: seq<Step>, h: nat)
    requires Topology(w) && CarefulRun(w, threads, steps) && Run(w, threads, steps).Some? && h < |w.ctxs|
    ensures var s := Run(w, threads, steps).value;
      (forall t :: 0 <= t < |s.pcs| ==> s.pcs[t].Done?) && !Wanted(s, h) ==>
        |s.dispatch| == |w.ctxs| && |s.lists| == |w.hw| && s.dispatch[h] == [] && forall c :: 0 <= c < |w.hw| && w.hw[c] == h ==> s.lists[c] == []
  {
    PendingInEveryRun(w, threads, steps);
    var s := Run(w, threads, steps).value;
    assert HctxInv(s, h);
    forall c | 0 <= c < |w.hw| && w.hw[c] == h && !Wanted(s, h) && (forall t :: 0 <= t < |s.pcs| ==> s.pcs[t].Done?)
      ensures s.lists[c] == []
    {
      assert CtxInv(w, s, c);
    }
  }

  // ---------------------------------------------------------------- the CPU-dead callback

  /** The callback runs for every hardware queue, also for ones the dead CPU's software queue is not
      mapped to.  One such step keeps the invariant exactly when the bit it clears hides nothing;
      CallbackExact below says on which devices that is always so. */
  lemma DeadClearExact(w: World, s: State, t: nat, outcome: Outcome)
    requires Inv(w, s) && t < |s.pcs| && s.pcs[t].DeadClear?
    ensures Enabled(w, s, Go(t, outcome))
    ensures Inv(w, Next(w, s, t, outcome)) <==> Safe(w, s, s.pcs[t].h, s.pcs[t].c)
  {
    var pc := s.pcs[t];
    assert PcOk(w, pc);
    var s' := Next(w, s, t, outcome);
    if Safe(w, s, pc.h, pc.c) {
      NextKeeps(w, s, t, outcome);
    }
    if Inv(w, s') {
      forall v | 0 <= v < |w.hw| && w.hw[v] == pc.h && w.index[v] == w.index[pc.c] && s.lists[v] != []
        ensures exists u :: 0 <= u < |s.pcs| && Covers(w, s.pcs[u], v)
      {
        assert CtxInv(w, s', v) && !Bit(w, s', v);
        var u :| 0 <= u < |s'.pcs| && Covers(w, s'.pcs[u], v);
        assert Covers(w, s.pcs[u], v);
      }
    }
  }

  /** For the hardware queue the software queue is mapped to, it always hides nothing. */
  lemma OwnIsSafe(w: World, s: State, t: nat)
    requires Inv(w, s) && t < |s.pcs| && s.pcs[t].DeadClear? && s.pcs[t].c < |w.hw| && s.pcs[t].h == w.hw[s.pcs[t].c]
    ensures Safe(w, s, s.pcs[t].h, s.pcs[t].c)
  {
    var c := s.pcs[t].c;
    assert LockInv(s, t, c);
    forall v | 0 <= v < |w.hw| && w.hw[v] == w.hw[c] && w.index[v] == w.index[c] ensures v == c {
      assert Mapped(w, v) && Mapped(w, c);
    }
  }

  predicate OwnPc(w: World, pc: Pc) {
    pc.DeadWant? || pc.DeadClear? ==> pc.c < |w.hw| && pc.h == w.hw[pc.c]
  }

  predicate OwnStep(w: World, step: Step) {
    step.BeginDead? ==> step.c < |w.hw| && step.h == w.hw[step.c]
  }

  lemma OwnKeeps(w: World, s: State, step: Step)
    requires Shape(w, s) && Enabled(w, s, step) && OwnStep(w, step)
    requires forall t :: 0 <= t < |s.pcs| ==> OwnPc(w, s.pcs[t])
    ensures var s' := Apply(w, s, step); forall t :: 0 <= t < |s'.pcs| ==> OwnPc(w, s'.pcs[t])
  {
    var s' := Apply(w, s, step);
    forall t | 0 <= t < |s'.pcs| ensures OwnPc(w, s'.pcs[t]) {
      assert OwnPc(w, s.pcs[t]);
    }
  }

  /** Runs in which the callback is only invoked for the right hardware queue are careful. */
  lemma {:induction false} OwnRunsAreCareful(w: World, threads: nat, steps: seq<Step>)
    requires Topology(w) && Run(w, threads, steps).Some? && forall i :: 0 <= i < |steps| ==> OwnStep(w, steps[i])
    ensures CarefulRun(w, threads, steps)
    ensures var s := Run(w, threads, steps).value; Inv(w, s) && forall t :: 0 <= t < |s.pcs| ==> OwnPc(w, s.pcs[t])
  {
    if steps != [] {
      var front, step := steps[..|steps| - 1], steps[|steps| - 1];
      OwnRunsAreCareful(w, threads, front);
      var s := Run(w, threads, front).value;
      OwnIsCareful(w, s, step);
      OwnKeeps(w, s, step);
    }
    PendingInEveryRun(w, threads, steps);
  }

  lemma OwnIsCareful(w: World, s: State, step: Step)
    requires Inv(w, s) && forall t :: 0 <= t < |s.pcs| ==> OwnPc(w, s.pcs[t])
    ensures Careful(w, s, step)
  {
    if step.Go? && step.t < |s.pcs| {
      var pc := s.pcs[step.t];
      assert PcOk(w, pc) && OwnPc(w, pc);
      if pc.DeadClear? {
        OwnIsSafe(w, s, step.t);
      } else if pc.DeadWant? {
        assert Mapped(w, pc.c);
      }
    }
  }

  // A run that does lose sight of a request.

  lemma Push(w: World, n: nat, steps: seq<Step>, s: State, step: Step)
    requires Run(w, n, steps) == Some(s) && Shape(w, s) && Enabled(w, s, step)
    ensures Run(w, n, steps + [step]) == Some(Apply(w, s, step))
  {
    assert (steps + [step])[..|steps|] == steps;
  }

  /** The state after one thread has inserted a request on an idle, unmarked software queue. */
  function Inserted(w: World, s: State, c: nat, r: nat): State
    requires c < |w.hw| == |w.index| == |s.lists|
  {
    s.(lists := s.lists[c := s.lists[c] + [r]], bits := s.bits + {(w.hw[c], w.index[c])},
       work := s.work + {w.hw[c]}, unkicked := s.unkicked - {w.hw[c]})
  }

  lemma InsertRuns(w: World, steps: seq<Step>, s: State, c: nat, r: nat) returns (steps': seq<Step>)
    requires Run(w, 1, steps) == Some(s) && Shape(w, s) && s.pcs == [Done] && c < |w.hw|
    requires s.owner[c].None? && !Bit(w, s, c)
    ensures Run(w, 1, steps') == Some(Inserted(w, s, c, r)) && Shape(w, Inserted(w, s, c, r))
  {
    var s2 := s.(lists := s.lists[c := s.lists[c] + [r]], owner := s.owner[c := Some(0)], pcs := [InsSet(c, true)]);
    steps' := InsertLocks(w, steps, s, c, r);
    var s3 := s2.(bits := s.bits + {(w.hw[c], w.index[c])}, pcs := [InsUnlock(c, true)]);
    steps' := Pushed(w, steps', s2, s3);
    var s4 := s3.(owner := s.owner, pcs := [InsKick(c, true)]);
    assert s.owner[c := Some(0)][c := None] == s.owner;
    steps' := Pushed(w, steps', s3, s4);
    InsertKicks(w, s4, c);
    assert s4.pcs[0 := Done] == [Done];
    steps' := Pushed(w, steps', s4, Inserted(w, s, c, r));
  }

  lemma InsertKicks(w: World, s: State, c: nat)
    requires Shape(w, s) && c < |w.hw| && s.pcs == [InsKick(c, true)]
    ensures Next(w, s, 0, Ok) ==
      s.(work := s.work + {w.hw[c]}, unkicked := s.unkicked - {w.hw[c]}, pcs := s.pcs[0 := Done])
  {
    assert Mapped(w, c);
  }

  lemma InsertLocks(w: World, steps: seq<Step>, s: State, c: nat, r: nat) returns (steps': seq<Step>)
    requires Run(w, 1, steps) == Some(s) && Shape(w, s) && s.pcs == [Done] && c < |w.hw|
    requires s.owner[c].None? && !Bit(w, s, c)
    ensures var s' := s.(lists := s.lists[c := s.lists[c] + [r]], owner := s.owner[c := Some(0)], pcs := [InsSet(c, true)]);
      Run(w, 1, steps') == Some(s') && Shape(w, s')
  {
    var s1 := s.(pcs := [InsWant(c, [r], false, true)]);
    Push(w, 1, steps, s, BeginInsert(0, c, [r], false, true));
    assert s.pcs[0 := s1.pcs[0]] == s1.pcs;
    var s2 := s.(lists := s.lists[c := s.lists[c] + [r]], owner := s.owner[c := Some(0)], pcs := [InsTest(c, true)]);
    steps' := steps + [BeginInsert(0, c, [r], false, true)];
    steps' := Pushed(w, steps', s1, s2);
    steps' := Pushed(w, steps', s2, s2.(pcs := [InsSet(c, true)]));
  }

  lemma Pushed(w: World, steps: seq<Step>, s: State, s': State) returns (steps': seq<Step>)
    requires Run(w, 1, steps) == Some(s) && Shape(w, s) && |s.pcs| == 1 && Enabled(w, s, Go(0, Ok))
    requires s' == Next(w, s, 0, Ok)
    ensures Run(w, 1, steps') == Some(s') && Shape(w, s')
  {
    steps' := steps + [Go(0, Ok)];
    Push(w, 1, steps, s, Go(0, Ok));
    NextShape(w, s, 0, Ok);
  }

  lemma DeadRuns(w: World, steps: seq<Step>, s: State, h: nat, c: nat) returns (steps': seq<Step>)
    requires Run(w, 1, steps) == Some(s) && Shape(w, s) && s.pcs == [Done] && c < |w.hw| && h < |w.ctxs|
    requires s.owner[c].None? && s.lists[c] != []
    ensures Run(w, 1, steps') ==
      Some(s.(lists := s.lists[c := []], bits := s.bits - {(h, w.index[c])}, pcs := [DeadPut(h, s.lists[c])]))
    ensures Shape(w, Run(w, 1, steps').value)
  {
    var s1 := s.(pcs := [DeadWant(h, c)]);
    Push(w, 1, steps, s, BeginDead(0, h, c));
    assert s.pcs[0 := s1.pcs[0]] == s1.pcs;
    steps' := steps + [BeginDead(0, h, c)];
    var s2 := s.(lists := s.lists[c := []], owner := s.owner[c := Some(0)], pcs := [DeadClear(h, c, s.lists[c])]);
    steps' := Pushed(w, steps', s1, s2);
    assert s.owner[c := Some(0)][c := None] == s.owner;
    var s3 := s.(lists := s.lists[c := []], bits := s.bits - {(h, w.index[c])}, pcs := [DeadPut(h, s.lists[c])]);
    steps' := Pushed(w, steps', s2, s3);
  }

  /** One request on each of two idle software queues. */
  lemma BothQueued(w: World, a: nat, b: nat) returns (steps: seq<Step>, s: State)
    requires Topology(w) && a < |w.hw| && b < |w.hw| && w.hw[a] != w.hw[b]
    ensures Run(w, 1, steps) == Some(s) && Shape(w, s) && s.pcs == [Done] && s.owner[a].None?
    ensures s.lists[a] == [7] && s.lists[b] == [8]
  {
    var s0 := Init(w, 1);
    InitInv(w, 1);
    assert s0.pcs == [Done];
    steps := InsertRuns(w, [], s0, a, 7);
    steps := InsertRuns(w, steps, Inserted(w, s0, a, 7), b, 8);
    s := Inserted(w, Inserted(w, s0, a, 7), b, 8);
  }

  /** Whenever two software queues have the same bit in different hardware queues, the callback for
      one of them on the hardware queue of the other can leave a request on the other's list with
      nothing left to say so. */
  lemma ForeignCallbackHides(w: World, a: nat, b: nat) returns (steps: seq<Step>)
    requires Topology(w) && a < |w.hw| && b < |w.hw| && w.hw[a] != w.hw[b] && w.index[a] == w.index[b]
    ensures var r := Run(w, 1, steps);
      r.Some? && |r.value.lists| == |w.hw| && r.value.lists[b] == [8] && !Covered(w, r.value, b)
  {
    var s: State;
    steps, s := BothQueued(w, a, b);
    assert Mapped(w, b);
    steps := DeadRuns(w, steps, s, w.hw[b], a);
  }

  /** No two software queues of different hardware queues have the same bit. */
  predicate Unshared(w: World)
    requires |w.hw| == |w.index|
  {
    forall a, b :: 0 <= a < |w.hw| && 0 <= b < |w.hw| && w.index[a] == w.index[b] ==> w.hw[a] == w.hw[b]
  }

  /** All software queues are mapped to one hardware queue. */
  predicate SingleQueue(w: World) {
    forall a, b :: 0 <= a < |w.hw| && 0 <= b < |w.hw| ==> w.hw[a] == w.hw[b]
  }

  /** Bits are handed out from 0 in every hardware queue, so only a single queue shares none. */
  lemma UnsharedIsSingle(w: World)
    requires Topology(w)
    ensures Unshared(w) <==> SingleQueue(w)
  {
    if Unshared(w) {
      forall a, b | 0 <= a < |w.hw| && 0 <= b < |w.hw| ensures w.hw[a] == w.hw[b] {
        assert Mapped(w, a) && Mapped(w, b);
        assert Slot(w, w.hw[a], 0) && Slot(w, w.hw[b], 0);
      }
    }
  }

  /** The callback for a hardware queue without software queues takes the requests of a software queue to a
      dispatch list that no one is going to look at. */
  lemma UnmappedStrands(w: World, c: nat, h: nat) returns (steps: seq<Step>)
    requires Topology(w) && c < |w.hw| && h < |w.ctxs| && !Served(w, h)
    ensures var r := Run(w, 1, steps);
      && r.Some? && Shape(w, r.value) && r.value.pcs == [Done]
      && r.value.dispatch[h] == [7] && !Wanted(r.value, h)
  {
    var s0 := Init(w, 1);
    InitInv(w, 1);
    assert s0.pcs == [Done] && Mapped(w, c);
    steps := InsertRuns(w, [], s0, c, 7);
    var s1 := Inserted(w, s0, c, 7);
    assert s1.lists[c] == [7];
    steps := DeadRuns(w, steps, s1, h, c);
    steps := DeadEnds(w, steps, Run(w, 1, steps).value, h, [7]);
  }

  lemma DeadEnds(w: World, steps: seq<Step>, s: State, h: nat, tmp: seq<nat>) returns (steps': seq<Step>)
    requires Run(w, 1, steps) == Some(s) && Shape(w, s) && s.pcs == [DeadPut(h, tmp)] && h < |w.ctxs| && !Served(w, h)
    ensures var s' := s.(dispatch := s.dispatch[h := s.dispatch[h] + tmp], pcs := [Done]);
      Run(w, 1, steps') == Some(s') && Shape(w, s')
  {
    var s1 := s.(dispatch := s.dispatch[h := s.dispatch[h] + tmp], pcs := [RunKick(h)]);
    assert s.pcs[0 := RunKick(h)] == [RunKick(h)];
    steps' := Pushed(w, steps, s, s1);
    assert s1.pcs[0 := Done] == [Done];
    steps' := Pushed(w, steps', s1, s1.(pcs := [Done]));
  }

  lemma StaysStranded(w: World, s: State, step: Step, h: nat)
    requires Shape(w, s) && Enabled(w, s, step) && h < |w.ctxs| && !Served(w, h)
    ensures |Apply(w, s, step).dispatch| == |w.ctxs| && s.dispatch[h] <= Apply(w, s, step).dispatch[h]
  {
    if step.Go? {
      assert PcOk(w, s.pcs[step.t]);
    }
  }

  lemma {:induction false} ShapeInEveryRun(w: World, threads: nat, steps: seq<Step>)
    requires Topology(w) && Run(w, threads, steps).Some?
    ensures Shape(w, Run(w, threads, steps).value)
  {
    if steps == [] {
      InitInv(w, threads);
    } else {
      ShapeInEveryRun(w, threads, steps[..|steps| - 1]);
    }
  }

  /** The last step of a continuation. */
  lemma RunOn(w: World, threads: nat, steps: seq<Step>, more: seq<Step>)
    requires Topology(w) && more != [] && Run(w, threads, steps + more).Some?
    ensures var (r, step) := (Run(w, threads, steps + more[..|more| - 1]), more[|more| - 1]);
      && r.Some? && Shape(w, r.value) && Enabled(w, r.value, step)
      && Run(w, threads, steps + more) == Some(Apply(w, r.value, step))
  {
    assert (steps + more)[..|steps + more| - 1] == steps + more[..|more| - 1];
  }

  /** And no one ever does: whatever happens later, they stay there. */
  lemma {:induction false} StrandedForever(w: World, threads: nat, steps: seq<Step>, more: seq<Step>, h: nat)
    requires Topology(w) && h < |w.ctxs| && !Served(w, h) && Run(w, threads, steps + more).Some?
    ensures Run(w, threads, steps).Some?
    ensures var (s, s') := (Run(w, threads, steps).value, Run(w, threads, steps + more).value);
      |s.dispatch| == |s'.dispatch| == |w.ctxs| && s.dispatch[h] <= s'.dispatch[h]
  {
    ShapeInEveryRun(w, threads, steps + more);
    if more == [] {
      assert steps + more == steps;
    } else {
      var front, step := more[..|more| - 1], more[|more| - 1];
      RunOn(w, threads, steps, more);
      StrandedForever(w, threads, steps, front, h);
      StaysStranded(w, Run(w, threads, steps + front).value, step, h);
    }
  }

  predicate AllServed(w: World) {
    forall h :: 0 <= h < |w.ctxs| ==> Served(w, h)
  }

  lemma UnsharedIsCareful(w: World, s: State, step: Step)
    requires Inv(w, s) && Unshared(w) && AllServed(w)
    ensures Careful(w, s, step)
  {
    if step.Go? && step.t < |s.pcs| && (s.pcs[step.t].DeadClear? || s.pcs[step.t].DeadWant?) {
      var c := s.pcs[step.t].c;
      assert PcOk(w, s.pcs[step.t]) && LockInv(s, step.t, c);
      forall v | 0 <= v < |w.hw| && w.index[v] == w.index[c] ensures v == c {
        assert Mapped(w, v) && Mapped(w, c);
      }
    }
  }

  lemma {:induction false} UnsharedRunsAreCareful(w: World, threads: nat, steps: seq<Step>)
    requires Topology(w) && Unshared(w) && AllServed(w) && Run(w, threads, steps).Some?
    ensures CarefulRun(w, threads, steps) && Inv(w, Run(w, threads, steps).value)
  {
    if steps != [] {
      var front := steps[..|steps| - 1];
      UnsharedRunsAreCareful(w, threads, front);
      UnsharedIsCareful(w, Run(w, threads, front).value, steps[|steps| - 1]);
    }
    PendingInEveryRun(w, threads, steps);
  }

  /** Without software queues nothing is ever inserted or closed. */
  lemma EmptyIsCareful(w: World, s: State, step: Step)
    requires Shape(w, s) && |w.hw| == 0
    ensures Careful(w, s, step)
  {
    if step.Go? && step.t < |s.pcs| {
      assert PcOk(w, s.pcs[step.t]);
    }
  }

  lemma {:induction false} EmptyRunsAreCareful(w: World, threads: nat, steps: seq<Step>)
    requires Topology(w) && |w.hw| == 0 && Run(w, threads, steps).Some?
    ensures CarefulRun(w, threads, steps) && Inv(w, Run(w, threads, steps).value)
  {
    if steps != [] {
      var front := steps[..|steps| - 1];
      EmptyRunsAreCareful(w, threads, front);
      EmptyIsCareful(w, Run(w, threads, front).value, steps[|steps| - 1]);
    }
    PendingInEveryRun(w, threads, steps);
  }

  predicate KeepsInv(w: World, threads: nat, steps: seq<Step>) {
    Run(w, threads, steps).Some? ==> Inv(w, Run(w, threads, steps).value)
  }

  /** One hardware queue, or no software queue at all. */
  predicate OneQueue(w: World) {
    |w.hw| == 0 || |w.ctxs| == 1
  }

  /** With two hardware queues or more, one of them has no software queue, or two software queues share a bit. */
  lemma OneQueueIs(w: World)
    requires Topology(w)
    ensures OneQueue(w) <==> |w.hw| == 0 || (Unshared(w) && AllServed(w))
  {
    UnsharedIsSingle(w);
    if |w.hw| > 0 {
      assert Mapped(w, 0);
      forall c | 0 <= c < |w.hw| ensures w.hw[c] < |w.ctxs| {
        assert Mapped(w, c);
      }
      if AllServed(w) && |w.ctxs| > 1 {
        assert Served(w, 0) && Served(w, 1);
        assert Slot(w, 0, 0) && Slot(w, 1, 0);
        assert !Unshared(w);
      }
    }
  }

  /** With the callback invoked for any hardware queue, every run of every number of threads keeps the
      invariant if and only if the device has one hardware queue (or nothing is mapped at all). */
  lemma CallbackExact(w: World)
    requires Topology(w)
    ensures (forall threads: nat, steps :: KeepsInv(w, threads, steps)) <==> OneQueue(w)
  {
    OneQueueIs(w);
    if OneQueue(w) {
      forall threads: nat, steps ensures KeepsInv(w, threads, steps) {
        if Run(w, threads, steps).Some? {
          if |w.hw| == 0 {
            EmptyRunsAreCareful(w, threads, steps);
          } else {
            UnsharedRunsAreCareful(w, threads, steps);
          }
        }
      }
    } else {
      var steps := BadRun(w);
      assert !KeepsInv(w, 1, steps);
    }
  }

  lemma BadRun(w: World) returns (steps: seq<Step>)
    requires Topology(w) && |w.hw| > 0 && !(Unshared(w) && AllServed(w))
    ensures Run(w, 1, steps).Some? && !Inv(w, Run(w, 1, steps).value)
  {
    if !AllServed(w) {
      var h :| 0 <= h < |w.ctxs| && !Served(w, h);
      steps := UnmappedStrands(w, 0, h);
      assert !HctxInv(Run(w, 1, steps).value, h);
    } else {
      var a, b :| 0 <= a < |w.hw| && 0 <= b < |w.hw| && w.index[a] == w.index[b] && w.hw[a] != w.hw[b];
      steps := ForeignCallbackHides(w, a, b);
      assert !CtxInv(w, Run(w, 1, steps).value, b);
    }
  }

  // ---------------------------------------------------------------- conservation

  datatype Place = InCtx(c: nat) | With(t: nat) | OnDispatch(h: nat) | AtDriver | Ended

  /** The private list of a thread. */
  function Held(pc: Pc): seq<nat> {
    match pc
    case InsWant(_, rqs, _, _) => rqs
    case RunScan(_, _, list) => list
    case RunClear(_, _, list) => list
    case RunSplice(_, _, list) => list
    case RunPeek(_, list) => list
    case RunTake(_, list) => list
    case RunIssue(_, list) => list
    case RunBack(_, list) => list
    case DeadClear(_, _, tmp) => tmp
    case DeadPut(_, tmp) => tmp
    case _ => []
  }

  function Count(xs: seq<nat>, r: nat): nat {
    if xs == [] then 0 else (if xs[0] == r then 1 else 0) + Count(xs[1..], r)
  }

  lemma {:induction false} CountConcat(a: seq<nat>, b: seq<nat>, r: nat)
    ensures Count(a + b, r) == Count(a, r) + Count(b, r)
  {
    if a == [] {
      assert a + b == b;
    } else {
      assert (a + b)[1..] == a[1..] + b;
      CountConcat(a[1..], b, r);
    }
  }

  lemma {:induction false} CountIn(a: seq<nat>, r: nat)
    ensures r in a <==> Count(a, r) > 0
  {
    if a != [] {
      CountIn(a[1..], r);
      assert r in a <==> r == a[0] || r in a[1..];
    }
  }

  /** How many times request `r` is at place `p`. */
  function Presence(s: State, p: Place, r: nat): nat {
    match p
    case InCtx(c) => if c < |s.lists| then Count(s.lists[c], r) else 0
    case With(t) => if t < |s.pcs| then Count(Held(s.pcs[t]), r) else 0
    case OnDispatch(h) => if h < |s.dispatch| then Count(s.dispatch[h], r) else 0
    case AtDriver => Count(s.driver, r)
    case Ended => Count(s.ended, r)
  }

  /** `at` gives the one place of every request: it is there once, and nowhere else. */
  ghost predicate Located(s: State, at: map<nat, Place>) {
    forall p, r :: Presence(s, p, r) == if r in at && at[r] == p then 1 else 0
  }

  /** The requests `rs` move. */
  datatype Flow = Flow(from: Place, to: Place, rs: seq<nat>)

  predicate FlowsAt(s: State, s': State, f: Flow, p: Place, r: nat) {
    && f.from != f.to
    && Presence(s', p, r) + (if p == f.from then Count(f.rs, r) else 0) ==
       Presence(s, p, r) + (if p == f.to then Count(f.rs, r) else 0)
  }

  ghost predicate Flows(s: State, s': State, f: Flow) {
    forall p, r :: FlowsAt(s, s', f, p, r)
  }

  function Moved(at: map<nat, Place>, f: Flow): map<nat, Place> {
    map r | r in at :: if r in f.rs then f.to else at[r]
  }

  lemma FlowLocated(s: State, s': State, at: map<nat, Place>, f: Flow)
    requires Located(s, at) && Flows(s, s', f)
    ensures Located(s', Moved(at, f))
  {
    forall p, r ensures Presence(s', p, r) == if r in Moved(at, f) && Moved(at, f)[r] == p then 1 else 0 {
      assert FlowsAt(s, s', f, p, r) && FlowsAt(s, s', f, f.from, r);
      assert Presence(s, p, r) == if r in at && at[r] == p then 1 else 0;
      assert Presence(s, f.from, r) == if r in at && at[r] == f.from then 1 else 0;
      CountIn(f.rs, r);
    }
  }

  function Stay(t: nat): Flow {
    Flow(With(t), Ended, [])
  }

  /** What the next step of thread `t` moves. */
  function FlowOf(w: World, s: State, t: nat, outcome: Outcome): Flow
    requires Shape(w, s) && t < |s.pcs| && PcOk(w, s.pcs[t]) && Free(w, s, s.pcs[t])
  {
    match s.pcs[t]
    case InsWant(c, rqs, _, _) => Flow(With(t), InCtx(c), rqs)
    case RunSplice(h, i, _) => Flow(InCtx(w.ctxs[h][i]), With(t), s.lists[w.ctxs[h][i]])
    case RunTake(h, _) => Flow(OnDispatch(h), With(t), s.dispatch[h])
    case RunIssue(h, list) =>
      if list == [] || outcome.Busy? then Stay(t)
      else Flow(With(t), if outcome.Ok? then AtDriver else Ended, [list[0]])
    case RunBack(h, list) => Flow(With(t), OnDispatch(h), list)
    case DeadWant(_, c) => Flow(InCtx(c), With(t), s.lists[c])
    case DeadPut(h, tmp) => Flow(With(t), OnDispatch(h), tmp)
    case _ => Stay(t)
  }

  lemma InsertFlowsAt(w: World, s: State, t: nat, p: Place, r: nat)
    requires Shape(w, s) && t < |s.pcs| && Inserting(s.pcs[t]) && PcOk(w, s.pcs[t]) && Free(w, s, s.pcs[t])
    ensures FlowsAt(s, NextInsert(w, s, t), FlowOf(w, s, t, Ok), p, r)
  {
    var pc := s.pcs[t];
    if pc.InsWant? {
      CountConcat(pc.rqs, s.lists[pc.c], r);
      CountConcat(s.lists[pc.c], pc.rqs, r);
    }
  }

  lemma IssueFlowsAt(w: World, s: State, t: nat, outcome: Outcome, p: Place, r: nat)
    requires Shape(w, s) && t < |s.pcs| && s.pcs[t].RunIssue? && PcOk(w, s.pcs[t])
    ensures FlowsAt(s, NextRun(w, s, t, outcome), FlowOf(w, s, t, outcome), p, r)
  {
    var list := s.pcs[t].list;
    if list != [] {
      CountConcat(s.driver, [list[0]], r);
      CountConcat(s.ended, [list[0]], r);
    }
  }

  /** Steps that move a whole list between a shared one and the runner's. */
  lemma ListFlowsAt(w: World, s: State, t: nat, outcome: Outcome, p: Place, r: nat)
    requires Shape(w, s) && t < |s.pcs| && PcOk(w, s.pcs[t]) && Free(w, s, s.pcs[t])
    requires s.pcs[t].RunSplice? || s.pcs[t].RunTake? || s.pcs[t].RunBack?
    ensures FlowsAt(s, NextRun(w, s, t, outcome), FlowOf(w, s, t, outcome), p, r)
  {
    var pc := s.pcs[t];
    if pc.RunSplice? {
      CountConcat(pc.list, s.lists[w.ctxs[pc.h][pc.i]], r);
    } else if pc.RunTake? {
      CountConcat(s.dispatch[pc.h], pc.list, r);
    } else {
      CountConcat(pc.list, s.dispatch[pc.h], r);
    }
  }

  lemma RunFlowsAt(w: World, s: State, t: nat, outcome: Outcome, p: Place, r: nat)
    requires Shape(w, s) && t < |s.pcs| && !s.pcs[t].Done? && !Inserting(s.pcs[t]) && !Closing(s.pcs[t])
    requires PcOk(w, s.pcs[t]) && Free(w, s, s.pcs[t])
    ensures FlowsAt(s, NextRun(w, s, t, outcome), FlowOf(w, s, t, outcome), p, r)
  {
    var pc := s.pcs[t];
    if pc.RunIssue? {
      IssueFlowsAt(w, s, t, outcome, p, r);
    } else if pc.RunSplice? || pc.RunTake? || pc.RunBack? {
      ListFlowsAt(w, s, t, outcome, p, r);
    } else {
      StayFlowsAt(w, s, t, outcome, p, r);
    }
  }

  /** Steps that move nothing. */
  lemma StayFlowsAt(w: World, s: State, t: nat, outcome: Outcome, p: Place, r: nat)
    requires Shape(w, s) && t < |s.pcs| && PcOk(w, s.pcs[t])
    requires s.pcs[t].RunScan? || s.pcs[t].RunClear? || s.pcs[t].RunPeek? || s.pcs[t].RunKick?
    ensures FlowsAt(s, NextRun(w, s, t, outcome), FlowOf(w, s, t, outcome), p, r)
  {
    assert Held(NextRun(w, s, t, outcome).pcs[t]) == Held(s.pcs[t]);
  }

  lemma DeadFlowsAt(w: World, s: State, t: nat, p: Place, r: nat)
    requires Shape(w, s) && t < |s.pcs| && Closing(s.pcs[t]) && PcOk(w, s.pcs[t]) && Free(w, s, s.pcs[t])
    ensures FlowsAt(s, NextDead(w, s, t), FlowOf(w, s, t, Ok), p, r)
  {
    if s.pcs[t].DeadPut? {
      DeadPutFlowsAt(w, s, t, p, r);
    }
  }

  lemma DeadPutFlowsAt(w: World, s: State, t: nat, p: Place, r: nat)
    requires Shape(w, s) && t < |s.pcs| && s.pcs[t].DeadPut? && PcOk(w, s.pcs[t])
    ensures FlowsAt(s, NextDead(w, s, t), FlowOf(w, s, t, Ok), p, r)
  {
    CountConcat(s.dispatch[s.pcs[t].h], s.pcs[t].tmp, r);
  }

  lemma NextFlows(w: World, s: State, t: nat, outcome: Outcome)
    requires Shape(w, s) && Enabled(w, s, Go(t, outcome)) && PcOk(w, s.pcs[t])
    ensures Flows(s, Next(w, s, t, outcome), FlowOf(w, s, t, outcome))
  {
    var pc := s.pcs[t];
    forall p, r ensures FlowsAt(s, Next(w, s, t, outcome), FlowOf(w, s, t, outcome), p, r) {
      if Inserting(pc) {
        InsertFlowsAt(w, s, t, p, r);
      } else if Closing(pc) {
        DeadFlowsAt(w, s, t, p, r);
      } else {
        RunFlowsAt(w, s, t, outcome, p, r);
      }
    }
  }

  lemma {:induction false} CountRemoved(a: seq<nat>, k: nat, r: nat)
    requires k < |a|
    ensures Count(a, r) == Count(a[..k] + a[k + 1..], r) + Count([a[k]], r)
  {
    assert a == a[..k] + ([a[k]] + a[k + 1..]);
    CountConcat(a[..k], [a[k]] + a[k + 1..], r);
    CountConcat([a[k]], a[k + 1..], r);
    CountConcat(a[..k], a[k + 1..], r);
  }

  lemma CompleteFlows(w: World, s: State, k: nat)
    requires Shape(w, s) && k < |s.driver|
    ensures Flows(s, Apply(w, s, Complete(k)), Flow(AtDriver, Ended, [s.driver[k]]))
  {
    forall p, r ensures FlowsAt(s, Apply(w, s, Complete(k)), Flow(AtDriver, Ended, [s.driver[k]]), p, r) {
      CountRemoved(s.driver, k, r);
      CountConcat(s.ended, [s.driver[k]], r);
    }
  }

  /** The requests an operation brings in are new, and each of them comes once. */
  predicate NewRequests(at: map<nat, Place>, rqs: seq<nat>) {
    forall i :: 0 <= i < |rqs| ==> rqs[i] !in at && rqs[i] !in rqs[i + 1..]
  }

  function Placed(at: map<nat, Place>, rqs: seq<nat>, t: nat): map<nat, Place> {
    map r | r in at.Keys + (set x | x in rqs) :: if r in rqs then With(t) else at[r]
  }

  lemma {:induction false} CountOnce(rqs: seq<nat>, at: map<nat, Place>, r: nat)
    requires NewRequests(at, rqs)
    ensures Count(rqs, r) == if r in rqs then 1 else 0
  {
    if rqs != [] {
      assert rqs[0] !in rqs[0 + 1..];
      forall i | 0 <= i < |rqs[1..]| ensures rqs[1..][i] !in at && rqs[1..][i] !in rqs[1..][i + 1..] {
        assert rqs[i + 1] !in rqs[i + 1 + 1..] && rqs[1..][i + 1..] == rqs[i + 2..];
      }
      CountOnce(rqs[1..], at, r);
      assert r in rqs <==> r == rqs[0] || r in rqs[1..];
    }
  }

  lemma InsertPlaces(w: World, s: State, at: map<nat, Place>, t: nat, pc: Pc)
    requires Located(s, at) && t < |s.pcs| && s.pcs[t].Done? && pc.InsWant? && NewRequests(at, pc.rqs)
    ensures Located(At(s, t, pc), Placed(at, pc.rqs, t))
  {
    var s', at' := At(s, t, pc), Placed(at, pc.rqs, t);
    forall p, r ensures Presence(s', p, r) == if r in at' && at'[r] == p then 1 else 0 {
      CountOnce(pc.rqs, at, r);
      assert Presence(s, p, r) == if r in at && at[r] == p then 1 else 0;
      assert Presence(s, With(t), r) == 0;
      if r in pc.rqs {
        var i :| 0 <= i < |pc.rqs| && pc.rqs[i] == r;
        assert pc.rqs[i] !in at;
      }
    }
  }

  /** Where every request is after a run; None if the run is not possible or reuses a request. */
  function Track(w: World, threads: nat, steps: seq<Step>): Option<map<nat, Place>> {
    if steps == [] then Some(map[])
    else
      var front, step := steps[..|steps| - 1], steps[|steps| - 1];
      var r, at := Run(w, threads, front), Track(w, threads, front);
      if r.None? || at.None? || !Shape(w, r.value) || !Enabled(w, r.value, step) then None
      else TrackStep(w, r.value, at.value, step)
  }

  function TrackStep(w: World, s: State, at: map<nat, Place>, step: Step): Option<map<nat, Place>>
    requires Shape(w, s) && Enabled(w, s, step)
  {
    match step
    case BeginInsert(t, _, rqs, _, _) => if NewRequests(at, rqs) then Some(Placed(at, rqs, t)) else None
    case Complete(k) => Some(Moved(at, Flow(AtDriver, Ended, [s.driver[k]])))
    case Go(t, outcome) => if PcOk(w, s.pcs[t]) then Some(Moved(at, FlowOf(w, s, t, outcome))) else None
    case _ => Some(at)
  }

  lemma TrackStepLocates(w: World, s: State, at: map<nat, Place>, step: Step)
    requires Shape(w, s) && Enabled(w, s, step) && Located(s, at) && TrackStep(w, s, at, step).Some?
    ensures Located(Apply(w, s, step), TrackStep(w, s, at, step).value)
  {
    var s' := Apply(w, s, step);
    match step
    case BeginInsert(t, c, rqs, atHead, run) => InsertPlaces(w, s, at, t, InsWant(c, rqs, atHead, run));
    case Complete(k) =>
      CompleteFlows(w, s, k);
      FlowLocated(s, s', at, Flow(AtDriver, Ended, [s.driver[k]]));
    case Go(t, outcome) =>
      NextFlows(w, s, t, outcome);
      FlowLocated(s, s', at, FlowOf(w, s, t, outcome));
    case _ =>
      forall p, r ensures Presence(s', p, r) == Presence(s, p, r) {}
  }

  /** In every run every request is in exactly one place, exactly once; none is lost or duplicated. */
  lemma {:induction false} EachInOnePlace(w: World, threads: nat, steps: seq<Step>)
    requires Topology(w) && Track(w, threads, steps).Some?
    ensures Run(w, threads, steps).Some? && Located(Run(w, threads, steps).value, Track(w, threads, steps).value)
  {
    if steps != [] {
      var front := steps[..|steps| - 1];
      EachInOnePlace(w, threads, front);
      TrackStepLocates(w, Run(w, threads, front).value, Track(w, threads, front).value, steps[|steps| - 1]);
    }
  }

  lemma {:induction false} InsertedAreTracked(w: World, threads: nat, steps: seq<Step>, i: nat, r: nat)
    requires Track(w, threads, steps).Some? && i < |steps| && steps[i].BeginInsert? && r in steps[i].rqs
    ensures r in Track(w, threads, steps).value
  {
    if i < |steps| - 1 {
      InsertedAreTracked(w, threads, steps[..|steps| - 1], i, r);
    }
  }

  predicate Quiet(s: State) {
    s.work == {} && s.unkicked == {} && forall t :: 0 <= t < |s.pcs| ==> s.pcs[t].Done?
  }

  /** Once every thread is done and every run has happened, each request ever inserted has been given
      to the driver or ended, exactly once. */
  lemma EveryRequestGetsThrough(w: World, threads: nat, steps: seq<Step>, i: nat, r: nat)
    requires Topology(w) && Track(w, threads, steps).Some? && CarefulRun(w, threads, steps)
    requires i < |steps| && steps[i].BeginInsert? && r in steps[i].rqs
    ensures Run(w, threads, steps).Some?
    ensures var s := Run(w, threads, steps).value;
      Quiet(s) ==> Presence(s, AtDriver, r) + Presence(s, Ended, r) == 1
  {
    EachInOnePlace(w, threads, steps);
    InsertedAreTracked(w, threads, steps, i, r);
    var s, at := Run(w, threads, steps).value, Track(w, threads, steps).value;
    if Quiet(s) {
      PendingInEveryRun(w, threads, steps);
      EmptyWhenQuiet(w, s, at[r], r);
      assert Presence(s, at[r], r) == 1 && (at[r] != AtDriver ==> Presence(s, AtDriver, r) == 0);
    }
  }

  lemma EmptyWhenQuiet(w: World, s: State, p: Place, r: nat)
    requires Inv(w, s) && Quiet(s)
    ensures p == AtDriver || p == Ended || Presence(s, p, r) == 0
  {
    match p
    case InCtx(c) =>
      if c < |s.lists| {
        assert CtxInv(w, s, c);
      }
    case OnDispatch(h) =>
      if h < |s.dispatch| {
        assert HctxInv(s, h);
      }
    case _ =>
  }

  /** The requests the steps insert. */
  function Brought(steps: seq<Step>): set<nat> {
    if steps == [] then {}
    else
      var (front, step) := (Brought(steps[..|steps| - 1]), steps[|steps| - 1]);
      if step.BeginInsert? then front + (set r | r in step.rqs) else front
  }

  /** No request is inserted twice. */
  predicate NoReuse(steps: seq<Step>) {
    steps == [] || (
      && NoReuse(steps[..|steps| - 1])
      && var step := steps[|steps| - 1];
         step.BeginInsert? ==> forall i :: 0 <= i < |step.rqs| ==>
           step.rqs[i] !in Brought(steps[..|steps| - 1]) && step.rqs[i] !in step.rqs[i + 1..])
  }

  /** Every run that inserts no request twice is tracked, and what is tracked is what was inserted. */
  lemma {:induction false} TrackedInEveryRun(w: World, threads: nat, steps: seq<Step>)
    requires Topology(w) && Run(w, threads, steps).Some? && NoReuse(steps)
    ensures Track(w, threads, steps).Some? && Track(w, threads, steps).value.Keys == Brought(steps)
  {
    if steps != [] {
      var (front, step) := (steps[..|steps| - 1], steps[|steps| - 1]);
      TrackedInEveryRun(w, threads, front);
      var s, at := Run(w, threads, front).value, Track(w, threads, front).value;
      if step.Go? {
        assert PcOk(w, s.pcs[step.t]);
      }
      TrackStepKeys(w, s, at, step);
    }
  }

  lemma TrackStepKeys(w: World, s: State, at: map<nat, Place>, step: Step)
    requires Shape(w, s) && Enabled(w, s, step) && TrackStep(w, s, at, step).Some?
    ensures TrackStep(w, s, at, step).value.Keys == at.Keys + if step.BeginInsert? then (set r | r in step.rqs) else {}
  {
  }

  // ---------------------------------------------------------------- order

  /** `a` stands before `b`. */
  predicate Before(list: seq<nat>, a: nat, b: nat) {
    exists i, j :: 0 <= i < j < |list| && list[i] == a && list[j] == b
  }

  lemma BeforeInside(x: seq<nat>, list: seq<nat>, y: seq<nat>, a: nat, b: nat)
    requires Before(list, a, b)
    ensures Before(x + list + y, a, b)
  {
    var i, j :| 0 <= i < j < |list| && list[i] == a && list[j] == b;
    var all := x + list + y;
    assert all[|x| + i] == a && all[|x| + j] == b;
  }

  lemma BeforeConcat(list: seq<nat>, y: seq<nat>, a: nat, b: nat)
    ensures Before(list, a, b) ==> Before(list + y, a, b) && Before(y + list, a, b)
    ensures a in list && b in y ==> Before(list + y, a, b)
  {
    if Before(list, a, b) {
      BeforeInside([], list, y, a, b);
      assert [] + list + y == list + y;
      BeforeInside(y, list, [], a, b);
      assert y + list + [] == y + list;
    }
    if a in list && b in y {
      var i, j :| 0 <= i < |list| && list[i] == a && 0 <= j < |y| && y[j] == b;
      assert (list + y)[i] == a && (list + y)[|list| + j] == b;
    }
  }

  /** The list at a place where requests wait. */
  function Line(s: State, p: Place): seq<nat> {
    match p
    case InCtx(c) => if c < |s.lists| then s.lists[c] else []
    case With(t) => if t < |s.pcs| then Held(s.pcs[t]) else []
    case OnDispatch(h) => if h < |s.dispatch| then s.dispatch[h] else []
    case _ => []
  }

  predicate Issued(s: State, r: nat) {
    r in s.driver || r in s.ended
  }

  /** `a` is ahead of `b`: it has been issued, or both wait at one place and it stands first. */
  ghost predicate Ordered(s: State, a: nat, b: nat) {
    Issued(s, a) || exists p :: Before(Line(s, p), a, b)
  }

  /** After a step of thread `t` the place `p` has what it had, perhaps among others, or it has gone, as it was, to
      another place; only the head of a list is ever issued. */
  ghost predicate Together(s: State, s': State, p: Place, a: nat, b: nat) {
    Before(Line(s, p), a, b) ==> Issued(s', a) || exists p' :: Before(Line(s', p'), a, b)
  }

  lemma InsertTogether(w: World, s: State, t: nat, p: Place, a: nat, b: nat)
    requires Shape(w, s) && t < |s.pcs| && Inserting(s.pcs[t]) && PcOk(w, s.pcs[t]) && Free(w, s, s.pcs[t])
    ensures Together(s, NextInsert(w, s, t), p, a, b)
  {
    var (pc, s') := (s.pcs[t], NextInsert(w, s, t));
    if Before(Line(s, p), a, b) {
      if pc.InsWant? && (p == With(t) || p == InCtx(pc.c)) {
        BeforeConcat(pc.rqs, s.lists[pc.c], a, b);
        BeforeConcat(s.lists[pc.c], pc.rqs, a, b);
        assert Before(Line(s', InCtx(pc.c)), a, b);
      } else {
        assert Line(s', p) == Line(s, p);
      }
    }
  }

  lemma IssueTogether(w: World, s: State, t: nat, outcome: Outcome, p: Place, a: nat, b: nat)
    requires Shape(w, s) && t < |s.pcs| && s.pcs[t].RunIssue? && PcOk(w, s.pcs[t])
    ensures Together(s, NextRun(w, s, t, outcome), p, a, b)
  {
    var (list, s') := (s.pcs[t].list, NextRun(w, s, t, outcome));
    if Before(Line(s, p), a, b) {
      if p == With(t) && !outcome.Busy? {
        var i, j :| 0 <= i < j < |list| && list[i] == a && list[j] == b;
        if i > 0 {
          assert list[1..][i - 1] == a && list[1..][j - 1] == b;
          assert Before(Line(s', p), a, b);
        }
      } else {
        assert Line(s', p) == Line(s, p);
      }
    }
  }

  lemma SpliceTogether(w: World, s: State, t: nat, outcome: Outcome, p: Place, a: nat, b: nat)
    requires Shape(w, s) && t < |s.pcs| && s.pcs[t].RunSplice? && PcOk(w, s.pcs[t]) && Free(w, s, s.pcs[t])
    ensures Together(s, NextRun(w, s, t, outcome), p, a, b)
  {
    var (pc, s') := (s.pcs[t], NextRun(w, s, t, outcome));
    var c := w.ctxs[pc.h][pc.i];
    if Before(Line(s, p), a, b) {
      if p == With(t) || p == InCtx(c) {
        BeforeConcat(pc.list, s.lists[c], a, b);
        BeforeConcat(s.lists[c], pc.list, a, b);
        assert Before(Line(s', With(t)), a, b);
      } else {
        assert Line(s', p) == Line(s, p);
      }
    }
  }

  lemma TakeTogether(w: World, s: State, t: nat, outcome: Outcome, p: Place, a: nat, b: nat)
    requires Shape(w, s) && t < |s.pcs| && (s.pcs[t].RunTake? || s.pcs[t].RunBack?) && PcOk(w, s.pcs[t])
    ensures Together(s, NextRun(w, s, t, outcome), p, a, b)
  {
    var (pc, s') := (s.pcs[t], NextRun(w, s, t, outcome));
    if Before(Line(s, p), a, b) {
      if p == With(t) || p == OnDispatch(pc.h) {
        BeforeConcat(pc.list, s.dispatch[pc.h], a, b);
        BeforeConcat(s.dispatch[pc.h], pc.list, a, b);
        assert Before(Line(s', if pc.RunTake? then With(t) else OnDispatch(pc.h)), a, b);
      } else {
        assert Line(s', p) == Line(s, p);
      }
    }
  }

  lemma StayTogether(w: World, s: State, t: nat, outcome: Outcome, p: Place, a: nat, b: nat)
    requires Shape(w, s) && t < |s.pcs| && PcOk(w, s.pcs[t])
    requires s.pcs[t].RunScan? || s.pcs[t].RunClear? || s.pcs[t].RunPeek? || s.pcs[t].RunKick?
    ensures Together(s, NextRun(w, s, t, outcome), p, a, b)
  {
    assert Line(NextRun(w, s, t, outcome), p) == Line(s, p);
  }

  lemma DeadTogether(w: World, s: State, t: nat, p: Place, a: nat, b: nat)
    requires Shape(w, s) && t < |s.pcs| && Closing(s.pcs[t]) && PcOk(w, s.pcs[t]) && Free(w, s, s.pcs[t])
    ensures Together(s, NextDead(w, s, t), p, a, b)
  {
    var (pc, s') := (s.pcs[t], NextDead(w, s, t));
    if Before(Line(s, p), a, b) {
      if pc.DeadWant? && p == InCtx(pc.c) {
        assert Before(Line(s', With(t)), a, b);
      } else if pc.DeadPut? && (p == With(t) || p == OnDispatch(pc.h)) {
        BeforeConcat(pc.tmp, s.dispatch[pc.h], a, b);
        BeforeConcat(s.dispatch[pc.h], pc.tmp, a, b);
        assert Before(Line(s', OnDispatch(pc.h)), a, b);
      } else {
        assert Line(s', p) == Line(s, p);
      }
    }
  }

  lemma NextTogether(w: World, s: State, t: nat, outcome: Outcome, p: Place, a: nat, b: nat)
    requires Shape(w, s) && Enabled(w, s, Go(t, outcome)) && PcOk(w, s.pcs[t])
    ensures Together(s, Next(w, s, t, outcome), p, a, b)
  {
    var pc := s.pcs[t];
    if Inserting(pc) {
      InsertTogether(w, s, t, p, a, b);
    } else if Closing(pc) {
      DeadTogether(w, s, t, p, a, b);
    } else if pc.RunIssue? {
      IssueTogether(w, s, t, outcome, p, a, b);
    } else if pc.RunSplice? {
      SpliceTogether(w, s, t, outcome, p, a, b);
    } else if pc.RunTake? || pc.RunBack? {
      TakeTogether(w, s, t, outcome, p, a, b);
    } else {
      StayTogether(w, s, t, outcome, p, a, b);
    }
  }

  lemma NextIssued(w: World, s: State, t: nat, outcome: Outcome, r: nat)
    requires Shape(w, s) && Enabled(w, s, Go(t, outcome)) && Issued(s, r)
    ensures Issued(Next(w, s, t, outcome), r)
  {
  }

  lemma OtherOrdered(w: World, s: State, step: Step, a: nat, b: nat)
    requires Shape(w, s) && Enabled(w, s, step) && !step.Go? && Ordered(s, a, b)
    ensures Ordered(Apply(w, s, step), a, b)
  {
    var s' := Apply(w, s, step);
    if Issued(s, a) {
      if step.Complete? {
        var k := step.k;
        assert s.driver == s.driver[..k] + ([s.driver[k]] + s.driver[k + 1..]);
      }
    } else {
      var p :| Before(Line(s, p), a, b);
      assert Line(s', p) == Line(s, p);
    }
  }

  lemma StepOrdered(w: World, s: State, step: Step, a: nat, b: nat)
    requires Shape(w, s) && Enabled(w, s, step) && Ordered(s, a, b)
    ensures Ordered(Apply(w, s, step), a, b)
  {
    if !step.Go? {
      OtherOrdered(w, s, step, a, b);
    } else if Issued(s, a) {
      NextIssued(w, s, step.t, step.outcome, a);
    } else {
      var p :| Before(Line(s, p), a, b);
      assert PcOk(w, s.pcs[step.t]);
      NextTogether(w, s, step.t, step.outcome, p, a, b);
    }
  }

  /** No run ever lets a request overtake one it stands behind. */
  lemma {:induction false} OrderInEveryRun(w: World, threads: nat, steps: seq<Step>, more: seq<Step>, a: nat, b: nat)
    requires Topology(w) && Run(w, threads, steps + more).Some?
    ensures Run(w, threads, steps).Some?
    ensures Ordered(Run(w, threads, steps).value, a, b) ==> Ordered(Run(w, threads, steps + more).value, a, b)
  {
    if more == [] {
      assert steps + more == steps;
    } else {
      var front, step := more[..|more| - 1], more[|more| - 1];
      RunOn(w, threads, steps, more);
      OrderInEveryRun(w, threads, steps, front, a, b);
      if Ordered(Run(w, threads, steps).value, a, b) {
        StepOrdered(w, Run(w, threads, steps + front).value, step, a, b);
      }
    }
  }

  /** Who is to be ahead of whom when thread `t` is about to put two lists together: those already on a software
      queue, except of a request put at its head; those of the software queues visited first; what is left over from
      earlier runs; what a busy driver gave back; and what a dispatch list had before a CPU went away. */
  predicate Ahead(w: World, s: State, t: nat, a: nat, b: nat)
    requires Shape(w, s) && t < |s.pcs| && PcOk(w, s.pcs[t])
  {
    match s.pcs[t]
    case InsWant(c, rqs, atHead, _) => if atHead then a in rqs && b in s.lists[c] else a in s.lists[c] && b in rqs
    case RunSplice(h, i, list) => Slot(w, h, i) && a in list && b in s.lists[w.ctxs[h][i]]
    case RunTake(h, list) => a in s.dispatch[h] && b in list
    case RunBack(h, list) => a in list && b in s.dispatch[h]
    case DeadPut(h, tmp) => a in s.dispatch[h] && b in tmp
    case _ => false
  }

  lemma AheadOrders(w: World, s: State, t: nat, outcome: Outcome, a: nat, b: nat)
    requires Shape(w, s) && Enabled(w, s, Go(t, outcome)) && PcOk(w, s.pcs[t]) && Ahead(w, s, t, a, b)
    ensures Ordered(Next(w, s, t, outcome), a, b)
  {
    var s' := Next(w, s, t, outcome);
    match s.pcs[t]
    case InsWant(c, rqs, _, _) =>
      BeforeConcat(rqs, s.lists[c], a, b);
      BeforeConcat(s.lists[c], rqs, a, b);
      assert Before(Line(s', InCtx(c)), a, b);
    case RunSplice(h, i, list) =>
      BeforeConcat(list, s.lists[w.ctxs[h][i]], a, b);
      assert Before(Line(s', With(t)), a, b);
    case RunTake(h, list) =>
      BeforeConcat(s.dispatch[h], list, a, b);
      assert Before(Line(s', With(t)), a, b);
    case RunBack(h, list) =>
      BeforeConcat(list, s.dispatch[h], a, b);
      assert Before(Line(s', OnDispatch(h)), a, b);
    case DeadPut(h, tmp) =>
      BeforeConcat(s.dispatch[h], tmp, a, b);
      assert Before(Line(s', OnDispatch(h)), a, b);
  }

  /** In every run: whoever is to be ahead when two lists are put together is ahead ever after, and is issued first. */
  lemma AheadForGood(w: World, threads: nat, steps: seq<Step>, t: nat, outcome: Outcome, more: seq<Step>, a: nat, b: nat)
    requires Topology(w) && Track(w, threads, steps + [Go(t, outcome)] + more).Some?
    requires Run(w, threads, steps).Some? && Shape(w, Run(w, threads, steps).value)
    requires var s := Run(w, threads, steps).value; t < |s.pcs| && PcOk(w, s.pcs[t]) && Ahead(w, s, t, a, b)
    ensures Run(w, threads, steps + [Go(t, outcome)] + more).Some?
    ensures var s' := Run(w, threads, steps + [Go(t, outcome)] + more).value;
      Ordered(s', a, b) && (a != b && Issued(s', b) ==> Issued(s', a))
  {
    var one := steps + [Go(t, outcome)];
    EachInOnePlace(w, threads, one + more);
    OrderInEveryRun(w, threads, one, more, a, b);
    assert one[..|steps|] == steps;
    AheadOrders(w, Run(w, threads, steps).value, t, outcome, a, b);
    IssuedInOrder(Run(w, threads, one + more).value, Track(w, threads, one + more).value, a, b);
  }

  /** What waits somewhere has not been issued. */
  lemma WaitingNotIssued(s: State, at: map<nat, Place>, p: Place, r: nat)
    requires Located(s, at) && r in Line(s, p)
    ensures !Issued(s, r) && forall p' :: r in Line(s, p') ==> p' == p
  {
    CountIn(Line(s, p), r);
    CountIn(s.driver, r);
    CountIn(s.ended, r);
    assert Presence(s, p, r) == if r in at && at[r] == p then 1 else 0;
    assert Presence(s, AtDriver, r) == if r in at && at[r] == AtDriver then 1 else 0;
    assert Presence(s, Ended, r) == if r in at && at[r] == Ended then 1 else 0;
    forall p' | r in Line(s, p') ensures p' == p {
      CountIn(Line(s, p'), r);
      assert Presence(s, p', r) == if r in at && at[r] == p' then 1 else 0;
    }
  }

  lemma IssuedInOrder(s: State, at: map<nat, Place>, a: nat, b: nat)
    requires Located(s, at) && Ordered(s, a, b)
    ensures Issued(s, b) ==> Issued(s, a)
    ensures forall p :: a in Line(s, p) && b in Line(s, p) ==> Before(Line(s, p), a, b)
  {
    if !Issued(s, a) {
      var p :| Before(Line(s, p), a, b);
      assert b in Line(s, p);
      WaitingNotIssued(s, at, p, b);
    }
    forall p | a in Line(s, p) && b in Line(s, p) ensures Before(Line(s, p), a, b) {
      WaitingNotIssued(s, at, p, a);
      var p' :| Before(Line(s, p'), a, b);
      assert a in Line(s, p');
    }
  }

  // ---------------------------------------------------------------- first come, first served

  /** The step at `i` puts `r` on the list of software queue `c`. */
  predicate Puts(w: World, threads: nat, steps: seq<Step>, i: nat, c: nat, r: nat, atHead: bool) {
    && i < |steps| && steps[i].Go? && Run(w, threads, steps[..i]).Some?
    && var s := Run(w, threads, steps[..i]).value;
       steps[i].t < |s.pcs| && var pc := s.pcs[steps[i].t];
         pc.InsWant? && pc.c == c && pc.atHead == atHead && r in pc.rqs
  }

  /** No inserter has `r` any more. */
  predicate Landed(s: State, r: nat) {
    forall t :: 0 <= t < |s.pcs| && s.pcs[t].InsWant? ==> r !in s.pcs[t].rqs
  }

  lemma StepLanded(w: World, s: State, step: Step, r: nat, c: nat)
    requires Shape(w, s) && Enabled(w, s, step) && Landed(s, r) && !(step.BeginInsert? && r in step.rqs) && c < |w.hw|
    ensures Landed(Apply(w, s, step), r)
    ensures |Apply(w, s, step).lists| == |w.hw| && (r !in s.lists[c] ==> r !in Apply(w, s, step).lists[c])
  {
    if step.Go? {
      assert PcOk(w, s.pcs[step.t]);
    }
  }

  lemma {:induction false} TrackedFront(w: World, threads: nat, steps: seq<Step>, k: nat)
    requires Track(w, threads, steps).Some? && k <= |steps|
    ensures Track(w, threads, steps[..k]).Some?
    ensures Track(w, threads, steps[..k]).value.Keys <= Track(w, threads, steps).value.Keys
  {
    if k == |steps| {
      assert steps[..k] == steps;
    } else {
      var front := steps[..|steps| - 1];
      assert front[..k] == steps[..k];
      TrackedFront(w, threads, front, k);
    }
  }

  /** A request that has left a software queue does not come back. */
  lemma {:induction false} NeverBack(w: World, threads: nat, steps: seq<Step>, k: nat, r: nat, c: nat)
    requires Topology(w) && Track(w, threads, steps).Some? && k <= |steps| && c < |w.hw|
    requires Track(w, threads, steps[..k]).Some? && r in Track(w, threads, steps[..k]).value
    requires Run(w, threads, steps[..k]).Some? && Landed(Run(w, threads, steps[..k]).value, r)
    ensures Run(w, threads, steps).Some? && Landed(Run(w, threads, steps).value, r)
    ensures |Run(w, threads, steps[..k]).value.lists| == |Run(w, threads, steps).value.lists| == |w.hw|
    ensures r !in Run(w, threads, steps[..k]).value.lists[c] ==> r !in Run(w, threads, steps).value.lists[c]
  {
    ShapeInEveryRun(w, threads, steps[..k]);
    if k == |steps| {
      assert steps[..k] == steps;
    } else {
      var front := steps[..|steps| - 1];
      assert front[..k] == steps[..k];
      NeverBack(w, threads, front, k, r, c);
      TrackedFront(w, threads, front, k);
      ShapeInEveryRun(w, threads, front);
      StepLanded(w, Run(w, threads, front).value, steps[|steps| - 1], r, c);
    }
  }

  /** Right after it was put on a software queue, a request is there and no inserter has it. */
  lemma PutLands(w: World, threads: nat, steps: seq<Step>, i: nat, c: nat, r: nat, atHead: bool)
    requires Topology(w) && Track(w, threads, steps).Some? && Puts(w, threads, steps, i, c, r, atHead)
    ensures Track(w, threads, steps[..i + 1]).Some? && r in Track(w, threads, steps[..i + 1]).value
    ensures Run(w, threads, steps[..i + 1]).Some? && Landed(Run(w, threads, steps[..i + 1]).value, r) && c < |w.hw|
  {
    var one := steps[..i + 1];
    TrackedFront(w, threads, steps, i + 1);
    EachInOnePlace(w, threads, one);
    assert one[..i] == steps[..i];
    var (s, s', at) := (Run(w, threads, steps[..i]).value, Run(w, threads, one).value, Track(w, threads, one).value);
    assert PcOk(w, s.pcs[steps[i].t]);
    assert r in Line(s', InCtx(c));
    CountIn(Line(s', InCtx(c)), r);
    assert Presence(s', InCtx(c), r) == if r in at && at[r] == InCtx(c) then 1 else 0;
    WaitingNotIssued(s', at, InCtx(c), r);
    forall t | 0 <= t < |s'.pcs| && s'.pcs[t].InsWant? ensures r !in s'.pcs[t].rqs {
      assert Line(s', With(t)) == s'.pcs[t].rqs;
    }
  }

  /** In every run, of two requests put at the tail of one software queue the one put first stands first for as long
      as both are there; and if it was still there when the other one came, it is issued first. */
  lemma FirstComeFirstServed(w: World, threads: nat, steps: seq<Step>, i: nat, j: nat, c: nat, a: nat, b: nat)
    requires Topology(w) && Track(w, threads, steps).Some? && i < j
    requires Puts(w, threads, steps, i, c, a, false) && Puts(w, threads, steps, j, c, b, false)
    ensures Run(w, threads, steps).Some? && c < |Run(w, threads, steps).value.lists| == |w.hw|
    ensures var list := Run(w, threads, steps).value.lists[c]; a in list && b in list ==> Before(list, a, b)
    ensures |Run(w, threads, steps[..j]).value.lists| == |w.hw|
    ensures a in Run(w, threads, steps[..j]).value.lists[c] ==>
      && Ordered(Run(w, threads, steps).value, a, b)
      && (Issued(Run(w, threads, steps).value, b) ==> Issued(Run(w, threads, steps).value, a))
  {
    EachInOnePlace(w, threads, steps);
    ShapeInEveryRun(w, threads, steps);
    ShapeInEveryRun(w, threads, steps[..j]);
    PutLands(w, threads, steps, i, c, a, false);
    var s, at := Run(w, threads, steps).value, Track(w, threads, steps).value;
    if a in Run(w, threads, steps[..j]).value.lists[c] {
      MetInOrder(w, threads, steps, j, c, a, b);
      IssuedInOrder(s, at, a, b);
      assert Line(s, InCtx(c)) == s.lists[c];
    } else {
      TrackedFront(w, threads, steps, j);
      assert steps[..j][..i + 1] == steps[..i + 1];
      NeverBack(w, threads, steps[..j], i + 1, a, c);
      TrackedFront(w, threads, steps[..j], i + 1);
      NeverBack(w, threads, steps, j, a, c);
    }
  }

  lemma SplitAt<T>(s: seq<T>, j: nat)
    requires j < |s|
    ensures s == s[..j] + [s[j]] + s[j + 1..]
  {
  }

  lemma PutsAhead(w: World, s: State, t: nat, c: nat, a: nat, b: nat)
    requires Shape(w, s) && t < |s.pcs| && s.pcs[t].InsWant? && s.pcs[t].c == c && !s.pcs[t].atHead
    requires b in s.pcs[t].rqs && c < |s.lists| && a in s.lists[c]
    ensures PcOk(w, s.pcs[t]) && Ahead(w, s, t, a, b)
  {
  }

  lemma MetInOrder(w: World, threads: nat, steps: seq<Step>, j: nat, c: nat, a: nat, b: nat)
    requires Topology(w) && Track(w, threads, steps).Some? && Puts(w, threads, steps, j, c, b, false)
    requires c < |Run(w, threads, steps[..j]).value.lists| && a in Run(w, threads, steps[..j]).value.lists[c]
    ensures Run(w, threads, steps).Some? && Ordered(Run(w, threads, steps).value, a, b)
  {
    var (t, outcome) := (steps[j].t, steps[j].outcome);
    SplitAt(steps, j);
    ShapeInEveryRun(w, threads, steps[..j]);
    PutsAhead(w, Run(w, threads, steps[..j]).value, t, c, a, b);
    AheadForGood(w, threads, steps[..j], t, outcome, steps[j + 1..], a, b);
  }

  /** Only single requests are put at the head. */
  predicate HeadsAlone(s: State) {
    forall t :: 0 <= t < |s.pcs| && s.pcs[t].InsWant? && s.pcs[t].atHead ==> |s.pcs[t].rqs| == 1
  }

  lemma {:induction false} HeadsAloneInEveryRun(w: World, threads: nat, steps: seq<Step>)
    requires Topology(w) && Run(w, threads, steps).Some?
    ensures HeadsAlone(Run(w, threads, steps).value)
  {
    if steps != [] {
      var front := steps[..|steps| - 1];
      HeadsAloneInEveryRun(w, threads, front);
      var (s, step) := (Run(w, threads, front).value, steps[|steps| - 1]);
      if step.Go? {
        assert PcOk(w, s.pcs[step.t]);
      }
    }
  }

  /** In every run a request put at the head stands first right after, and the others behind it as they stood. */
  lemma HeadFirst(w: World, threads: nat, steps: seq<Step>, i: nat, c: nat, r: nat)
    requires Topology(w) && Run(w, threads, steps).Some? && i < |steps| && Puts(w, threads, steps, i, c, r, true)
    requires Run(w, threads, steps[..i + 1]).Some?
    ensures c < |Run(w, threads, steps[..i]).value.lists| == |Run(w, threads, steps[..i + 1]).value.lists|
    ensures Run(w, threads, steps[..i + 1]).value.lists[c] == [r] + Run(w, threads, steps[..i]).value.lists[c]
  {
    assert steps[..i] + [steps[i]] == steps[..i + 1] && [steps[i]][..0] == [];
    assert steps[..i] + [] == steps[..i];
    RunOn(w, threads, steps[..i], [steps[i]]);
    HeadsAloneInEveryRun(w, threads, steps[..i]);
    PutsFirst(w, Run(w, threads, steps[..i]).value, steps[i].t, steps[i].outcome, c, r);
  }

  lemma PutsFirst(w: World, s: State, t: nat, outcome: Outcome, c: nat, r: nat)
    requires Shape(w, s) && Enabled(w, s, Go(t, outcome)) && HeadsAlone(s)
    requires s.pcs[t].InsWant? && s.pcs[t].c == c && s.pcs[t].atHead && r in s.pcs[t].rqs
    ensures c < |s.lists| == |Next(w, s, t, outcome).lists| && Next(w, s, t, outcome).lists[c] == [r] + s.lists[c]
  {
    assert PcOk(w, s.pcs[t]);
    assert s.pcs[t].rqs == [r];
  }

  /** What is ended was completed by the driver or refused by it. */
  lemma {:induction false} EndedHaveCause(w: World, threads: nat, steps: seq<Step>)
    requires Run(w, threads, steps).Some? && Run(w, threads, steps).value.ended != []
    ensures exists i :: 0 <= i < |steps| && (steps[i].Complete? || (steps[i].Go? && steps[i].outcome.Error?))
  {
    var front := steps[..|steps| - 1];
    var (s, step) := (Run(w, threads, front).value, steps[|steps| - 1]);
    if s.ended != [] {
      EndedHaveCause(w, threads, front);
      var i :| 0 <= i < |front| && (front[i].Complete? || (front[i].Go? && front[i].outcome.Error?));
      assert steps[i] == front[i];
    } else {
      if step.Go? {
        assert PcOk(w, s.pcs[step.t]);
      }
      assert step.Complete? || (step.Go? && step.outcome.Error?);
    }
  }

  // ---------------------------------------------------------------- marks

  /** The thread is about to set, or to clear, bit `i` of hardware queue `h`. */
  predicate Sets(w: World, pc: Pc, h: nat, i: nat)
    requires PcOk(w, pc) && |w.hw| == |w.index|
  {
    pc.InsSet? && w.hw[pc.c] == h && w.index[pc.c] == i
  }

  predicate Clears(w: World, pc: Pc, h: nat, i: nat)
    requires PcOk(w, pc) && |w.hw| == |w.index|
  {
    (pc.RunClear? && pc.h == h && pc.i == i) || (pc.DeadClear? && pc.h == h && w.index[pc.c] == i)
  }

  /** A mark appears only when an inserter that found it missing sets it, and goes only when a runner has seen it or the
      callback has taken the list; and a runner clears it before it takes the list. */
  lemma MarksMove(w: World, s: State, t: nat, outcome: Outcome, h: nat, i: nat)
    requires Shape(w, s) && Enabled(w, s, Go(t, outcome))
    ensures PcOk(w, s.pcs[t])
    ensures var s' := Next(w, s, t, outcome);
      && ((h, i) in s'.bits <==> Sets(w, s.pcs[t], h, i) || ((h, i) in s.bits && !Clears(w, s.pcs[t], h, i)))
      && (s'.pcs[t].RunSplice? ==> (s'.pcs[t].h, s'.pcs[t].i) !in s'.bits)
      && (s'.pcs[t].RunClear? ==> (s'.pcs[t].h, s'.pcs[t].i) in s.bits)
      && (s'.pcs[t].InsSet? ==> (w.hw[s'.pcs[t].c], w.index[s'.pcs[t].c]) !in s.bits)
  {
    assert PcOk(w, s.pcs[t]);
  }

  // ---------------------------------------------------------------- progress

  /** How far a thread is from its end, the requests it holds aside. */
  function Distance(w: World, pc: Pc): nat
    requires PcOk(w, pc)
  {
    match pc
    case Done => 0
    case InsWant(_, _, _, _) => 5
    case InsTest(_, _) => 4
    case InsSet(_, _) => 3
    case InsUnlock(_, _) => 2
    case InsKick(_, _) => 1
    case RunScan(h, i, _) => 7 + 3 * (|w.ctxs[h]| - i)
    case RunClear(h, i, _) => 6 + 3 * (|w.ctxs[h]| - i)
    case RunSplice(h, i, _) => 5 + 3 * (|w.ctxs[h]| - i)
    case RunPeek(_, _) => 5
    case RunTake(_, _) => 4
    case RunIssue(_, _) => 3
    case RunBack(_, _) => 2
    case RunKick(_) => 1
    case DeadWant(_, _) => 4
    case DeadClear(_, _, _) => 3
    case DeadPut(_, _) => 2
  }

  /** Every step of a thread brings it nearer to its end, or issues one of the requests it holds: no call goes on for
      ever. */
  lemma StepsEnd(w: World, s: State, t: nat, outcome: Outcome)
    requires Shape(w, s) && Enabled(w, s, Go(t, outcome))
    ensures var (pc, pc') := (s.pcs[t], Next(w, s, t, outcome).pcs[t]);
      PcOk(w, pc) && (Distance(w, pc') < Distance(w, pc) || (Distance(w, pc') == Distance(w, pc) && |Held(pc')| < |Held(pc)|))
  {
    assert PcOk(w, s.pcs[t]);
  }
}
