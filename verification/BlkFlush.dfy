/** The FLUSH/FUA sequencer of block/blk-flush.c.

    A request is taken through the optional steps PREFLUSH, DATA and POSTFLUSH.  All requests
    that need a flush share one flush request, double buffered by `pending` and `running`.

    Three layers:
    - `State` and the functions on it say what each locked region of the source does;
    - `Watch`/`Observe` is an independent observer of the event log: it knows nothing of the
      queues and says which histories of one request are acceptable;
    - `Inv` ties the two, and the lemmas at the end state what it means for every run.
 */
module BlkFlush {

  type Rq = nat

  datatype Step = PreFlush | Data | PostFlush

  /** What blk_flush_cur_seq yields: the first step not yet done, or DONE. */
  datatype Cur = At(step: Step) | Done

  const ACTIONS: set<Step> := {PreFlush, Data, PostFlush}

  datatype QueueFlags = QueueFlags(writeCache: bool, fua: bool)
  datatype RequestFlags = RequestFlags(sectors: nat, preflush: bool, fua: bool)

  /** The header of the file: without data only REQ_PREFLUSH makes sense. */
  predicate Sensible(f: RequestFlags) {
    f.sectors == 0 ==> !f.fua
  }

  function FlushPolicy(q: QueueFlags, f: RequestFlags): (p: set<Step>)
    ensures p <= ACTIONS
    ensures !q.writeCache ==> p <= {Data}
    ensures Sensible(f) && Data !in p ==> PostFlush !in p
  {
    (if f.sectors != 0 then {Data} else {}) +
    (if q.writeCache && f.preflush then {PreFlush} else {}) +
    (if q.writeCache && !q.fua && f.fua then {PostFlush} else {})
  }

  function CurSeq(done: set<Step>): (c: Cur)
    ensures c == Done <==> ACTIONS <= done
    ensures c.At? ==> c.step !in done
    ensures c == At(Data) || c == At(PostFlush) ==> PreFlush in done
    ensures c == At(PostFlush) ==> Data in done
  {
    if PreFlush !in done then At(PreFlush)
    else if Data !in done then At(Data)
    else if PostFlush !in done then At(PostFlush)
    else Done
  }

  predicate NeedsFlush(c: Cur) {
    c == At(PreFlush) || c == At(PostFlush)
  }

  // ---------------------------------------------------------------- the observer

  datatype Event =
    | Inserted(rq: Rq, policy: set<Step>)
    | Bypassed(rq: Rq)
    | Queued(rq: Rq, step: Step)
    | FlushIssued
    | FlushDone(failed: bool)
    | DataIssued(rq: Rq)
    | DataDone(rq: Rq, failed: bool)
    | Ended(rq: Rq, failed: bool)

  datatype Phase = Between | Waiting | Covered | InData | Failing

  /** What an outside observer knows about one request.
      Waiting: queued for a flush, none issued since.  Covered: a flush was issued since. */
  datatype Monitor =
    | Unknown
    | Active(policy: set<Step>, done: set<Step>, phase: Phase)
    | Handed
    | Finished(policy: set<Step>, failed: bool)
    | Broken

  function Watch(m: Monitor, e: Event, r: Rq): Monitor {
    match e
    case Inserted(x, p) =>
      if x != r then m else if m.Unknown? then Active(p, ACTIONS - p, Between) else Broken
    case Bypassed(x) =>
      if x != r then m else if m.Active? && m.phase == Between && m.policy == {Data} then Handed else Broken
    case Queued(x, step) =>
      if x != r then m
      else if m.Active? && m.phase == Between && CurSeq(m.done) == At(step) && step != Data
      then m.(phase := Waiting) else Broken
    case FlushIssued =>
      if m.Active? && m.phase == Waiting then m.(phase := Covered) else m
    case FlushDone(failed) =>
      if m.Active? && m.phase == Covered && CurSeq(m.done).At?
      then (if failed then m.(phase := Failing)
            else m.(done := m.done + {CurSeq(m.done).step}, phase := Between))
      else m
    case DataIssued(x) =>
      if x != r then m
      else if m.Active? && m.phase == Between && CurSeq(m.done) == At(Data)
      then m.(phase := InData) else Broken
    case DataDone(x, failed) =>
      if x != r then m
      else if m.Active? && m.phase == InData
      then (if failed then m.(phase := Failing) else m.(done := m.done + {Data}, phase := Between))
      else Broken
    case Ended(x, failed) =>
      if x != r then m
      else if m.Active? && failed && m.phase == Failing then Finished(m.policy, true)
      else if m.Active? && !failed && m.phase == Between && CurSeq(m.done) == Done then Finished(m.policy, false)
      else Broken
  }

  function Observe(log: seq<Event>, r: Rq): Monitor {
    if log == [] then Unknown else Watch(Observe(log[..|log| - 1], r), log[|log| - 1], r)
  }

  /** Whether the device holds a flush, and whether two were ever out at once. */
  datatype Flight = Idle | Busy | Overlap

  function FlightOf(log: seq<Event>): Flight {
    if log == [] then Idle
    else
      var f := FlightOf(log[..|log| - 1]);
      match log[|log| - 1]
      case FlushIssued => if f.Idle? then Busy else Overlap
      case FlushDone(_) => if f.Busy? then Idle else Overlap
      case _ => f
  }

  lemma Append(log: seq<Event>, e: Event, r: Rq)
    ensures Observe(log + [e], r) == Watch(Observe(log, r), e, r)
    ensures !e.FlushIssued? && !e.FlushDone? ==> FlightOf(log + [e]) == FlightOf(log)
    ensures e.FlushIssued? ==> FlightOf(log + [e]) == if FlightOf(log).Idle? then Busy else Overlap
    ensures e.FlushDone? ==> FlightOf(log + [e]) == if FlightOf(log).Busy? then Idle else Overlap
  {
    assert (log + [e])[..|log|] == log;
  }

  // ---------------------------------------------------------------- the sequencer on values

  /** Fields of struct blk_flush_queue, the flush.seq field of every request, and the log. */
  datatype State = State(
    queue: seq<seq<Rq>>,
    pending: nat,
    running: nat,
    dataInFlight: seq<Rq>,
    pendingSince: int,
    done: map<Rq, set<Step>>,
    log: seq<Event>)

  const INIT: State := State([[], []], 0, 0, [], 0, map[], [])

  predicate Shape(s: State) {
    |s.queue| == 2 && s.pending < 2 && s.running < 2
  }

  function Without(l: seq<Rq>, r: Rq): (res: seq<Rq>)
    ensures forall x :: x in res <==> x in l && x != r
    ensures Distinct(l) ==> Distinct(res)
    ensures r !in l ==> res == l
  {
    if l == [] then []
    else if l[0] == r then
      assert forall x :: x in l <==> x == l[0] || x in l[1..];
      Without(l[1..], r)
    else
      assert forall x :: x in l <==> x == l[0] || x in l[1..];
      [l[0]] + Without(l[1..], r)
  }

  predicate Distinct(l: seq<Rq>) {
    l == [] || (l[0] !in l[1..] && Distinct(l[1..]))
  }

  function Logged(s: State, e: Event): State {
    s.(log := s.log + [e])
  }

  /** list_move_tail or list_del seen from one list: `r` leaves it, or ends up at its tail. */
  function Relink(l: seq<Rq>, r: Rq, here: bool): (res: seq<Rq>)
    ensures forall x :: x in res <==> (x in l && x != r) || (here && x == r)
    ensures !here && r !in l ==> res == l
  {
    if here then Without(l, r) + [r] else Without(l, r)
  }

  /** Issue the flush: the pending list becomes the running one. */
  function Issued(s: State): (t: State)
    requires Shape(s)
  {
    Logged(s.(pending := 1 - s.pending), FlushIssued)
  }

  function Kick(s: State, now: int, timeout: nat): (t: State)
    requires Shape(s)
  {
    if s.pending != s.running || s.queue[s.pending] == [] then s
    else if s.dataInFlight != [] && now < s.pendingSince + timeout then s
    else Issued(s)
  }

  /** The step blk_flush_complete_seq begins next. */
  function AdvanceEvent(s: State, r: Rq, f: bool): Event
    requires r in s.done
  {
    if f then Ended(r, true)
    else match CurSeq(s.done[r])
      case Done => Ended(r, false)
      case At(Data) => DataIssued(r)
      case At(step) => Queued(r, step)
  }

  /** The switch of blk_flush_complete_seq: put the request where its next step needs it. */
  function Advance(s: State, r: Rq, f: bool, now: int): (t: State)
    requires Shape(s) && r in s.done
  {
    var e := AdvanceEvent(s, r, f);
    Logged(s.(queue := [Relink(s.queue[0], r, e.Queued? && s.pending == 0),
                        Relink(s.queue[1], r, e.Queued? && s.pending == 1)],
              dataInFlight := Relink(s.dataInFlight, r, e.DataIssued?),
              pendingSince := if e.Queued? && s.queue[s.pending] == [] then now else s.pendingSince), e)
  }

  /** Record steps in flush.seq. */
  function Recorded(s: State, r: Rq, steps: set<Step>): (t: State)
    requires r in s.done
  {
    s.(done := s.done[r := s.done[r] + steps])
  }

  function CompleteSeq(s: State, r: Rq, steps: set<Step>, failed: bool, now: int, timeout: nat): (t: State)
    requires Shape(s) && r in s.done
  {
    Kick(Advance(Recorded(s, r, steps), r, failed, now), now, timeout)
  }

  /** blk_insert_flush before it looks at the policy. */
  function Arrived(s: State, r: Rq, p: set<Step>): (t: State) {
    Logged(s.(done := s.done[r := {}]), Inserted(r, p))
  }

  function InsertFlush(s: State, r: Rq, q: QueueFlags, f: RequestFlags, now: int, timeout: nat): (t: State)
    requires Shape(s)
  {
    var p := FlushPolicy(q, f);
    var u := Arrived(s, r, p);
    if p == {} then Logged(u, Ended(r, false))
    else if p == {Data} then Logged(u, Bypassed(r))
    else CompleteSeq(u, r, ACTIONS - p, false, now, timeout)
  }

  function DataEndIo(s: State, r: Rq, failed: bool, now: int, timeout: nat): (t: State)
    requires Shape(s) && r in s.done
  {
    CompleteSeq(Logged(s, DataDone(r, failed)), r, {Data}, failed, now, timeout)
  }

  /** The steps the loop of flush_end_io completes for one waiting request. */
  function Served(done: set<Step>): set<Step> {
    match CurSeq(done) case At(step) => {step} case Done => {}
  }

  function FlushAccounted(s: State, failed: bool): (t: State)
    requires Shape(s)
  {
    Logged(s.(running := 1 - s.running), FlushDone(failed))
  }

  /** The loop of flush_end_io over the requests that were waiting; `clock` gives jiffies per turn. */
  function Drain(s: State, rest: seq<Rq>, failed: bool, clock: nat -> int, k: nat, timeout: nat): (t: State)
    requires Shape(s) && forall r :: r in rest ==> r in s.done
    decreases |rest|
  {
    if rest == [] then s
    else Drain(CompleteSeq(s, rest[0], Served(s.done[rest[0]]), failed, clock(k), timeout),
               rest[1..], failed, clock, k + 1, timeout)
  }

  function FlushEndIo(s: State, failed: bool, clock: nat -> int, timeout: nat): (t: State)
    requires Shape(s) && forall r :: r in s.queue[s.running] ==> r in s.done
  {
    Drain(FlushAccounted(s, failed), s.queue[s.running], failed, clock, 0, timeout)
  }

  // ---------------------------------------------------------------- the invariant

  /** The index of the list flush_end_io is walking, or NO_LOOP outside it. */
  const NO_LOOP: nat := 2

  /** A monitor without the policy, which the sequencer does not keep. */
  datatype Stage = Unseen | Engaged(done: set<Step>, phase: Phase) | Over | Wrong

  function StageOf(o: Monitor): Stage {
    match o
    case Unknown => Unseen
    case Active(_, done, phase) => Engaged(done, phase)
    case Handed => Over
    case Finished(_, _) => Over
    case Broken => Wrong
  }

  /** Where the queues say a request is.  In the walked list its flush is over (`failed` or not)
      but its sequence has not moved on. */
  function Expected(s: State, m: nat, failed: bool, r: Rq): Stage
    requires Shape(s)
  {
    if r !in s.done then Unseen
    else if m < 2 && r in s.queue[m] then
      if failed then Engaged(s.done[r], Failing) else Engaged(s.done[r] + Served(s.done[r]), Between)
    else if r in s.queue[s.pending] then Engaged(s.done[r], Waiting)
    else if r in s.queue[1 - s.pending] then Engaged(s.done[r], Covered)
    else if r in s.dataInFlight then Engaged(s.done[r], InData)
    else Over
  }

  /** On a flush queue: the next step is a flush, and POSTFLUSH never follows PREFLUSH directly. */
  predicate Flushable(done: set<Step>) {
    NeedsFlush(CurSeq(done)) && (PreFlush !in done && Data in done ==> PostFlush in done)
  }

  /** All but the given requests on the flush queues wait for a flush. */
  ghost predicate Waiters(s: State, but: set<Rq>)
    requires Shape(s)
  {
    forall r :: r in s.queue[0] || r in s.queue[1] ==> r in but || (r in s.done && Flushable(s.done[r]))
  }

  /** Every request the queues hold is known and held once. */
  predicate Lists(s: State)
    requires Shape(s)
  {
    && Distinct(s.queue[0]) && Distinct(s.queue[1]) && Distinct(s.dataInFlight)
    && (forall r :: r in s.queue[0] ==> r !in s.queue[1] && r !in s.dataInFlight && r in s.done)
    && (forall r :: r in s.queue[1] ==> r !in s.dataInFlight && r in s.done)
    && (forall r :: r in s.dataInFlight ==> r in s.done)
  }

  /** The two buffers and the flush in flight.  Inside the loop the walked list is the one not running. */
  predicate Buffers(s: State, m: nat)
    requires Shape(s)
  {
    && (m < 2 ==> s.running == 1 - m)
    && (s.pending != s.running ==> s.queue[s.running] != [])
    && (s.pending == s.running && m == NO_LOOP ==> s.queue[1 - s.pending] == [])
    && FlightOf(s.log) == (if s.pending == s.running then Idle else Busy)
  }

  /** Policies given to the sequencer: no POSTFLUSH without DATA. */
  predicate SensibleLog(log: seq<Event>) {
    forall i :: 0 <= i < |log| && log[i].Inserted? && Data !in log[i].policy ==> PostFlush !in log[i].policy
  }

  ghost predicate InLoop(s: State, m: nat, failed: bool) {
    && m <= NO_LOOP && Shape(s) && Lists(s) && Waiters(s, {}) && Buffers(s, m) && SensibleLog(s.log)
    && forall r :: StageOf(Observe(s.log, r)) == Expected(s, m, failed, r)
  }

  /** With nothing in flight nothing waits. */
  predicate NoStall(s: State)
    requires Shape(s)
  {
    s.pending == s.running && s.dataInFlight == [] ==> s.queue[s.pending] == []
  }

  ghost predicate Inv(s: State) {
    InLoop(s, NO_LOOP, false) && NoStall(s)
  }

  /** What the observer's phases imply about the steps, whatever the sequencer does. */
  predicate Coherent(o: Monitor) {
    o.Active? ==>
      && ACTIONS - o.policy <= o.done
      && (o.phase == Waiting || o.phase == Covered ==> NeedsFlush(CurSeq(o.done)))
      && (o.phase == InData ==> CurSeq(o.done) == At(Data))
      && (Data !in o.policy ==> PostFlush !in o.policy)
  }

  lemma {:induction false} ObserverCoherent(log: seq<Event>, r: Rq)
    requires SensibleLog(log)
    ensures Coherent(Observe(log, r))
  {
    if log != [] {
      var n := |log| - 1;
      assert forall i :: 0 <= i < n ==> log[..n][i] == log[i];
      ObserverCoherent(log[..n], r);
    }
  }

  // ---------------------------------------------------------------- preservation

  lemma IssueStage(s: State, m: nat, failed: bool, r: Rq)
    requires Shape(s) && Buffers(s, m) && m <= NO_LOOP && s.pending == s.running
    requires StageOf(Observe(s.log, r)) == Expected(s, m, failed, r)
    ensures StageOf(Observe(Issued(s).log, r)) == Expected(Issued(s), m, failed, r)
  {
    Append(s.log, FlushIssued, r);
  }

  lemma IssueKeeps(s: State, m: nat, failed: bool)
    requires InLoop(s, m, failed) && s.pending == s.running && s.queue[s.pending] != []
    ensures InLoop(Issued(s), m, failed)
  {
    Append(s.log, FlushIssued, 0);
    forall r ensures StageOf(Observe(Issued(s).log, r)) == Expected(Issued(s), m, failed, r) {
      IssueStage(s, m, failed, r);
    }
  }

  /** Issuing (or deferring) the flush keeps the invariant, inside the loop as well, and leaves no stall. */
  lemma KickKeeps(s: State, m: nat, failed: bool, now: int, timeout: nat)
    requires InLoop(s, m, failed)
    ensures InLoop(Kick(s, now, timeout), m, failed) && NoStall(Kick(s, now, timeout))
    ensures Kick(s, now, timeout).queue == s.queue && Kick(s, now, timeout).done == s.done
  {
    if Kick(s, now, timeout) != s {
      IssueKeeps(s, m, failed);
    }
  }

  /** `r` between two steps: its last step is recorded in flush.seq, its next one not yet begun. */
  predicate Ready(s: State, m: nat, r: Rq, f: bool)
    requires Shape(s)
  {
    && r in s.done
    && StageOf(Observe(s.log, r)).Engaged?
    && (if f then Observe(s.log, r).phase == Failing
        else Observe(s.log, r).phase == Between && Observe(s.log, r).done == s.done[r])
    && (m != 0 ==> r !in s.queue[0])
    && (m != 1 ==> r !in s.queue[1])
    && (!f && NeedsFlush(CurSeq(s.done[r])) ==> m == NO_LOOP && Flushable(s.done[r]))
  }

  /** The invariant with `r` detached from it. */
  ghost predicate Detached(s: State, m: nat, failed: bool, r: Rq, f: bool) {
    && m <= NO_LOOP && Shape(s) && Lists(s) && Waiters(s, {r}) && Buffers(s, m) && SensibleLog(s.log) && Ready(s, m, r, f)
    && forall x :: x != r ==> StageOf(Observe(s.log, x)) == Expected(s, m, failed, x)
  }

  lemma {:induction false} DistinctAppend(l: seq<Rq>, r: Rq)
    requires Distinct(l) && r !in l
    ensures Distinct(l + [r])
  {
    if l != [] {
      DistinctAppend(l[1..], r);
      assert (l + [r])[1..] == l[1..] + [r];
    }
  }

  lemma RelinkDistinct(l: seq<Rq>, r: Rq, here: bool)
    requires Distinct(l)
    ensures Distinct(Relink(l, r, here))
  {
    DistinctAppend(Without(l, r), r);
  }

  predicate Moved(s: State, t: State, r: Rq, e: Event) {
    && Shape(s) && Shape(t) && t.log == s.log + [e] && (e.Queued? || e.DataIssued? || e.Ended?) && e.rq == r
    && t.pending == s.pending && t.running == s.running && t.done == s.done
    && t.queue[0] == Relink(s.queue[0], r, e.Queued? && s.pending == 0)
    && t.queue[1] == Relink(s.queue[1], r, e.Queued? && s.pending == 1)
    && t.dataInFlight == Relink(s.dataInFlight, r, e.DataIssued?)
  }

  lemma AdvanceMoves(s: State, r: Rq, f: bool, now: int)
    requires Shape(s) && r in s.done
    ensures Moved(s, Advance(s, r, f, now), r, AdvanceEvent(s, r, f))
  {
  }

  lemma SameStage(s: State, t: State, m: nat, failed: bool, x: Rq)
    requires Shape(s) && Shape(t) && s.pending == t.pending
    requires (x in s.done <==> x in t.done) && (x in s.done ==> s.done[x] == t.done[x])
    requires forall i :: 0 <= i < 2 ==> (x in s.queue[i] <==> x in t.queue[i])
    requires x in s.dataInFlight <==> x in t.dataInFlight
    ensures Expected(s, m, failed, x) == Expected(t, m, failed, x)
  {
  }

  lemma AdvanceOther(s: State, t: State, m: nat, failed: bool, r: Rq, e: Event, x: Rq)
    requires Moved(s, t, r, e) && x != r
    requires StageOf(Observe(s.log, x)) == Expected(s, m, failed, x)
    ensures StageOf(Observe(t.log, x)) == Expected(t, m, failed, x)
  {
    Append(s.log, e, x);
    SameStage(s, t, m, failed, x);
  }

  lemma AdvanceSelf(s: State, t: State, m: nat, failed: bool, r: Rq, f: bool)
    requires Shape(s) && Ready(s, m, r, f) && Moved(s, t, r, AdvanceEvent(s, r, f))
    ensures StageOf(Observe(t.log, r)) == Expected(t, m, failed, r)
  {
    Append(s.log, AdvanceEvent(s, r, f), r);
  }

  lemma AdvanceLists(s: State, t: State, m: nat, r: Rq, f: bool)
    requires Shape(s) && Lists(s) && Waiters(s, {r}) && Ready(s, m, r, f) && Moved(s, t, r, AdvanceEvent(s, r, f))
    ensures Lists(t) && Waiters(t, {})
  {
    var e := AdvanceEvent(s, r, f);
    RelinkDistinct(s.queue[0], r, e.Queued? && s.pending == 0);
    RelinkDistinct(s.queue[1], r, e.Queued? && s.pending == 1);
    RelinkDistinct(s.dataInFlight, r, e.DataIssued?);
  }

  lemma AdvanceBuffers(s: State, t: State, m: nat, r: Rq, f: bool)
    requires m <= NO_LOOP && Shape(s) && Buffers(s, m) && SensibleLog(s.log) && Ready(s, m, r, f)
    requires Moved(s, t, r, AdvanceEvent(s, r, f))
    ensures Buffers(t, m) && SensibleLog(t.log)
  {
    Append(s.log, AdvanceEvent(s, r, f), r);
  }

  /** Beginning the next step of `r` restores the invariant. */
  lemma AdvanceKeeps(s: State, m: nat, failed: bool, r: Rq, f: bool, now: int)
    requires Detached(s, m, failed, r, f)
    ensures InLoop(Advance(s, r, f, now), m, failed)
  {
    AdvanceMoves(s, r, f, now);
    DetachedMoved(s, Advance(s, r, f, now), m, failed, r, f);
  }

  lemma DetachedMoved(s: State, t: State, m: nat, failed: bool, r: Rq, f: bool)
    requires Detached(s, m, failed, r, f) && Moved(s, t, r, AdvanceEvent(s, r, f))
    ensures InLoop(t, m, failed)
  {
    AdvanceLists(s, t, m, r, f);
    AdvanceBuffers(s, t, m, r, f);
    forall x ensures StageOf(Observe(t.log, x)) == Expected(t, m, failed, x) {
      if x == r {
        AdvanceSelf(s, t, m, failed, r, f);
      } else {
        AdvanceOther(s, t, m, failed, r, AdvanceEvent(s, r, f), x);
      }
    }
  }

  lemma CompleteKeeps(s: State, m: nat, failed: bool, r: Rq, steps: set<Step>, f: bool, now: int, timeout: nat)
    requires r in s.done && Detached(Recorded(s, r, steps), m, failed, r, f)
    ensures var t := CompleteSeq(s, r, steps, f, now, timeout);
      && InLoop(t, m, failed) && NoStall(t)
      && (m < 2 ==> t.queue[m] == Without(s.queue[m], r))
  {
    AdvanceKeeps(Recorded(s, r, steps), m, failed, r, f, now);
    KickKeeps(Advance(Recorded(s, r, steps), r, f, now), m, failed, now, timeout);
  }

  // blk_insert_flush

  /** The log with one more arrival that makes sense. */
  lemma ArriveSensible(log: seq<Event>, r: Rq, p: set<Step>)
    requires SensibleLog(log) && (Data !in p ==> PostFlush !in p)
    ensures SensibleLog(log + [Inserted(r, p)])
  {
  }

  lemma ArriveLists(s: State, r: Rq, p: set<Step>)
    requires Shape(s) && Lists(s) && Waiters(s, {}) && Buffers(s, NO_LOOP) && r !in s.done
    ensures var u := Recorded(Arrived(s, r, p), r, ACTIONS - p); Shape(u) && Lists(u) && Waiters(u, {r}) && Buffers(u, NO_LOOP)
  {
    Append(s.log, Inserted(r, p), r);
  }

  lemma ArriveReady(s: State, r: Rq, p: set<Step>)
    requires Shape(s) && Lists(s) && r !in s.done && Observe(s.log, r).Unknown?
    requires p <= ACTIONS && (Data !in p ==> PostFlush !in p)
    ensures var u := Recorded(Arrived(s, r, p), r, ACTIONS - p); Ready(u, NO_LOOP, r, false)
    ensures Observe(Arrived(s, r, p).log, r) == Active(p, ACTIONS - p, Between)
  {
    Append(s.log, Inserted(r, p), r);
    assert {} + (ACTIONS - p) == ACTIONS - p;
  }

  lemma ArriveDetached(s: State, r: Rq, p: set<Step>)
    requires Inv(s) && r !in s.done && p <= ACTIONS && (Data !in p ==> PostFlush !in p)
    ensures Detached(Recorded(Arrived(s, r, p), r, ACTIONS - p), NO_LOOP, false, r, false)
    ensures Observe(Arrived(s, r, p).log, r) == Active(p, ACTIONS - p, Between)
  {
    var u := Recorded(Arrived(s, r, p), r, ACTIONS - p);
    assert StageOf(Observe(s.log, r)) == Expected(s, NO_LOOP, false, r);
    ArriveSensible(s.log, r, p);
    ArriveLists(s, r, p);
    ArriveReady(s, r, p);
    forall x | x != r ensures StageOf(Observe(u.log, x)) == Expected(u, NO_LOOP, false, x) {
      Append(s.log, Inserted(r, p), x);
      SameStage(s, u, NO_LOOP, false, x);
    }
  }

  /** A request that leaves the machinery at once: nothing to do, or data only. */
  lemma SettleKeeps(s: State, r: Rq, p: set<Step>, e: Event)
    requires Inv(s) && r !in s.done
    requires (p == {} && e == Ended(r, false)) || (p == {Data} && e == Bypassed(r))
    ensures Inv(Logged(Arrived(s, r, p), e))
  {
    assert StageOf(Observe(s.log, r)) == Expected(s, NO_LOOP, false, r);
    Append(s.log, Inserted(r, p), r);
    Append(Arrived(s, r, p).log, e, r);
    forall x ensures StageOf(Observe(Logged(Arrived(s, r, p), e).log, x)) == Expected(Logged(Arrived(s, r, p), e), NO_LOOP, false, x) {
      SettleStage(s, r, p, e, x);
    }
  }

  lemma SettleStage(s: State, r: Rq, p: set<Step>, e: Event, x: Rq)
    requires Shape(s) && Lists(s) && r !in s.done && StageOf(Observe(s.log, r)) == Unseen
    requires (p == {} && e == Ended(r, false)) || (p == {Data} && e == Bypassed(r))
    requires StageOf(Observe(s.log, x)) == Expected(s, NO_LOOP, false, x)
    ensures StageOf(Observe(Logged(Arrived(s, r, p), e).log, x)) == Expected(Logged(Arrived(s, r, p), e), NO_LOOP, false, x)
  {
    Append(s.log, Inserted(r, p), x);
    Append(Arrived(s, r, p).log, e, x);
  }

  lemma InsertKeeps(s: State, r: Rq, q: QueueFlags, f: RequestFlags, now: int, timeout: nat)
    requires Inv(s) && r !in s.done && Sensible(f)
    ensures Inv(InsertFlush(s, r, q, f, now, timeout))
  {
    var p := FlushPolicy(q, f);
    if p == {} {
      SettleKeeps(s, r, p, Ended(r, false));
    } else if p == {Data} {
      SettleKeeps(s, r, p, Bypassed(r));
    } else {
      ArriveDetached(s, r, p);
      CompleteKeeps(Arrived(s, r, p), NO_LOOP, false, r, ACTIONS - p, false, now, timeout);
    }
  }

  // flush_data_end_io and mq_flush_data_end_io

  lemma DataDetached(s: State, r: Rq, failed: bool)
    requires Inv(s) && r in s.dataInFlight
    ensures r in s.done && Data !in s.done[r]
    ensures Detached(Recorded(Logged(s, DataDone(r, failed)), r, {Data}), NO_LOOP, false, r, failed)
  {
    var u := Recorded(Logged(s, DataDone(r, failed)), r, {Data});
    assert StageOf(Observe(s.log, r)) == Expected(s, NO_LOOP, false, r);
    ObserverCoherent(s.log, r);
    Append(s.log, DataDone(r, failed), r);
    forall x | x != r ensures StageOf(Observe(u.log, x)) == Expected(u, NO_LOOP, false, x) {
      Append(s.log, DataDone(r, failed), x);
      SameStage(s, u, NO_LOOP, false, x);
    }
  }

  lemma DataKeeps(s: State, r: Rq, failed: bool, now: int, timeout: nat)
    requires Inv(s) && r in s.dataInFlight
    ensures r in s.done && Data !in s.done[r]
    ensures Inv(DataEndIo(s, r, failed, now, timeout))
  {
    DataDetached(s, r, failed);
    CompleteKeeps(Logged(s, DataDone(r, failed)), NO_LOOP, false, r, {Data}, failed, now, timeout);
  }

  // flush_end_io

  /** Accounting the flush turns the running list into the walked one. */
  lemma AccountKeeps(s: State, failed: bool)
    requires Inv(s) && s.pending != s.running
    ensures InLoop(FlushAccounted(s, failed), s.running, failed)
  {
    var t := FlushAccounted(s, failed);
    Append(s.log, FlushDone(failed), 0);
    forall r ensures StageOf(Observe(t.log, r)) == Expected(t, s.running, failed, r) {
      AccountStage(s, failed, r);
    }
  }

  lemma AccountStage(s: State, failed: bool, r: Rq)
    requires Shape(s) && Lists(s) && SensibleLog(s.log) && s.pending != s.running
    requires StageOf(Observe(s.log, r)) == Expected(s, NO_LOOP, false, r)
    ensures StageOf(Observe(FlushAccounted(s, failed).log, r)) == Expected(FlushAccounted(s, failed), s.running, failed, r)
  {
    Append(s.log, FlushDone(failed), r);
    ObserverCoherent(s.log, r);
  }

  /** The head of the walked list waits for exactly the step the flush completed. */
  lemma HeadDetached(s: State, m: nat, failed: bool)
    requires InLoop(s, m, failed) && m < 2 && s.queue[m] != []
    ensures var r := s.queue[m][0];
      && r in s.done && NeedsFlush(CurSeq(s.done[r])) && Served(s.done[r]) !! s.done[r]
      && Detached(Recorded(s, r, Served(s.done[r])), m, failed, r, failed)
  {
    var r := s.queue[m][0];
    var u := Recorded(s, r, Served(s.done[r]));
    assert StageOf(Observe(s.log, r)) == Expected(s, m, failed, r);

    forall x | x != r ensures StageOf(Observe(u.log, x)) == Expected(u, m, failed, x) {
      SameStage(s, u, m, failed, x);
    }
  }

  lemma DrainKeeps(s: State, m: nat, failed: bool, clock: nat -> int, k: nat, timeout: nat)
    requires InLoop(s, m, failed) && m < 2
    ensures var t := Drain(s, s.queue[m], failed, clock, k, timeout);
      && InLoop(t, m, failed) && t.queue[m] == [] && (s.queue[m] != [] || NoStall(s) ==> NoStall(t))
    decreases |s.queue[m]|
  {
    var l := s.queue[m];
    if l != [] {
      HeadDetached(s, m, failed);
      CompleteKeeps(s, m, failed, l[0], Served(s.done[l[0]]), failed, clock(k), timeout);
      assert Without(l, l[0]) == l[1..];
      DrainKeeps(CompleteSeq(s, l[0], Served(s.done[l[0]]), failed, clock(k), timeout), m, failed, clock, k + 1, timeout);
    }
  }

  lemma LoopLeft(s: State, m: nat, failed: bool)
    requires InLoop(s, m, failed) && m < 2 && s.queue[m] == []
    ensures InLoop(s, NO_LOOP, false)
  {
    forall r ensures StageOf(Observe(s.log, r)) == Expected(s, NO_LOOP, false, r) {
      assert StageOf(Observe(s.log, r)) == Expected(s, m, failed, r);
    }
  }

  lemma DrainEnds(t: State, m: nat, failed: bool, clock: nat -> int, timeout: nat)
    requires InLoop(t, m, failed) && m < 2 && t.queue[m] != []
    ensures forall r :: r in t.queue[m] ==> r in t.done
    ensures Inv(Drain(t, t.queue[m], failed, clock, 0, timeout))
  {
    DrainKeeps(t, m, failed, clock, 0, timeout);
    LoopLeft(Drain(t, t.queue[m], failed, clock, 0, timeout), m, failed);
  }

  /** However the loop of flush_end_io is interleaved with new flushes it issues itself,
      the invariant holds again when it is done. */
  lemma FlushKeeps(s: State, failed: bool, clock: nat -> int, timeout: nat)
    requires Inv(s) && s.pending != s.running
    ensures Inv(FlushEndIo(s, failed, clock, timeout))
  {
    AccountKeeps(s, failed);
    DrainEnds(FlushAccounted(s, failed), s.running, failed, clock, timeout);
  }

  // ---------------------------------------------------------------- every run

  datatype Op =
    | Submit(rq: Rq, q: QueueFlags, f: RequestFlags, now: int)
    | DataCompletes(rq: Rq, failed: bool, now: int)
    | FlushCompletes(failed: bool, clock: nat -> int)

  /** What submitters and the device may do, read off the log alone. */
  predicate Enabled(log: seq<Event>, op: Op) {
    match op
    case Submit(r, _, f, _) => Observe(log, r).Unknown? && Sensible(f)
    case DataCompletes(r, _, _) => Observe(log, r).Active? && Observe(log, r).phase == InData
    case FlushCompletes(_, _) => FlightOf(log) == Busy
  }

  lemma EnabledMeans(s: State, op: Op)
    requires Inv(s) && Enabled(s.log, op)
    ensures op.Submit? ==> op.rq !in s.done
    ensures op.DataCompletes? ==> op.rq in s.dataInFlight && op.rq in s.done && Data !in s.done[op.rq]
    ensures op.FlushCompletes? ==> s.pending != s.running && forall r :: r in s.queue[s.running] ==> r in s.done
  {
    if !op.FlushCompletes? {
      assert StageOf(Observe(s.log, op.rq)) == Expected(s, NO_LOOP, false, op.rq);
      ObserverCoherent(s.log, op.rq);
    }
  }

  /** One locked region.  An operation the log does not allow changes nothing. */
  ghost function Apply(s: State, op: Op, timeout: nat): (t: State)
    requires Inv(s)
    ensures Inv(t)
  {
    if !Enabled(s.log, op) then s
    else
      EnabledMeans(s, op);
      match op
      case Submit(r, q, f, now) => InsertKeeps(s, r, q, f, now, timeout); InsertFlush(s, r, q, f, now, timeout)
      case DataCompletes(r, failed, now) => DataKeeps(s, r, failed, now, timeout); DataEndIo(s, r, failed, now, timeout)
      case FlushCompletes(failed, clock) => FlushKeeps(s, failed, clock, timeout); FlushEndIo(s, failed, clock, timeout)
  }

  lemma InitInv()
    ensures Inv(INIT)
  {
    forall r ensures StageOf(Observe(INIT.log, r)) == Expected(INIT, NO_LOOP, false, r) {
    }
  }

  ghost function Run(ops: seq<Op>, timeout: nat): (s: State)
    ensures Inv(s)
  {
    if ops == [] then InitInv(); INIT
    else Apply(Run(ops[..|ops| - 1], timeout), ops[|ops| - 1], timeout)
  }

  /** Structure and no stall, in every reachable state: never two flushes out at once, one out exactly
      when the indices differ, and with neither a flush nor DATA in flight nothing waits. */
  lemma StructureInEveryRun(ops: seq<Op>, timeout: nat)
    ensures var s := Run(ops, timeout);
      && Shape(s)
      && FlightOf(s.log) != Overlap
      && (FlightOf(s.log) == Busy <==> s.pending != s.running)
      && (FlightOf(s.log) == Idle && s.dataInFlight == [] ==> s.queue[0] == [] && s.queue[1] == [])
  {
    StructureOf(Run(ops, timeout));
  }

  lemma StructureOf(s: State)
    requires Shape(s) && Buffers(s, NO_LOOP) && NoStall(s)
    ensures FlightOf(s.log) != Overlap && (FlightOf(s.log) == Busy <==> s.pending != s.running)
    ensures FlightOf(s.log) == Idle && s.dataInFlight == [] ==> s.queue[0] == [] && s.queue[1] == []
  {
    assert s.pending == 0 || s.pending == 1;
  }

  /** The observer never sees a wrong step, and a request in progress is on the one list of its step. */
  predicate Placed(s: State, r: Rq)
    requires Shape(s)
  {
    var o := Observe(s.log, r);
    && !o.Broken?
    && (r in s.queue[s.pending] <==> o.Active? && o.phase == Waiting)
    && (r in s.queue[1 - s.pending] <==> o.Active? && o.phase == Covered)
    && (r in s.dataInFlight <==> o.Active? && o.phase == InData)
    && (o.Active? ==> o.phase in {Waiting, Covered, InData} && r in s.done && s.done[r] == o.done)
  }

  lemma PlacedInEveryRun(ops: seq<Op>, timeout: nat, r: Rq)
    ensures Shape(Run(ops, timeout)) && Placed(Run(ops, timeout), r)
  {
    StagePlaces(Run(ops, timeout), r);
  }

  lemma StagePlaces(s: State, r: Rq)
    requires Inv(s)
    ensures Placed(s, r)
  {
    assert StageOf(Observe(s.log, r)) == Expected(s, NO_LOOP, false, r);
    assert s.pending == 0 || s.pending == 1;
  }

  // ---------------------------------------------------------------- durability

  /** The event that begins a step of `r`. */
  function Begin(r: Rq, step: Step): Event {
    if step == Data then DataIssued(r) else Queued(r, step)
  }

  datatype Status = NotYet | Begun | Flushing | Complete | Lost

  /** How far the observer has seen one step of a request get. */
  function StatusOf(o: Monitor, step: Step): Status {
    match o
    case Unknown => NotYet
    case Active(p, done, phase) =>
      if step !in p then NotYet
      else if step in done then Complete
      else if CurSeq(done) != At(step) || phase == Between then NotYet
      else if phase == Covered then Flushing
      else if phase == Failing then Lost
      else Begun
    case Finished(p, false) => if step in p then Complete else NotYet
    case _ => Lost
  }

  /** Positions in the log: where the step began, where its flush was issued, where it was complete. */
  datatype Span = Span(begin: nat, issue: nat, end: nat)

  /** Step `step` of `r` began once, at `w.begin`. */
  predicate BeganAt(log: seq<Event>, r: Rq, step: Step, w: Span) {
    && w.begin < |log| && log[w.begin] == Begin(r, step)
    && (forall k :: 0 <= k < |log| && log[k] == Begin(r, step) ==> k == w.begin)
  }

  /** The first flush issued after the request was queued, and none has completed since. */
  predicate FlushAt(log: seq<Event>, w: Span, until: nat) {
    && w.begin < w.issue < until <= |log| && log[w.issue] == FlushIssued
    && (forall k :: w.begin < k < w.issue ==> log[k] != FlushIssued)
    && (forall k :: w.issue < k < until ==> !log[k].FlushDone?)
  }

  /** The step ran once, to completion and without error: DATA between its issue and its completion;
      a flush step by the completion of a flush issued after the request was queued for it. */
  predicate RanOnce(log: seq<Event>, r: Rq, step: Step, w: Span) {
    && BeganAt(log, r, step, w) && w.begin < w.end < |log|
    && (if step == Data then log[w.end] == DataDone(r, false)
        else FlushAt(log, w, w.end) && log[w.end] == FlushDone(false))
  }

  predicate NeverBegan(log: seq<Event>, r: Rq, step: Step) {
    forall k :: 0 <= k < |log| ==> log[k] != Begin(r, step)
  }

  predicate Evidence(log: seq<Event>, r: Rq, step: Step, status: Status, w: Span) {
    match status
    case NotYet => NeverBegan(log, r, step)
    case Begun => BeganAt(log, r, step, w) && (step != Data ==> forall k :: w.begin < k < |log| ==> log[k] != FlushIssued)
    case Flushing => BeganAt(log, r, step, w) && step != Data && FlushAt(log, w, |log|)
    case Complete => RanOnce(log, r, step, w)
    case Lost => true
  }

  lemma RanOnceStays(log: seq<Event>, e: Event, r: Rq, step: Step, w: Span)
    requires RanOnce(log, r, step, w) && e != Begin(r, step)
    ensures RanOnce(log + [e], r, step, w)
  {
    var l := log + [e];
    assert forall k :: 0 <= k < |log| ==> l[k] == log[k];
  }

  /** How one event may change the status of a step. */
  predicate NextStatus(a: Status, b: Status, e: Event, r: Rq, step: Step) {
    b.Lost? ||
    match a
    case NotYet => if e == Begin(r, step) then b == Begun else b == NotYet
    case Begun =>
      && e != Begin(r, step)
      && (if step == Data then b == if e == DataDone(r, false) then Complete else Begun
          else b == if e == FlushIssued then Flushing else Begun)
    case Flushing =>
      && e != Begin(r, step) && step != Data
      && (if e == FlushDone(false) then b == Complete else b == Flushing && !e.FlushDone?)
    case Complete => e != Begin(r, step) && b == Complete
    case Lost => false
  }

  lemma StatusMoves(o: Monitor, e: Event, r: Rq, step: Step)
    requires Coherent(o) && !Watch(o, e, r).Broken?
    ensures NextStatus(StatusOf(o, step), StatusOf(Watch(o, e, r), step), e, r, step)
  {
  }

  /** Seeing one more event, the evidence for one step grows with its status. */
  lemma EvidenceGrows(log: seq<Event>, e: Event, r: Rq, step: Step, a: Status, b: Status, w: Span) returns (v: Span)
    requires NextStatus(a, b, e, r, step) && Evidence(log, r, step, a, w)
    ensures Evidence(log + [e], r, step, b, v)
    ensures v.begin == if a.NotYet? then |log| else w.begin
    ensures v.end == if a.Complete? then w.end else |log|
  {
    var l := log + [e];
    assert forall k :: 0 <= k < |log| ==> l[k] == log[k];
    match a
    case NotYet => v := Span(|log|, 0, |log|);
    case Begun => v := Span(w.begin, |log|, |log|);
    case Complete =>
      v := w;
      if b.Complete? { RanOnceStays(log, e, r, step, w); }
    case Flushing => v := w.(end := |log|);
    case Lost => v := w.(end := |log|);
  }

  /** The spans of the three steps of one request. */
  datatype Witness = Witness(pre: Span, data: Span, post: Span)

  predicate Started(status: Status) {
    status.Begun? || status.Flushing? || status.Complete?
  }

  /** The steps of the policy seen so far are in the order PREFLUSH, DATA, POSTFLUSH. */
  predicate InOrder(o: Monitor, w: Witness) {
    && (StatusOf(o, PreFlush).Complete? && Started(StatusOf(o, Data)) ==> w.pre.end < w.data.begin)
    && (StatusOf(o, Data).Complete? && Started(StatusOf(o, PostFlush)) ==> w.data.end < w.post.begin)
    && (o.Active? && Started(StatusOf(o, Data)) && PreFlush in o.policy ==> StatusOf(o, PreFlush).Complete?)
    && (o.Active? && Started(StatusOf(o, PostFlush)) && Data in o.policy ==> StatusOf(o, Data).Complete?)
  }

  lemma {:induction false} History(log: seq<Event>, r: Rq) returns (w: Witness)
    requires SensibleLog(log) && !Observe(log, r).Broken?
    ensures Evidence(log, r, PreFlush, StatusOf(Observe(log, r), PreFlush), w.pre)
    ensures Evidence(log, r, Data, StatusOf(Observe(log, r), Data), w.data)
    ensures Evidence(log, r, PostFlush, StatusOf(Observe(log, r), PostFlush), w.post)
    ensures InOrder(Observe(log, r), w)
  {
    if log == [] {
      w := Witness(Span(0, 0, 0), Span(0, 0, 0), Span(0, 0, 0));
    } else {
      var n := |log| - 1;
      var e := log[n];
      assert log[..n] + [e] == log;
      assert forall i :: 0 <= i < n ==> log[..n][i] == log[i];
      var v := History(log[..n], r);
      w := OneMore(log[..n], e, r, v);
    }
  }

  lemma OneMore(log: seq<Event>, e: Event, r: Rq, v: Witness) returns (w: Witness)
    requires SensibleLog(log) && !Observe(log + [e], r).Broken?
    requires Evidence(log, r, PreFlush, StatusOf(Observe(log, r), PreFlush), v.pre)
    requires Evidence(log, r, Data, StatusOf(Observe(log, r), Data), v.data)
    requires Evidence(log, r, PostFlush, StatusOf(Observe(log, r), PostFlush), v.post)
    requires InOrder(Observe(log, r), v)
    ensures Evidence(log + [e], r, PreFlush, StatusOf(Observe(log + [e], r), PreFlush), w.pre)
    ensures Evidence(log + [e], r, Data, StatusOf(Observe(log + [e], r), Data), w.data)
    ensures Evidence(log + [e], r, PostFlush, StatusOf(Observe(log + [e], r), PostFlush), w.post)
    ensures InOrder(Observe(log + [e], r), w)
  {
    var o, o' := Observe(log, r), Observe(log + [e], r);
    Append(log, e, r);
    ObserverCoherent(log, r);
    StatusMoves(o, e, r, PreFlush);
    StatusMoves(o, e, r, Data);
    StatusMoves(o, e, r, PostFlush);
    var pre := EvidenceGrows(log, e, r, PreFlush, StatusOf(o, PreFlush), StatusOf(o', PreFlush), v.pre);
    var data := EvidenceGrows(log, e, r, Data, StatusOf(o, Data), StatusOf(o', Data), v.data);
    var post := EvidenceGrows(log, e, r, PostFlush, StatusOf(o, PostFlush), StatusOf(o', PostFlush), v.post);
    w := Witness(pre, data, post);
    OrderMoves(o, e, r, log, v, w);
  }

  lemma OrderMoves(o: Monitor, e: Event, r: Rq, log: seq<Event>, v: Witness, w: Witness)
    requires Coherent(o) && InOrder(o, v) && !Watch(o, e, r).Broken?
    requires w.pre.end == if StatusOf(o, PreFlush).Complete? then v.pre.end else |log|
    requires w.data.begin == if StatusOf(o, Data).NotYet? then |log| else v.data.begin
    requires w.data.end == if StatusOf(o, Data).Complete? then v.data.end else |log|
    requires w.post.begin == if StatusOf(o, PostFlush).NotYet? then |log| else v.post.begin
    requires StatusOf(o, PreFlush).Complete? ==> v.pre.end < |log|
    requires StatusOf(o, Data).Complete? ==> v.data.end < |log|
    ensures InOrder(Watch(o, e, r), w)
  {
  }

  lemma {:induction false} BrokenStays(log: seq<Event>, k: nat, r: Rq)
    requires k <= |log| && Observe(log[..k], r).Broken?
    ensures Observe(log, r).Broken?
    decreases |log| - k
  {
    if k < |log| {
      assert log[..k + 1] == log[..k] + [log[k]];
      Append(log[..k], log[k], r);
      BrokenStays(log, k + 1, r);
    } else {
      assert log[..k] == log;
    }
  }

  lemma {:induction false} PolicyIsTheInsertedOne(log: seq<Event>, r: Rq)
    requires Observe(log, r).Active?
    ensures Inserted(r, Observe(log, r).policy) in log
    ensures Observe(log, r).phase == Failing ==> FlushDone(true) in log || DataDone(r, true) in log
  {
    var n := |log| - 1;
    if Observe(log[..n], r).Active? {
      PolicyIsTheInsertedOne(log[..n], r);
    }
    assert log[n] in log && forall e :: e in log[..n] ==> e in log;
  }

  /** All steps of the policy ran once, in order, each flush step by a flush issued after the request was
      queued for it; steps outside the policy never ran. */
  predicate Durable(log: seq<Event>, r: Rq, p: set<Step>, w: Witness) {
    && (if PreFlush in p then RanOnce(log, r, PreFlush, w.pre) else NeverBegan(log, r, PreFlush))
    && (if Data in p then RanOnce(log, r, Data, w.data) else NeverBegan(log, r, Data))
    && (if PostFlush in p then RanOnce(log, r, PostFlush, w.post) else NeverBegan(log, r, PostFlush))
    && (PreFlush in p && Data in p ==> w.pre.end < w.data.begin)
    && (Data in p && PostFlush in p ==> w.data.end < w.post.begin)
  }

  /** Durability: in every run, whenever a request is ended without error, its whole policy was carried out
      before that.  In particular the data of a FUA request on a device without FUA is covered by a
      flush issued after the data completed (w.data.end < w.post.begin < w.post.issue). */
  lemma DurableInEveryRun(ops: seq<Op>, timeout: nat, r: Rq, at: nat) returns (p: set<Step>, w: Witness)
    requires var log := Run(ops, timeout).log; at < |log| && log[at] == Ended(r, false)
    ensures var log := Run(ops, timeout).log;
      Inserted(r, p) in log[..at] && Durable(log[..at], r, p, w)
  {
    var log := Run(ops, timeout).log;
    EndedIsDone(Run(ops, timeout), r, at);
    assert SensibleLog(log[..at]) by { assert forall i :: 0 <= i < at ==> log[..at][i] == log[i]; }
    w := History(log[..at], r);
    p := Observe(log[..at], r).policy;
    PolicyIsTheInsertedOne(log[..at], r);
  }

  lemma EndedIsDone(s: State, r: Rq, at: nat)
    requires Inv(s) && at < |s.log| && s.log[at] == Ended(r, false)
    ensures var o := Observe(s.log[..at], r); o.Active? && o.phase == Between && CurSeq(o.done) == Done
  {
    NoneBroken(s, at + 1, r);
    assert s.log[..at + 1] == s.log[..at] + [s.log[at]];
    Append(s.log[..at], s.log[at], r);
  }

  lemma NoneBroken(s: State, k: nat, r: Rq)
    requires Inv(s) && k <= |s.log|
    ensures !Observe(s.log[..k], r).Broken?
  {
    assert StageOf(Observe(s.log, r)) == Expected(s, NO_LOOP, false, r);
    if Observe(s.log[..k], r).Broken? {
      BrokenStays(s.log, k, r);
    }
  }

  /** A request is ended with an error only after a flush or its own data failed. */
  lemma ErrorsHaveACause(ops: seq<Op>, timeout: nat, r: Rq, at: nat)
    requires var log := Run(ops, timeout).log; at < |log| && log[at] == Ended(r, true)
    ensures var log := Run(ops, timeout).log; FlushDone(true) in log[..at] || DataDone(r, true) in log[..at]
  {
    ErrorIsFailing(Run(ops, timeout), r, at);
    PolicyIsTheInsertedOne(Run(ops, timeout).log[..at], r);
  }

  lemma ErrorIsFailing(s: State, r: Rq, at: nat)
    requires Inv(s) && at < |s.log| && s.log[at] == Ended(r, true)
    ensures var o := Observe(s.log[..at], r); o.Active? && o.phase == Failing
  {
    NoneBroken(s, at + 1, r);
    assert s.log[..at + 1] == s.log[..at] + [s.log[at]];
    Append(s.log[..at], s.log[at], r);
  }

  // ---------------------------------------------------------------- bounded waiting

  /** The flush completions at positions i to j - 1 of a log. */
  function Dones(log: seq<Event>, i: nat, j: nat): nat
    requires i <= j <= |log|
    decreases j
  {
    if i == j then 0 else Dones(log, i, j - 1) + if log[j - 1].FlushDone? then 1 else 0
  }

  /** Queued for a flush, and not served yet. */
  predicate Awaits(o: Monitor) {
    o.Active? && (o.phase == Waiting || o.phase == Covered)
  }

  lemma {:induction false} NoOverlapBefore(log: seq<Event>, k: nat)
    requires k <= |log| && FlightOf(log) != Overlap
    ensures FlightOf(log[..k]) != Overlap
  {
    if k < |log| {
      NoOverlapBefore(log[..|log| - 1], k);
      assert log[..|log| - 1][..k] == log[..k];
    } else {
      assert log[..k] == log;
    }
  }

  /** With `d` flushes completed since it was queued: covered only by a flush that is out, and if one is out
      that does not cover it, none has completed yet. */
  predicate Pace(o: Monitor, f: Flight, d: nat) {
    Awaits(o) && CurSeq(o.done).At? && d <= 1 && (o.phase == Covered ==> f == Busy) && (o.phase == Waiting && f == Busy ==> d == 0)
  }

  lemma PaceStep(log: seq<Event>, e: Event, r: Rq, d: nat)
    requires Pace(Observe(log, r), FlightOf(log), d) && Awaits(Observe(log + [e], r)) && FlightOf(log + [e]) != Overlap
    ensures Pace(Observe(log + [e], r), FlightOf(log + [e]), d + if e.FlushDone? then 1 else 0)
  {
    Append(log, e, r);
  }

  lemma TakeNext(log: seq<Event>, j: nat)
    requires j < |log|
    ensures log[..j + 1] == log[..j] + [log[j]]
  {
  }

  /** While a request awaits its flush, at most one completes: the one that was out when it was queued. */
  lemma {:induction false} AwaitsOne(log: seq<Event>, r: Rq, i: nat, j: nat)
    requires i < j <= |log| && log[i].Queued? && log[i].rq == r && FlightOf(log) != Overlap
    requires forall k :: i < k <= j ==> Awaits(Observe(log[..k], r))
    ensures Pace(Observe(log[..j], r), FlightOf(log[..j]), Dones(log, i + 1, j))
  {
    TakeNext(log, j - 1);
    NoOverlapBefore(log, j);
    if j > i + 1 {
      AwaitsOne(log, r, i, j - 1);
      PaceStep(log[..j - 1], log[j - 1], r, Dones(log, i + 1, j - 1));
    } else {
      Append(log[..i], log[i], r);
    }
  }

  /** The first position after which `r` no longer awaits. */
  lemma {:induction false} FirstServed(log: seq<Event>, r: Rq, i: nat, j: nat) returns (k: nat)
    requires i < j <= |log| && Awaits(Observe(log[..i + 1], r)) && exists m :: i < m <= j && !Awaits(Observe(log[..m], r))
    ensures i + 1 < k <= j && !Awaits(Observe(log[..k], r)) && forall m :: i < m < k ==> Awaits(Observe(log[..m], r))
  {
    if exists m :: i < m <= j - 1 && !Awaits(Observe(log[..m], r)) {
      k := FirstServed(log, r, i, j - 1);
    } else {
      k := j;
    }
  }

  /** In every run a step queued for a flush is served by the second flush completion after that at the latest,
      and by nothing but a flush completion. */
  lemma ServedByTheSecond(ops: seq<Op>, timeout: nat, r: Rq, i: nat, j: nat) returns (k: nat)
    requires var log := Run(ops, timeout).log;
      i < j <= |log| && log[i].Queued? && log[i].rq == r && Dones(log, i + 1, j) >= 2
    ensures var log := Run(ops, timeout).log;
      && i + 1 < k <= j && log[k - 1].FlushDone? && Dones(log, i + 1, k) <= 2
      && !Awaits(Observe(log[..k], r)) && forall m :: i < m < k ==> Awaits(Observe(log[..m], r))
  {
    var s := Run(ops, timeout);
    QueuedAwaits(s, r, i);
    k := FirstInTime(s.log, r, i, j);
    LeavesByFlush(s, r, k);
  }

  /** The same on a log, without the last step. */
  lemma FirstInTime(log: seq<Event>, r: Rq, i: nat, j: nat) returns (k: nat)
    requires i < j <= |log| && log[i].Queued? && log[i].rq == r && Dones(log, i + 1, j) >= 2
    requires FlightOf(log) != Overlap && Awaits(Observe(log[..i + 1], r))
    ensures i + 1 < k <= j && !Awaits(Observe(log[..k], r)) && forall m :: i < m < k ==> Awaits(Observe(log[..m], r))
    ensures Dones(log, i + 1, k - 1) <= 1
  {
    if forall m :: i < m <= j ==> Awaits(Observe(log[..m], r)) {
      AwaitsOne(log, r, i, j);
    }
    k := FirstServed(log, r, i, j);
    AwaitsOne(log, r, i, k - 1);
  }

  lemma QueuedAwaits(s: State, r: Rq, i: nat)
    requires Inv(s) && i < |s.log| && s.log[i].Queued? && s.log[i].rq == r
    ensures Awaits(Observe(s.log[..i + 1], r))
  {
    NoneBroken(s, i + 1, r);
    assert s.log[..i + 1] == s.log[..i] + [s.log[i]];
    Append(s.log[..i], s.log[i], r);
  }

  lemma LeavesByFlush(s: State, r: Rq, k: nat)
    requires Inv(s) && 0 < k <= |s.log| && Awaits(Observe(s.log[..k - 1], r)) && !Awaits(Observe(s.log[..k], r))
    ensures s.log[k - 1].FlushDone?
  {
    NoneBroken(s, k, r);
    assert s.log[..k] == s.log[..k - 1] + [s.log[k - 1]];
    Append(s.log[..k - 1], s.log[k - 1], r);
  }

  // ---------------------------------------------------------------- what the flags of a request promise

  /** The arrivals in a log, in order. */
  function Arrivals(log: seq<Event>): seq<Event> {
    if log == [] then []
    else
      var (front, e) := (log[..|log| - 1], log[|log| - 1]);
      if e.Inserted? then Arrivals(front) + [e] else Arrivals(front)
  }

  lemma ArrivalsAppend(log: seq<Event>, e: Event)
    ensures Arrivals(log + [e]) == if e.Inserted? then Arrivals(log) + [e] else Arrivals(log)
  {
    assert (log + [e])[..|log|] == log;
  }

  lemma {:induction false} ArrivalIn(log: seq<Event>, e: Event)
    requires e in log && e.Inserted?
    ensures e in Arrivals(log)
  {
    if e != log[|log| - 1] {
      ArrivalIn(log[..|log| - 1], e);
    }
  }

  lemma CompleteArrivals(s: State, r: Rq, steps: set<Step>, failed: bool, now: int, timeout: nat)
    requires Shape(s) && r in s.done
    ensures Arrivals(CompleteSeq(s, r, steps, failed, now, timeout).log) == Arrivals(s.log)
  {
    var u := Recorded(s, r, steps);
    ArrivalsAppend(s.log, AdvanceEvent(u, r, failed));
    ArrivalsAppend(Advance(u, r, failed, now).log, FlushIssued);
  }

  lemma {:induction false} DrainArrivals(s: State, rest: seq<Rq>, failed: bool, clock: nat -> int, k: nat, timeout: nat)
    requires Shape(s) && forall r :: r in rest ==> r in s.done
    ensures Arrivals(Drain(s, rest, failed, clock, k, timeout).log) == Arrivals(s.log)
    decreases |rest|
  {
    if rest != [] {
      CompleteArrivals(s, rest[0], Served(s.done[rest[0]]), failed, clock(k), timeout);
      DrainArrivals(CompleteSeq(s, rest[0], Served(s.done[rest[0]]), failed, clock(k), timeout),
                    rest[1..], failed, clock, k + 1, timeout);
    }
  }

  lemma InsertArrivals(s: State, r: Rq, q: QueueFlags, f: RequestFlags, now: int, timeout: nat)
    requires Shape(s)
    ensures Arrivals(InsertFlush(s, r, q, f, now, timeout).log) == Arrivals(s.log) + [Inserted(r, FlushPolicy(q, f))]
  {
    var p := FlushPolicy(q, f);
    var u := Arrived(s, r, p);
    ArrivalsAppend(s.log, Inserted(r, p));
    ArrivalsAppend(u.log, Ended(r, false));
    ArrivalsAppend(u.log, Bypassed(r));
    CompleteArrivals(u, r, ACTIONS - p, false, now, timeout);
  }

  predicate Submits(op: Op, r: Rq, p: set<Step>) {
    op.Submit? && op.rq == r && FlushPolicy(op.q, op.f) == p
  }

  lemma ApplyArrivals(s: State, op: Op, timeout: nat, r: Rq, p: set<Step>)
    requires Inv(s) && Inserted(r, p) in Arrivals(Apply(s, op, timeout).log)
    ensures Inserted(r, p) in Arrivals(s.log) || Submits(op, r, p)
  {
    if Enabled(s.log, op) {
      EnabledMeans(s, op);
      match op
      case Submit(x, q, f, now) => InsertArrivals(s, x, q, f, now, timeout);
      case DataCompletes(x, failed, now) =>
        ArrivalsAppend(s.log, DataDone(x, failed));
        CompleteArrivals(Logged(s, DataDone(x, failed)), x, {Data}, failed, now, timeout);
      case FlushCompletes(failed, clock) =>
        ArrivalsAppend(s.log, FlushDone(failed));
        DrainArrivals(FlushAccounted(s, failed), s.queue[s.running], failed, clock, 0, timeout);
    }
  }

  /** A request arrives with the policy of the flags it was submitted with. */
  lemma {:induction false} ArrivesAsSubmitted(ops: seq<Op>, timeout: nat, r: Rq, p: set<Step>) returns (i: nat)
    requires Inserted(r, p) in Arrivals(Run(ops, timeout).log)
    ensures i < |ops| && Submits(ops[i], r, p)
  {
    var n := |ops| - 1;
    if Inserted(r, p) in Arrivals(Run(ops[..n], timeout).log) {
      i := ArrivesAsSubmitted(ops[..n], timeout, r, p);
    } else {
      ApplyArrivals(Run(ops[..n], timeout), ops[n], timeout, r, p);
      i := n;
    }
  }

  /** Every submission of `r` carries these flags. */
  predicate SubmittedWith(ops: seq<Op>, r: Rq, q: QueueFlags, f: RequestFlags) {
    forall i :: 0 <= i < |ops| && ops[i].Submit? && ops[i].rq == r ==> ops[i].q == q && ops[i].f == f
  }

  /** Said of the flags alone.  On a device with a volatile cache, a request ended without error had, if it
      asked for PREFLUSH, a whole flush before its data went out; and, if it asked for FUA and the device
      cannot do that, a flush issued after its data was written. */
  lemma FlagsAreHonoured(ops: seq<Op>, timeout: nat, r: Rq, q: QueueFlags, f: RequestFlags, at: nat) returns (w: Witness)
    requires SubmittedWith(ops, r, q, f)
    requires var log := Run(ops, timeout).log; at < |log| && log[at] == Ended(r, false)
    ensures var log := Run(ops, timeout).log[..at];
      && (f.sectors != 0 ==> RanOnce(log, r, Data, w.data))
      && (q.writeCache && f.preflush ==>
            RanOnce(log, r, PreFlush, w.pre) && (f.sectors != 0 ==> w.pre.end < w.data.begin))
      && (q.writeCache && f.fua && !q.fua && f.sectors != 0 ==>
            RanOnce(log, r, PostFlush, w.post) && w.data.end < w.post.begin < w.post.issue < w.post.end)
      && (!q.writeCache ==> NeverBegan(log, r, PreFlush) && NeverBegan(log, r, PostFlush))
  {
    var log := Run(ops, timeout).log;
    var p;
    p, w := DurableInEveryRun(ops, timeout, r, at);
    assert Inserted(r, p) in log;
    ArrivalIn(log, Inserted(r, p));
    var i := ArrivesAsSubmitted(ops, timeout, r, p);
  }

  // ---------------------------------------------------------------- nothing but what the flags call for

  /** The steps the flags call for, one by one. */
  predicate WantsPreFlush(q: QueueFlags, f: RequestFlags) { q.writeCache && f.preflush }

  predicate WantsPostFlush(q: QueueFlags, f: RequestFlags) { q.writeCache && f.fua && !q.fua }

  predicate Submitted(ops: seq<Op>, r: Rq) {
    exists i :: 0 <= i < |ops| && ops[i].Submit? && ops[i].rq == r
  }

  lemma {:induction false} SeenWasInserted(log: seq<Event>, r: Rq) returns (p: set<Step>)
    requires !Observe(log, r).Unknown? && !Observe(log, r).Broken?
    ensures Inserted(r, p) in log
  {
    var n := |log| - 1;
    if Observe(log[..n], r).Unknown? {
      p := log[n].policy;
    } else {
      assert log[..n] + [log[n]] == log;
      p := SeenWasInserted(log[..n], r);
    }
  }

  /** What the observer accepts at position `k` is a step of a policy that arrived before. */
  lemma StepOfPolicy(s: State, r: Rq, k: nat) returns (p: set<Step>)
    requires Inv(s) && k < |s.log|
    requires s.log[k] == Bypassed(r) || exists step :: s.log[k] == Begin(r, step)
    ensures Inserted(r, p) in s.log
    ensures s.log[k] == Bypassed(r) ==> p == {Data}
    ensures forall step :: s.log[k] == Begin(r, step) ==> step in p
  {
    NoneBroken(s, k + 1, r);
    assert s.log[..k + 1] == s.log[..k] + [s.log[k]];
    Append(s.log[..k], s.log[k], r);
    assert SensibleLog(s.log[..k]) by { assert forall i :: 0 <= i < k ==> s.log[..k][i] == s.log[i]; }
    ObserverCoherent(s.log[..k], r);
    PolicyIsTheInsertedOne(s.log[..k], r);
    p := Observe(s.log[..k], r).policy;
  }

  lemma PolicyOfFlags(ops: seq<Op>, timeout: nat, r: Rq, q: QueueFlags, f: RequestFlags, p: set<Step>)
    requires SubmittedWith(ops, r, q, f) && Inserted(r, p) in Run(ops, timeout).log
    ensures Submitted(ops, r) && (Data in p <==> f.sectors != 0)
    ensures (PreFlush in p <==> WantsPreFlush(q, f)) && (PostFlush in p <==> WantsPostFlush(q, f))
  {
    ArrivalIn(Run(ops, timeout).log, Inserted(r, p));
    var i := ArrivesAsSubmitted(ops, timeout, r, p);
  }

  /** An arrival that needs no flush is settled at once. */
  predicate Settled(log: seq<Event>, r: Rq, p: set<Step>) {
    (p == {Data} ==> Bypassed(r) in log) && (p == {} ==> Ended(r, false) in log)
  }

  lemma CompleteLogs(s: State, r: Rq, steps: set<Step>, failed: bool, now: int, timeout: nat)
    requires Shape(s) && r in s.done
    ensures s.log <= CompleteSeq(s, r, steps, failed, now, timeout).log
  {
  }

  lemma {:induction false} DrainLogs(s: State, rest: seq<Rq>, failed: bool, clock: nat -> int, k: nat, timeout: nat)
    requires Shape(s) && forall r :: r in rest ==> r in s.done
    ensures s.log <= Drain(s, rest, failed, clock, k, timeout).log
    decreases |rest|
  {
    if rest != [] {
      CompleteLogs(s, rest[0], Served(s.done[rest[0]]), failed, clock(k), timeout);
      DrainLogs(CompleteSeq(s, rest[0], Served(s.done[rest[0]]), failed, clock(k), timeout),
                rest[1..], failed, clock, k + 1, timeout);
    }
  }

  lemma InsertLogs(s: State, r: Rq, q: QueueFlags, f: RequestFlags, now: int, timeout: nat)
    requires Shape(s)
    ensures s.log <= InsertFlush(s, r, q, f, now, timeout).log
    ensures Settled(InsertFlush(s, r, q, f, now, timeout).log, r, FlushPolicy(q, f))
    ensures Inserted(r, FlushPolicy(q, f)) in InsertFlush(s, r, q, f, now, timeout).log
  {
    var p := FlushPolicy(q, f);
    var u := Arrived(s, r, p);
    assert u.log[|s.log|] == Inserted(r, p);
    CompleteLogs(u, r, ACTIONS - p, false, now, timeout);
  }

  lemma DataLogs(s: State, r: Rq, failed: bool, now: int, timeout: nat)
    requires Shape(s) && r in s.done
    ensures s.log <= DataEndIo(s, r, failed, now, timeout).log
  {
    CompleteLogs(Logged(s, DataDone(r, failed)), r, {Data}, failed, now, timeout);
  }

  lemma FlushLogs(s: State, failed: bool, clock: nat -> int, timeout: nat)
    requires Shape(s) && forall r :: r in s.queue[s.running] ==> r in s.done
    ensures s.log <= FlushEndIo(s, failed, clock, timeout).log
  {
    DrainLogs(FlushAccounted(s, failed), s.queue[s.running], failed, clock, 0, timeout);
  }

  lemma ApplyLogs(s: State, op: Op, timeout: nat)
    requires Inv(s)
    ensures s.log <= Apply(s, op, timeout).log
  {
    if Enabled(s.log, op) {
      EnabledMeans(s, op);
      match op
      case Submit(x, q, f, now) => InsertLogs(s, x, q, f, now, timeout);
      case DataCompletes(x, failed, now) => DataLogs(s, x, failed, now, timeout);
      case FlushCompletes(failed, clock) => FlushLogs(s, failed, clock, timeout);
    }
  }

  lemma SubmitLogs(s: State, op: Op, timeout: nat) returns (p: set<Step>)
    requires Inv(s) && op.Submit? && Sensible(op.f)
    ensures Inserted(op.rq, p) in Apply(s, op, timeout).log
  {
    if Observe(s.log, op.rq).Unknown? {
      InsertLogs(s, op.rq, op.q, op.f, op.now, timeout);
      p := FlushPolicy(op.q, op.f);
    } else {
      NoneBroken(s, |s.log|, op.rq);
      assert s.log[..|s.log|] == s.log;
      p := SeenWasInserted(s.log, op.rq);
    }
  }

  lemma InPrefix<T>(a: seq<T>, b: seq<T>, e: T)
    requires a <= b && e in a
    ensures e in b
  {
  }

  /** A submission that makes sense is taken in. */
  lemma {:induction false} SubmittedArrives(ops: seq<Op>, timeout: nat, r: Rq) returns (p: set<Step>)
    requires Submitted(ops, r) && forall i :: 0 <= i < |ops| && ops[i].Submit? && ops[i].rq == r ==> Sensible(ops[i].f)
    ensures Inserted(r, p) in Run(ops, timeout).log
  {
    var n := |ops| - 1;
    if ops[n].Submit? && ops[n].rq == r {
      p := SubmitLogs(Run(ops[..n], timeout), ops[n], timeout);
    } else {
      p := SubmittedArrives(ops[..n], timeout, r);
      ApplyLogs(Run(ops[..n], timeout), ops[n], timeout);
      InPrefix(Run(ops[..n], timeout).log, Run(ops, timeout).log, Inserted(r, p));
    }
  }

  lemma {:induction false} ArrivalsSettle(ops: seq<Op>, timeout: nat, r: Rq, p: set<Step>)
    requires Inserted(r, p) in Arrivals(Run(ops, timeout).log)
    ensures Settled(Run(ops, timeout).log, r, p)
  {
    var n := |ops| - 1;
    var s := Run(ops[..n], timeout);
    ApplyLogs(s, ops[n], timeout);
    if Inserted(r, p) in Arrivals(s.log) {
      ArrivalsSettle(ops[..n], timeout, r, p);
    } else {
      ApplyArrivals(s, ops[n], timeout, r, p);
      InsertLogs(s, r, ops[n].q, ops[n].f, ops[n].now, timeout);
    }
  }

  /** In every run, said of the flags and the log alone: a request is queued for a flush before or after its data
      only if its flags and the cache call for that one, and its data is issued only if it has any. */
  lemma OnlyWhatIsCalledFor(ops: seq<Op>, timeout: nat, r: Rq, q: QueueFlags, f: RequestFlags)
    requires SubmittedWith(ops, r, q, f)
    ensures var log := Run(ops, timeout).log;
      && (Queued(r, PreFlush) in log ==> q.writeCache && f.preflush)
      && (Queued(r, PostFlush) in log ==> q.writeCache && f.fua && !q.fua)
      && (DataIssued(r) in log ==> f.sectors != 0)
  {
    StepCalledFor(ops, timeout, r, q, f, PreFlush);
    StepCalledFor(ops, timeout, r, q, f, Data);
    StepCalledFor(ops, timeout, r, q, f, PostFlush);
  }

  lemma StepCalledFor(ops: seq<Op>, timeout: nat, r: Rq, q: QueueFlags, f: RequestFlags, step: Step)
    requires SubmittedWith(ops, r, q, f)
    ensures Begin(r, step) in Run(ops, timeout).log ==>
      match step case PreFlush => WantsPreFlush(q, f) case Data => f.sectors != 0 case PostFlush => WantsPostFlush(q, f)
  {
    var log := Run(ops, timeout).log;
    if Begin(r, step) in log {
      var k :| 0 <= k < |log| && log[k] == Begin(r, step);
      var p := StepOfPolicy(Run(ops, timeout), r, k);
      PolicyOfFlags(ops, timeout, r, q, f, p);
    }
  }

  lemma BypassCalledFor(ops: seq<Op>, timeout: nat, r: Rq, q: QueueFlags, f: RequestFlags)
    requires SubmittedWith(ops, r, q, f) && Bypassed(r) in Run(ops, timeout).log
    ensures Submitted(ops, r) && f.sectors != 0 && !WantsPreFlush(q, f) && !WantsPostFlush(q, f)
  {
    var log := Run(ops, timeout).log;
    var k :| 0 <= k < |log| && log[k] == Bypassed(r);
    var p := StepOfPolicy(Run(ops, timeout), r, k);
    PolicyOfFlags(ops, timeout, r, q, f, p);
  }

  lemma PolicyIs(p: set<Step>, data: bool)
    requires PreFlush !in p && PostFlush !in p && (Data in p <==> data)
    ensures p == if data then {Data} else {}
  {
    forall step | step in p ensures step == Data {
      assert step.PreFlush? || step.Data? || step.PostFlush?;
    }
    if data {
      assert p == {Data};
    }
  }

  lemma SettledAtOnce(ops: seq<Op>, timeout: nat, r: Rq, q: QueueFlags, f: RequestFlags)
    requires SubmittedWith(ops, r, q, f) && Submitted(ops, r) && Sensible(f) && !WantsPreFlush(q, f) && !WantsPostFlush(q, f)
    ensures Settled(Run(ops, timeout).log, r, if f.sectors != 0 then {Data} else {})
  {
    var p := SubmittedArrives(ops, timeout, r);
    PolicyOfFlags(ops, timeout, r, q, f, p);
    PolicyIs(p, f.sectors != 0);
    ArrivalIn(Run(ops, timeout).log, Inserted(r, p));
    ArrivalsSettle(ops, timeout, r, p);
  }

  /** And it goes to the driver directly exactly when it was submitted with data and no flush is called for;
      without data and without a flush it is ended at once. */
  lemma BypassedExactly(ops: seq<Op>, timeout: nat, r: Rq, q: QueueFlags, f: RequestFlags)
    requires SubmittedWith(ops, r, q, f)
    ensures var log := Run(ops, timeout).log;
      && (Bypassed(r) in log <==>
            Submitted(ops, r) && f.sectors != 0 && !(q.writeCache && f.preflush) && !(q.writeCache && f.fua && !q.fua))
      && (Submitted(ops, r) && f.sectors == 0 && !f.fua && !(q.writeCache && f.preflush) ==> Ended(r, false) in log)
  {
    if Bypassed(r) in Run(ops, timeout).log {
      BypassCalledFor(ops, timeout, r, q, f);
    }
    if Submitted(ops, r) && Sensible(f) && !WantsPreFlush(q, f) && !WantsPostFlush(q, f) {
      SettledAtOnce(ops, timeout, r, q, f);
    }
  }

  // ---------------------------------------------------------------- completions are acted on

  lemma CompleteNext(s: State, r: Rq, steps: set<Step>, failed: bool, now: int, timeout: nat)
    requires Shape(s) && r in s.done
    ensures s.log + [AdvanceEvent(Recorded(s, r, steps), r, failed)] <= CompleteSeq(s, r, steps, failed, now, timeout).log
  {
  }

  /** What follows DATA, given the steps done before. */
  function AfterData(r: Rq, done: set<Step>, failed: bool): Event {
    if failed then Ended(r, true) else if PostFlush in done then Ended(r, false) else Queued(r, PostFlush)
  }

  lemma DataNext(s: State, r: Rq, failed: bool, now: int, timeout: nat)
    requires Shape(s) && r in s.done && PreFlush in s.done[r] && Data !in s.done[r]
    ensures s.log + [DataDone(r, failed), AfterData(r, s.done[r], failed)] <= DataEndIo(s, r, failed, now, timeout).log
  {
    var u := Logged(s, DataDone(r, failed));
    CompleteNext(u, r, {Data}, failed, now, timeout);
    var e := AdvanceEvent(Recorded(u, r, {Data}), r, failed);
    assert e == AfterData(r, s.done[r], failed);
    assert s.log + [DataDone(r, failed), e] == u.log + [e];
  }

  /** In every run, when DATA completes the request moves on at once: it is ended with the error, queued for the flush
      that is still to come, or ended. */
  lemma DataIsActedOn(ops: seq<Op>, timeout: nat, r: Rq, failed: bool, now: int)
    requires Enabled(Run(ops, timeout).log, DataCompletes(r, failed, now))
    ensures Observe(Run(ops, timeout).log, r).Active?
    ensures var (s, o) := (Run(ops, timeout), Observe(Run(ops, timeout).log, r));
      s.log + [DataDone(r, failed), AfterData(r, o.done, failed)] <= Apply(s, DataCompletes(r, failed, now), timeout).log
  {
    var s := Run(ops, timeout);
    EnabledMeans(s, DataCompletes(r, failed, now));
    DataDoneIs(s, r);
    DataNext(s, r, failed, now, timeout);
  }

  lemma DataDoneIs(s: State, r: Rq)
    requires Inv(s) && r in s.dataInFlight
    ensures var o := Observe(s.log, r); r in s.done && o.Active? && o.done == s.done[r] && PreFlush in o.done && Data !in o.done
  {
    StagePlaces(s, r);
    ObserverCoherent(s.log, r);
  }

  // ---------------------------------------------------------------- when the flush is issued

  /** One completed step at time `now`: afterwards, a flush that could go out is held back exactly while DATA is in
      flight and the oldest waiter is younger than the timeout; and the age counts from when the list filled. */
  predicate Timely(s: State, t: State, now: int, timeout: nat)
    requires Shape(s) && Shape(t)
  {
    && (s.pending == s.running && t.pending != t.running ==> t.dataInFlight == [] || now >= t.pendingSince + timeout)
    && (t.pending == t.running && t.queue[t.pending] != [] ==> t.dataInFlight != [] && now < t.pendingSince + timeout)
    && (s.queue[s.pending] != [] ==> t.pendingSince == s.pendingSince)
    && (s.queue[s.pending] == [] && t.queue[s.pending] != [] ==> t.pendingSince == now)
  }

  lemma CompleteTimely(s: State, r: Rq, steps: set<Step>, failed: bool, now: int, timeout: nat)
    requires Shape(s) && r in s.done
    ensures Shape(CompleteSeq(s, r, steps, failed, now, timeout))
    ensures Timely(s, CompleteSeq(s, r, steps, failed, now, timeout), now, timeout)
  {
  }

  /** In every run, of every DATA completion and of every submission that needs a flush. */
  lemma TimelyInEveryRun(ops: seq<Op>, timeout: nat, op: Op)
    requires Enabled(Run(ops, timeout).log, op)
    requires op.DataCompletes? || (op.Submit? && (WantsPreFlush(op.q, op.f) || WantsPostFlush(op.q, op.f)))
    ensures var (s, t) := (Run(ops, timeout), Apply(Run(ops, timeout), op, timeout));
      Shape(s) && Shape(t) && Timely(s, t, op.now, timeout)
  {
    var s := Run(ops, timeout);
    EnabledMeans(s, op);
    match op
    case DataCompletes(r, failed, now) => CompleteTimely(Logged(s, DataDone(r, failed)), r, {Data}, failed, now, timeout);
    case Submit(r, q, f, now) =>
      var p := FlushPolicy(q, f);
      assert p != {} && p != {Data} by { assert PreFlush in p || PostFlush in p; }
      CompleteTimely(Arrived(s, r, p), r, ACTIONS - p, false, now, timeout);
  }

  // ---------------------------------------------------------------- the code

  /** struct blk_flush_queue with the flush.seq fields of the requests it sequences. */
  class FlushQueue {
    const timeout: nat
    var flushQueue: seq<seq<Rq>>
    var pendingIdx: nat
    var runningIdx: nat
    var dataInFlight: seq<Rq>
    var pendingSince: int
    var flushSeq: map<Rq, set<Step>>
    ghost var log: seq<Event>

    ghost function View(): State
      reads this
    {
      State(flushQueue, pendingIdx, runningIdx, dataInFlight, pendingSince, flushSeq, log)
    }

    constructor (timeout: nat)
      ensures View() == INIT && Inv(View()) && this.timeout == timeout
    {
      this.timeout := timeout;
      flushQueue := [[], []];
      pendingIdx, runningIdx := 0, 0;
      dataInFlight := [];
      pendingSince := 0;
      flushSeq := map[];
      log := [];
      new;
      InitInv();
    }

    method KickFlush(now: int) returns (kicked: bool)
      requires Shape(View())
      modifies this
      ensures View() == Kick(old(View()), now, timeout)
      ensures kicked <==> View() != old(View())
    {
      // C1
      if pendingIdx != runningIdx || flushQueue[pendingIdx] == [] {
        return false;
      }
      // C2 and C3
      if dataInFlight != [] && now < pendingSince + timeout {
        return false;
      }
      pendingIdx := 1 - pendingIdx;
      log := log + [FlushIssued];
      return true;
    }

    /** list_del_init, or the first half of list_move_tail, whichever list the request is on. */
    method Unlink(rq: Rq)
      requires Shape(View())
      modifies `flushQueue, `dataInFlight
      ensures flushQueue == [Without(old(flushQueue[0]), rq), Without(old(flushQueue[1]), rq)]
      ensures dataInFlight == Without(old(dataInFlight), rq)
    {
      flushQueue := [Without(flushQueue[0], rq), Without(flushQueue[1], rq)];
      dataInFlight := Without(dataInFlight, rq);
    }

    /** The switch on the next step. */
    method BeginNext(rq: Rq, failed: bool, now: int)
      requires Shape(View()) && rq in flushSeq
      modifies this
      ensures View() == Advance(old(View()), rq, failed, now)
    {
      var wasEmpty := flushQueue[pendingIdx] == [];
      var cur := if failed then Done else CurSeq(flushSeq[rq]);
      Unlink(rq);
      match cur {
        case At(Data) =>
          dataInFlight := dataInFlight + [rq];
          log := log + [DataIssued(rq)];
        case Done =>
          log := log + [Ended(rq, failed)];
        case At(step) =>
          if wasEmpty {
            pendingSince := now;
          }
          flushQueue := flushQueue[pendingIdx := flushQueue[pendingIdx] + [rq]];
          log := log + [Queued(rq, step)];
      }
    }

    method FlushCompleteSeq(rq: Rq, steps: set<Step>, failed: bool, now: int) returns (kicked: bool)
      requires Shape(View()) && rq in flushSeq
      requires flushSeq[rq] !! steps  // BUG_ON(rq->flush.seq & seq)
      modifies this
      ensures View() == CompleteSeq(old(View()), rq, steps, failed, now, timeout)
    {
      flushSeq := flushSeq[rq := flushSeq[rq] + steps];
      BeginNext(rq, failed, now);
      kicked := KickFlush(now);
    }

    method InsertRequest(rq: Rq, q: QueueFlags, f: RequestFlags, now: int)
      requires Inv(View()) && Enabled(log, Submit(rq, q, f, now))
      modifies this
      ensures View() == Apply(old(View()), Submit(rq, q, f, now), timeout)
    {
      EnabledMeans(View(), Submit(rq, q, f, now));
      InsertKeeps(View(), rq, q, f, now, timeout);
      var policy := FlushPolicy(q, f);
      flushSeq := flushSeq[rq := {}];
      log := log + [Inserted(rq, policy)];
      if policy == {} {
        log := log + [Ended(rq, false)];
      } else if policy == {Data} {
        log := log + [Bypassed(rq)];
      } else {
        var _ := FlushCompleteSeq(rq, ACTIONS - policy, false, now);
      }
    }

    method DataEnd(rq: Rq, failed: bool, now: int)
      requires Inv(View()) && Enabled(log, DataCompletes(rq, failed, now))
      modifies this
      ensures View() == Apply(old(View()), DataCompletes(rq, failed, now), timeout)
    {
      EnabledMeans(View(), DataCompletes(rq, failed, now));
      DataKeeps(View(), rq, failed, now, timeout);
      log := log + [DataDone(rq, failed)];
      var _ := FlushCompleteSeq(rq, {Data}, failed, now);
    }

    /** One turn of the loop of flush_end_io. */
    method ServeOne(m: nat, rq: Rq, failed: bool, now: int)
      requires m < 2 && InLoop(View(), m, failed) && flushQueue[m] != [] && rq == flushQueue[m][0]
      modifies this
      ensures rq in old(flushSeq)
      ensures View() == CompleteSeq(old(View()), rq, Served(old(flushSeq)[rq]), failed, now, timeout)
      ensures InLoop(View(), m, failed) && flushQueue[m] == old(flushQueue[m][1..])
    {
      HeadDetached(View(), m, failed);
      var cur := CurSeq(flushSeq[rq]);
      assert NeedsFlush(cur);  // BUG_ON(seq != REQ_FSEQ_PREFLUSH && seq != REQ_FSEQ_POSTFLUSH)
      CompleteKeeps(View(), m, failed, rq, {cur.step}, failed, now, timeout);
      assert Without(flushQueue[m], rq) == flushQueue[m][1..];
      var _ := FlushCompleteSeq(rq, {cur.step}, failed, now);
    }

    /** The walk follows the links as list_for_each_entry_safe does: the next entry is read before the turn,
        which moves the current one away and may issue the next flush. */
    method WalkServed(m: nat, failed: bool, clock: nat -> int)
      requires m < 2 && InLoop(View(), m, failed)
      modifies this
      ensures View() == Drain(old(View()), old(flushQueue[m]), failed, clock, 0, timeout)
    {
      var k := 0;
      var rq := First(flushQueue[m]);
      while rq.Some?
        invariant InLoop(View(), m, failed) && rq == First(flushQueue[m])
        invariant Drain(old(View()), old(flushQueue[m]), failed, clock, 0, timeout)
               == Drain(View(), flushQueue[m], failed, clock, k, timeout)
        decreases |flushQueue[m]|
      {
        var n := First(flushQueue[m][1..]);
        ServeOne(m, rq.rq, failed, clock(k));
        rq := n;
        k := k + 1;
      }
    }

    method FlushEnd(failed: bool, clock: nat -> int)
      requires Inv(View()) && Enabled(log, FlushCompletes(failed, clock))
      modifies this
      ensures View() == Apply(old(View()), FlushCompletes(failed, clock), timeout)
    {
      EnabledMeans(View(), FlushCompletes(failed, clock));
      FlushKeeps(View(), failed, clock, timeout);
      AccountKeeps(View(), failed);
      assert pendingIdx != runningIdx;  // BUG_ON(fq->flush_pending_idx == fq->flush_running_idx)
      var m := runningIdx;
      runningIdx := 1 - runningIdx;
      log := log + [FlushDone(failed)];
      WalkServed(m, failed, clock);
    }
  }

  datatype Link = NoRq | Some(rq: Rq)

  function First(l: seq<Rq>): Link {
    if l == [] then NoRq else Some(l[0])
  }
}
