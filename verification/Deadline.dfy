/** The deadline I/O scheduler of block/deadline-iosched.c.

    Requests are numbers.  Each direction has its requests twice: in sector order (`sort`) and in order
    of arrival (`fifo`).  Time is a natural number that does not wrap.
 */
module Deadline {
  import opened Common

  datatype Dir = Read | Write

  /** One direction: sort_list, fifo_list and next_rq. */
  datatype Side = Side(sort: seq<nat>, fifo: seq<nat>, next: Option<nat>)

  /** `pos` is the first sector of a queued request, `expiry` its fifo_time. */
  datatype State = State(rd: Side, wr: Side, batching: nat, starved: nat, pos: map<nat, nat>, expiry: map<nat, nat>)

  datatype Tunables = Tunables(fifoBatch: nat, writesStarved: nat)

  function SideOf(s: State, d: Dir): Side {
    if d == Read then s.rd else s.wr
  }

  function WithSide(s: State, d: Dir, sd: Side): State {
    if d == Read then s.(rd := sd) else s.(wr := sd)
  }

  // ---------------------------------------------------------------- lists

  function Without(xs: seq<nat>, x: nat): (ys: seq<nat>)
    ensures |ys| <= |xs|
  {
    if xs == [] then [] else if xs[0] == x then Without(xs[1..], x) else [xs[0]] + Without(xs[1..], x)
  }

  lemma {:induction false} WithoutIn(xs: seq<nat>, x: nat, y: nat)
    ensures y in Without(xs, x) <==> y in xs && y != x
  {
    if xs != [] {
      WithoutIn(xs[1..], x, y);
      assert y in xs <==> y == xs[0] || y in xs[1..];
    }
  }

  /** Lists as their members see them: a head before a tail. */
  predicate Distinct(xs: seq<nat>) {
    xs == [] || (xs[0] !in xs[1..] && Distinct(xs[1..]))
  }

  lemma {:induction false} WithoutDistinct(xs: seq<nat>, x: nat)
    requires Distinct(xs)
    ensures Distinct(Without(xs, x))
  {
    if xs != [] {
      WithoutDistinct(xs[1..], x);
      WithoutIn(xs[1..], x, xs[0]);
    }
  }

  lemma {:induction false} WithoutAbsent(xs: seq<nat>, x: nat)
    requires x !in xs
    ensures Without(xs, x) == xs
  {
    if xs != [] {
      WithoutAbsent(xs[1..], x);
    }
  }

  lemma {:induction false} AppendDistinct(xs: seq<nat>, x: nat)
    requires Distinct(xs) && x !in xs
    ensures Distinct(xs + [x])
  {
    if xs != [] {
      AppendDistinct(xs[1..], x);
      assert (xs + [x])[1..] == xs[1..] + [x];
    }
  }

  // ---------------------------------------------------------------- the sort list

  predicate Known(pos: map<nat, nat>, xs: seq<nat>) {
    forall i :: 0 <= i < |xs| ==> xs[i] in pos
  }

  /** No member starts before sector `p`. */
  predicate From(pos: map<nat, nat>, xs: seq<nat>, p: nat)
    requires Known(pos, xs)
  {
    forall i :: 0 <= i < |xs| ==> pos[xs[i]] >= p
  }

  predicate Sorted(pos: map<nat, nat>, xs: seq<nat>)
    requires Known(pos, xs)
  {
    xs == [] || (Known(pos, xs[1..]) && From(pos, xs[1..], pos[xs[0]]) && Sorted(pos, xs[1..]))
  }

  /** elv_rb_add: after every request that starts at or before sector `p`. */
  function Insert(pos: map<nat, nat>, xs: seq<nat>, x: nat, p: nat): (ys: seq<nat>)
    requires Known(pos, xs)
  {
    if xs == [] then [x] else if p < pos[xs[0]] then [x] + xs else [xs[0]] + Insert(pos, xs[1..], x, p)
  }

  lemma {:induction false} InsertIn(pos: map<nat, nat>, xs: seq<nat>, x: nat, p: nat, y: nat)
    requires Known(pos, xs)
    ensures y in Insert(pos, xs, x, p) <==> y == x || y in xs
  {
    if xs != [] && p >= pos[xs[0]] {
      InsertIn(pos, xs[1..], x, p, y);
      assert y in xs <==> y == xs[0] || y in xs[1..];
    }
  }

  lemma {:induction false} InsertDistinct(pos: map<nat, nat>, xs: seq<nat>, x: nat, p: nat)
    requires Known(pos, xs) && Distinct(xs) && x !in xs
    ensures Distinct(Insert(pos, xs, x, p))
  {
    if xs != [] && p >= pos[xs[0]] {
      InsertDistinct(pos, xs[1..], x, p);
      InsertIn(pos, xs[1..], x, p, xs[0]);
    }
  }

  lemma InsertKnown(pos: map<nat, nat>, xs: seq<nat>, x: nat, p: nat)
    requires Known(pos, xs)
    ensures Known(pos[x := p], Insert(pos, xs, x, p))
  {
    var ys := Insert(pos, xs, x, p);
    forall i | 0 <= i < |ys| ensures ys[i] in pos[x := p] {
      InsertIn(pos, xs, x, p, ys[i]);
    }
  }

  lemma InsertFrom(pos: map<nat, nat>, xs: seq<nat>, x: nat, p: nat, lo: nat)
    requires Known(pos, xs) && x !in xs && From(pos, xs, lo) && lo <= p
    ensures Known(pos[x := p], Insert(pos, xs, x, p)) && From(pos[x := p], Insert(pos, xs, x, p), lo)
  {
    InsertKnown(pos, xs, x, p);
    var ys := Insert(pos, xs, x, p);
    forall i | 0 <= i < |ys| ensures pos[x := p][ys[i]] >= lo {
      InsertIn(pos, xs, x, p, ys[i]);
      if ys[i] != x {
        var j :| 0 <= j < |xs| && xs[j] == ys[i];
      }
    }
  }

  /** Sorting looks only at the sectors of the members. */
  lemma {:induction false} SortedFrame(pos: map<nat, nat>, pos': map<nat, nat>, xs: seq<nat>)
    requires Known(pos, xs) && Known(pos', xs) && Sorted(pos, xs)
    requires forall i :: 0 <= i < |xs| ==> pos'[xs[i]] == pos[xs[i]]
    ensures Sorted(pos', xs)
  {
    if xs != [] {
      SortedFrame(pos, pos', xs[1..]);
      forall i | 0 <= i < |xs[1..]| ensures pos'[xs[1..][i]] >= pos'[xs[0]] {
        assert xs[1..][i] == xs[i + 1];
      }
    }
  }

  lemma {:induction false} InsertSorted(pos: map<nat, nat>, xs: seq<nat>, x: nat, p: nat)
    requires Known(pos, xs) && Sorted(pos, xs) && x !in xs
    ensures Known(pos[x := p], Insert(pos, xs, x, p)) && Sorted(pos[x := p], Insert(pos, xs, x, p))
  {
    var pos' := pos[x := p];
    InsertKnown(pos, xs, x, p);
    if xs != [] {
      if p < pos[xs[0]] {
        SortedFrame(pos, pos', xs);
        assert ([x] + xs)[1..] == xs;
        forall i | 0 <= i < |xs| ensures pos'[xs[i]] >= p {
          assert i > 0 ==> xs[i] == xs[1..][i - 1];
        }
      } else {
        InsertSorted(pos, xs[1..], x, p);
        InsertFrom(pos, xs[1..], x, p, pos[xs[0]]);
        assert ([xs[0]] + Insert(pos, xs[1..], x, p))[1..] == Insert(pos, xs[1..], x, p);
      }
    }
  }

  lemma WithoutKnown(pos: map<nat, nat>, xs: seq<nat>, x: nat)
    requires Known(pos, xs)
    ensures Known(pos, Without(xs, x))
  {
    var ys := Without(xs, x);
    forall i | 0 <= i < |ys| ensures ys[i] in pos {
      WithoutIn(xs, x, ys[i]);
    }
  }

  lemma WithoutFrom(pos: map<nat, nat>, xs: seq<nat>, x: nat, lo: nat)
    requires Known(pos, xs) && From(pos, xs, lo)
    ensures Known(pos, Without(xs, x)) && From(pos, Without(xs, x), lo)
  {
    WithoutKnown(pos, xs, x);
    var ys := Without(xs, x);
    forall i | 0 <= i < |ys| ensures pos[ys[i]] >= lo {
      WithoutIn(xs, x, ys[i]);
      var j :| 0 <= j < |xs| && xs[j] == ys[i];
    }
  }

  lemma {:induction false} WithoutSorted(pos: map<nat, nat>, xs: seq<nat>, x: nat)
    requires Known(pos, xs) && Sorted(pos, xs)
    ensures Known(pos, Without(xs, x)) && Sorted(pos, Without(xs, x))
  {
    WithoutKnown(pos, xs, x);
    if xs != [] {
      WithoutSorted(pos, xs[1..], x);
      if xs[0] != x {
        WithoutFrom(pos, xs[1..], x, pos[xs[0]]);
        assert ([xs[0]] + Without(xs[1..], x))[1..] == Without(xs[1..], x);
      }
    }
  }

  /** deadline_latter_request. */
  function Latter(xs: seq<nat>, x: nat): Option<nat> {
    if xs == [] then None else if xs[0] == x then (if |xs| > 1 then Some(xs[1]) else None) else Latter(xs[1..], x)
  }

  lemma {:induction false} LatterIn(xs: seq<nat>, x: nat)
    requires Distinct(xs)
    ensures Latter(xs, x).Some? ==> Latter(xs, x).value in xs && Latter(xs, x).value != x
  {
    if xs != [] && xs[0] != x {
      LatterIn(xs[1..], x);
    } else if |xs| > 1 {
      assert xs[1] == xs[1..][0];
    }
  }

  /** The batch goes on upwards: the latter request starts at or after the given one. */
  lemma {:induction false} LatterAbove(pos: map<nat, nat>, xs: seq<nat>, x: nat)
    requires Known(pos, xs) && Sorted(pos, xs) && x in xs
    ensures Latter(xs, x).Some? ==> Latter(xs, x).value in pos && pos[Latter(xs, x).value] >= pos[x]
  {
    if xs[0] != x {
      LatterAbove(pos, xs[1..], x);
    } else if |xs| > 1 {
      assert xs[1] == xs[1..][0];
    }
  }

  // ---------------------------------------------------------------- the invariant

  /** Sort list and FIFO hold the same requests, each once; next_rq is one of them. */
  ghost predicate SideInv(sd: Side, pos: map<nat, nat>, expiry: map<nat, nat>) {
    && Distinct(sd.sort) && Distinct(sd.fifo)
    && (forall y :: y in sd.sort <==> y in sd.fifo)
    && Known(pos, sd.sort) && Known(expiry, sd.fifo) && Sorted(pos, sd.sort)
    && (sd.next.Some? ==> sd.next.value in sd.sort)
  }

  ghost predicate Inv(s: State) {
    && SideInv(s.rd, s.pos, s.expiry) && SideInv(s.wr, s.pos, s.expiry)
    && (forall y :: y in s.rd.sort ==> y !in s.wr.sort)
    && !(s.rd.next.Some? && s.wr.next.Some?)
    && (s.rd.next.Some? || s.wr.next.Some? ==> s.batching >= 1)
  }

  function Other(d: Dir): Dir {
    if d == Read then Write else Read
  }

  /** A change of one side that keeps it, and takes no request from the other. */
  lemma OneSide(s: State, s': State, d: Dir)
    requires Inv(s) && SideOf(s', Other(d)) == SideOf(s, Other(d)) && s'.batching == s.batching
    requires SideInv(SideOf(s', d), s'.pos, s'.expiry)
    requires forall y :: y in SideOf(s', d).sort ==> y in SideOf(s, d).sort || y !in SideOf(s, Other(d)).sort
    requires SideOf(s', d).next.Some? ==> SideOf(s, d).next.Some?
    requires forall y :: y in SideOf(s, Other(d)).sort ==> y in s'.pos && y in s.pos && s'.pos[y] == s.pos[y]
    requires forall y :: y in SideOf(s, Other(d)).sort ==> y in s'.expiry
    ensures Inv(s')
  {
    var o := SideOf(s, Other(d));
    assert Known(s'.pos, o.sort);
    forall i | 0 <= i < |o.fifo| ensures o.fifo[i] in s'.expiry {
      assert o.fifo[i] in o.sort;
    }
    SortedFrame(s.pos, s'.pos, o.sort);
  }

  // ---------------------------------------------------------------- adding and removing

  function Added(s: State, x: nat, d: Dir, p: nat, expire: nat): State
    requires Inv(s)
  {
    var sd := SideOf(s, d);
    WithSide(s, d, Side(Insert(s.pos, sd.sort, x, p), sd.fifo + [x], sd.next)).(pos := s.pos[x := p], expiry := s.expiry[x := expire])
  }

  predicate Queued(s: State, x: nat) {
    x in s.rd.fifo || x in s.wr.fifo
  }

  lemma AddedSide(sd: Side, pos: map<nat, nat>, expiry: map<nat, nat>, x: nat, p: nat, expire: nat)
    requires SideInv(sd, pos, expiry) && x !in sd.fifo
    ensures SideInv(Side(Insert(pos, sd.sort, x, p), sd.fifo + [x], sd.next), pos[x := p], expiry[x := expire])
  {
    var sort := Insert(pos, sd.sort, x, p);
    InsertSorted(pos, sd.sort, x, p);
    InsertDistinct(pos, sd.sort, x, p);
    AppendDistinct(sd.fifo, x);
    forall y ensures y in sort <==> y in sd.fifo + [x] {
      InsertIn(pos, sd.sort, x, p, y);
    }
  }

  lemma AddedKeeps(s: State, x: nat, d: Dir, p: nat, expire: nat)
    requires Inv(s) && !Queued(s, x)
    ensures Inv(Added(s, x, d, p, expire))
  {
    var sd, s' := SideOf(s, d), Added(s, x, d, p, expire);
    AddedSide(sd, s.pos, s.expiry, x, p, expire);
    forall y | y in SideOf(s', d).sort ensures y in sd.sort || y !in SideOf(s, Other(d)).sort {
      InsertIn(s.pos, sd.sort, x, p, y);
    }
    OneSide(s, s', d);
  }

  function RemovedSide(sd: Side, x: nat): Side {
    Side(Without(sd.sort, x), Without(sd.fifo, x), if sd.next == Some(x) then Latter(sd.sort, x) else sd.next)
  }

  lemma RemovedSideKeeps(sd: Side, pos: map<nat, nat>, expiry: map<nat, nat>, x: nat)
    requires SideInv(sd, pos, expiry)
    ensures SideInv(RemovedSide(sd, x), pos, expiry)
  {
    WithoutSorted(pos, sd.sort, x);
    WithoutKnown(expiry, sd.fifo, x);
    WithoutDistinct(sd.sort, x);
    WithoutDistinct(sd.fifo, x);
    LatterIn(sd.sort, x);
    var r := RemovedSide(sd, x);
    forall y ensures (y in r.sort <==> y in r.fifo) && (y in r.sort <==> y in sd.sort && y != x) {
      WithoutIn(sd.sort, x, y);
      WithoutIn(sd.fifo, x, y);
    }
  }

  /** deadline_remove_request. */
  function Removed(s: State, x: nat, d: Dir): State {
    WithSide(s, d, RemovedSide(SideOf(s, d), x))
  }

  lemma RemovedKeeps(s: State, x: nat, d: Dir)
    requires Inv(s)
    ensures Inv(Removed(s, x, d))
  {
    RemovedSideKeeps(SideOf(s, d), s.pos, s.expiry, x);
    var s' := Removed(s, x, d);
    forall y | y in SideOf(s', d).sort ensures y in SideOf(s, d).sort {
      WithoutIn(SideOf(s, d).sort, x, y);
    }
    KnownOther(s, d);
    OneSide(s, s', d);
  }

  lemma KnownOther(s: State, d: Dir)
    requires Inv(s)
    ensures forall y :: y in SideOf(s, d).sort ==> y in s.pos && y in s.expiry
    ensures forall y :: y in SideOf(s, Other(d)).sort ==> y in s.pos && y in s.expiry
  {
    forall e, y | (e == d || e == Other(d)) && y in SideOf(s, e).sort ensures y in s.pos && y in s.expiry {
      var i :| 0 <= i < |SideOf(s, e).sort| && SideOf(s, e).sort[i] == y;
      var j :| 0 <= j < |SideOf(s, e).fifo| && SideOf(s, e).fifo[j] == y;
    }
  }

  // ---------------------------------------------------------------- merging

  /** deadline_merged_request after a front merge: the request now starts at sector `p`. */
  function FrontMerged(s: State, x: nat, d: Dir, p: nat): State
    requires Inv(s)
  {
    var sd := SideOf(s, d);
    WithoutKnown(s.pos, sd.sort, x);
    WithSide(s, d, sd.(sort := Insert(s.pos, Without(sd.sort, x), x, p))).(pos := s.pos[x := p])
  }

  lemma FrontSide(sd: Side, pos: map<nat, nat>, expiry: map<nat, nat>, x: nat, p: nat)
    requires SideInv(sd, pos, expiry) && x in sd.sort && Known(pos, Without(sd.sort, x))
    ensures SideInv(sd.(sort := Insert(pos, Without(sd.sort, x), x, p)), pos[x := p], expiry)
  {
    var rest := Without(sd.sort, x);
    var sort := Insert(pos, rest, x, p);
    WithoutSorted(pos, sd.sort, x);
    WithoutDistinct(sd.sort, x);
    WithoutIn(sd.sort, x, x);
    InsertSorted(pos, rest, x, p);
    InsertDistinct(pos, rest, x, p);
    forall y ensures y in sort <==> y in sd.sort {
      InsertIn(pos, rest, x, p, y);
      WithoutIn(sd.sort, x, y);
    }
  }

  lemma FrontKeeps(s: State, x: nat, d: Dir, p: nat)
    requires Inv(s) && x in SideOf(s, d).sort
    ensures Inv(FrontMerged(s, x, d, p))
  {
    var sd, s' := SideOf(s, d), FrontMerged(s, x, d, p);
    WithoutKnown(s.pos, sd.sort, x);
    FrontSide(sd, s.pos, s.expiry, x, p);
    KnownOther(s, d);
    assert x in sd.sort && x !in SideOf(s, Other(d)).sort;
    forall y | y in SideOf(s', d).sort ensures y in sd.sort {
      InsertIn(s.pos, Without(sd.sort, x), x, p, y);
      WithoutIn(sd.sort, x, y);
    }
    OneSide(s, s', d);
  }

  /** list_move: `x` goes right after `y`. */
  function After(xs: seq<nat>, y: nat, x: nat): seq<nat> {
    if xs == [] then [] else if xs[0] == y then [y, x] + xs[1..] else [xs[0]] + After(xs[1..], y, x)
  }

  /** `x` in the place of `y`. */
  function Replace(xs: seq<nat>, y: nat, x: nat): (r: seq<nat>)
    ensures |r| == |xs|
  {
    if xs == [] then [] else if xs[0] == y then [x] + xs[1..] else [xs[0]] + Replace(xs[1..], y, x)
  }

  lemma {:induction false} AfterWithout(xs: seq<nat>, y: nat, x: nat)
    requires Distinct(xs) && x != y && x !in xs
    ensures Without(After(xs, y, x), y) == Replace(xs, y, x)
  {
    if xs != [] {
      if xs[0] == y {
        var a := [y, x] + xs[1..];
        assert a[1..] == [x] + xs[1..] && a[1..][1..] == xs[1..];
        WithoutAbsent(xs[1..], y);
      } else {
        AfterWithout(xs[1..], y, x);
        assert ([xs[0]] + After(xs[1..], y, x))[1..] == After(xs[1..], y, x);
      }
    }
  }

  lemma {:induction false} ReplaceIn(xs: seq<nat>, y: nat, x: nat, z: nat)
    requires Distinct(xs) && x !in xs && y in xs
    ensures z in Replace(xs, y, x) <==> z == x || (z in xs && z != y)
  {
    if xs[0] != y {
      ReplaceIn(xs[1..], y, x, z);
    }
    assert z in xs <==> z == xs[0] || z in xs[1..];
  }

  lemma {:induction false} ReplaceDistinct(xs: seq<nat>, y: nat, x: nat)
    requires Distinct(xs) && x !in xs && y in xs
    ensures Distinct(Replace(xs, y, x))
  {
    if xs[0] == y {
      assert ([x] + xs[1..])[1..] == xs[1..];
    } else {
      ReplaceDistinct(xs[1..], y, x);
      ReplaceIn(xs[1..], y, x, xs[0]);
      assert ([xs[0]] + Replace(xs[1..], y, x))[1..] == Replace(xs[1..], y, x);
    }
  }

  lemma ReplaceFrom(expiry: map<nat, nat>, xs: seq<nat>, y: nat, x: nat, lo: nat)
    requires Known(expiry, xs) && Distinct(xs) && x !in xs && y in xs && From(expiry, xs, lo)
    ensures var e := expiry[x := expiry[y]]; Known(e, Replace(xs, y, x)) && From(e, Replace(xs, y, x), lo)
  {
    var e, ys := expiry[x := expiry[y]], Replace(xs, y, x);
    forall i | 0 <= i < |ys| ensures ys[i] in e && e[ys[i]] >= lo {
      ReplaceIn(xs, y, x, ys[i]);
      if ys[i] != x {
        var j :| 0 <= j < |xs| && xs[j] == ys[i];
      } else {
        var j :| 0 <= j < |xs| && xs[j] == y;
      }
    }
  }

  /** Taking the place and the time of another keeps the order of times. */
  lemma {:induction false} ReplaceSorted(expiry: map<nat, nat>, xs: seq<nat>, y: nat, x: nat)
    requires Known(expiry, xs) && Sorted(expiry, xs) && Distinct(xs) && x !in xs && y in xs
    ensures var e := expiry[x := expiry[y]]; Known(e, Replace(xs, y, x)) && Sorted(e, Replace(xs, y, x))
  {
    var e := expiry[x := expiry[y]];
    ReplaceFrom(expiry, xs, y, x, 0);
    if xs[0] == y {
      assert ([x] + xs[1..])[1..] == xs[1..];
      SortedFrame(expiry, e, xs[1..]);
    } else {
      ReplaceSorted(expiry, xs[1..], y, x);
      ReplaceFrom(expiry, xs[1..], y, x, expiry[xs[0]]);
      assert ([xs[0]] + Replace(xs[1..], y, x))[1..] == Replace(xs[1..], y, x);
    }
  }

  /** deadline_merged_requests: `next` has been merged into `req`. */
  function Merged(s: State, req: nat, next: nat, d: Dir): State
    requires Inv(s) && req in s.expiry && next in s.expiry
  {
    var sd := SideOf(s, d);
    if s.expiry[next] < s.expiry[req] then
      var fifo := After(Without(sd.fifo, req), next, req);
      WithSide(s, d, RemovedSide(sd.(fifo := fifo), next)).(expiry := s.expiry[req := s.expiry[next]])
    else WithSide(s, d, RemovedSide(sd, next))
  }

  lemma MovedSide(sd: Side, pos: map<nat, nat>, expiry: map<nat, nat>, req: nat, next: nat)
    requires SideInv(sd, pos, expiry) && req in sd.fifo && next in sd.fifo && req != next
    ensures SideInv(RemovedSide(sd.(fifo := After(Without(sd.fifo, req), next, req)), next), pos, expiry[req := expiry[next]])
  {
    var rest := Without(sd.fifo, req);
    var moved := sd.(fifo := After(rest, next, req));
    WithoutDistinct(sd.fifo, req);
    WithoutIn(sd.fifo, req, req);
    WithoutIn(sd.fifo, req, next);
    WithoutKnown(expiry, sd.fifo, req);
    AfterWithout(rest, next, req);
    ReplaceDistinct(rest, next, req);
    ReplaceFrom(expiry, rest, next, req, 0);
    RemovedSideKeeps(sd, pos, expiry, next);
    var r := RemovedSide(moved, next);
    assert r.sort == RemovedSide(sd, next).sort && r.next == RemovedSide(sd, next).next;
    forall y ensures y in r.sort <==> y in r.fifo {
      ReplaceIn(rest, next, req, y);
      WithoutIn(sd.fifo, req, y);
      WithoutIn(sd.sort, next, y);
    }
  }

  lemma MergedKeeps(s: State, req: nat, next: nat, d: Dir)
    requires Inv(s) && req in SideOf(s, d).fifo && next in SideOf(s, d).fifo && req != next
    requires req in s.expiry && next in s.expiry
    ensures Inv(Merged(s, req, next, d))
  {
    var sd, s' := SideOf(s, d), Merged(s, req, next, d);
    if s.expiry[next] < s.expiry[req] {
      MovedSide(sd, s.pos, s.expiry, req, next);
    } else {
      RemovedSideKeeps(sd, s.pos, s.expiry, next);
    }
    forall y | y in SideOf(s', d).sort ensures y in sd.sort {
      WithoutIn(sd.sort, next, y);
    }
    KnownOther(s, d);
    OneSide(s, s', d);
  }

  // ---------------------------------------------------------------- dispatching

  /** What deadline_dispatch_requests settles on: a request, and the new counters. */
  datatype Choice = Idle | Go(x: nat, d: Dir, batching: nat, starved: nat)

  /** dispatch_find_request. */
  function Find(s: State, d: Dir, now: nat): nat
    requires SideOf(s, d).fifo != [] && SideOf(s, d).fifo[0] in s.expiry
  {
    var sd := SideOf(s, d);
    if now >= s.expiry[sd.fifo[0]] || sd.next.None? then sd.fifo[0] else sd.next.value
  }

  /** The request a running batch would go on with. */
  function BatchNext(s: State): Option<(nat, Dir)> {
    if s.wr.next.Some? then Some((s.wr.next.value, Write))
    else if s.rd.next.Some? then Some((s.rd.next.value, Read)) else None
  }

  /** The direction of a new batch, and the new count of starved writes. */
  function PickDir(t: Tunables, s: State): Option<(Dir, nat)> {
    if s.rd.fifo != [] then
      if s.wr.fifo != [] && s.starved >= t.writesStarved then Some((Write, 0))
      else Some((Read, if s.wr.fifo != [] then s.starved + 1 else s.starved))
    else if s.wr.fifo != [] then Some((Write, 0)) else None
  }

  lemma PickedWaits(t: Tunables, s: State)
    requires Inv(s) && PickDir(t, s).Some?
    ensures var sd := SideOf(s, PickDir(t, s).value.0); sd.fifo != [] && sd.fifo[0] in s.expiry && sd.sort != []
  {
    var sd := SideOf(s, PickDir(t, s).value.0);
    assert sd.fifo[0] in sd.sort;
  }

  function Choose(t: Tunables, s: State, now: nat): Choice
    requires Inv(s)
  {
    var batch := BatchNext(s);
    if batch.Some? && s.batching < t.fifoBatch then Go(batch.value.0, batch.value.1, s.batching + 1, s.starved)
    else if PickDir(t, s).None? then Idle
    else
      PickedWaits(t, s);
      var (d, starved) := PickDir(t, s).value;
      Go(Find(s, d, now), d, 1, starved)
  }

  /** deadline_move_request. */
  function Moved(s: State, c: Choice): State
    requires c.Go?
  {
    var sd, od := SideOf(s, c.d), SideOf(s, Other(c.d));
    var s1 := WithSide(s, Other(c.d), od.(next := None));
    WithSide(s1, c.d, Side(Without(sd.sort, c.x), Without(sd.fifo, c.x), Latter(sd.sort, c.x))).(batching := c.batching, starved := c.starved)
  }

  function Dispatched(t: Tunables, s: State, now: nat): State
    requires Inv(s)
  {
    var c := Choose(t, s, now);
    if c.Idle? then s else Moved(s, c)
  }

  /** The chosen request is queued in the chosen direction. */
  lemma ChosenQueued(t: Tunables, s: State, now: nat)
    requires Inv(s)
    ensures var c := Choose(t, s, now); c.Go? ==> c.x in SideOf(s, c.d).sort && c.batching >= 1
  {
  }

  lemma MovedSideKeeps(sd: Side, pos: map<nat, nat>, expiry: map<nat, nat>, x: nat)
    requires SideInv(sd, pos, expiry)
    ensures SideInv(Side(Without(sd.sort, x), Without(sd.fifo, x), Latter(sd.sort, x)), pos, expiry)
  {
    RemovedSideKeeps(sd.(next := None), pos, expiry, x);
    LatterIn(sd.sort, x);
    if Latter(sd.sort, x).Some? {
      WithoutIn(sd.sort, x, Latter(sd.sort, x).value);
    }
  }

  lemma DispatchedKeeps(t: Tunables, s: State, now: nat)
    requires Inv(s)
    ensures Inv(Dispatched(t, s, now))
  {
    var c := Choose(t, s, now);
    if c.Go? {
      ChosenQueued(t, s, now);
      MovedSideKeeps(SideOf(s, c.d), s.pos, s.expiry, c.x);
      forall y | y in Without(SideOf(s, c.d).sort, c.x) ensures y in SideOf(s, c.d).sort {
        WithoutIn(SideOf(s, c.d).sort, c.x, y);
      }
    }
  }

  // ---------------------------------------------------------------- runs

  datatype Event =
    | Add(x: nat, d: Dir, p: nat, expire: nat)
    | Remove(x: nat, d: Dir)
    | FrontMerge(x: nat, d: Dir, p: nat)
    | Merge(x: nat, next: nat, d: Dir)
    | Dispatch(now: nat)

  predicate Enabled(s: State, e: Event) {
    match e
    case Add(x, d, p, expire) => !Queued(s, x)
    case Remove(x, d) => x in SideOf(s, d).fifo
    case FrontMerge(x, d, p) => x in SideOf(s, d).sort
    case Merge(x, next, d) => x in SideOf(s, d).fifo && next in SideOf(s, d).fifo && x != next && x in s.expiry && next in s.expiry
    case Dispatch(now) => true
  }

  function Apply(t: Tunables, s: State, e: Event): State
    requires Inv(s) && Enabled(s, e)
  {
    match e
    case Add(x, d, p, expire) => Added(s, x, d, p, expire)
    case Remove(x, d) => Removed(s, x, d)
    case FrontMerge(x, d, p) => FrontMerged(s, x, d, p)
    case Merge(x, next, d) => Merged(s, x, next, d)
    case Dispatch(now) => Dispatched(t, s, now)
  }

  lemma ApplyKeeps(t: Tunables, s: State, e: Event)
    requires Inv(s) && Enabled(s, e)
    ensures Inv(Apply(t, s, e))
  {
    match e
    case Add(x, d, p, expire) => AddedKeeps(s, x, d, p, expire);
    case Remove(x, d) => RemovedKeeps(s, x, d);
    case FrontMerge(x, d, p) => FrontKeeps(s, x, d, p);
    case Merge(x, next, d) => MergedKeeps(s, x, next, d);
    case Dispatch(now) => DispatchedKeeps(t, s, now);
  }

  function Init(): State {
    State(Side([], [], None), Side([], [], None), 0, 0, map[], map[])
  }

  /** The events of a run, each possible when its turn comes. */
  ghost predicate Possible(t: Tunables, s: State, es: seq<Event>)
    decreases |es|
  {
    es == [] || (Inv(s) && Enabled(s, es[0]) && Possible(t, Apply(t, s, es[0]), es[1..]))
  }

  ghost function Run(t: Tunables, s: State, es: seq<Event>): State
    requires Possible(t, s, es)
    decreases |es|
  {
    if es == [] then s else Run(t, Apply(t, s, es[0]), es[1..])
  }

  /** In every run both lists of a direction hold the same requests, and next_rq is queued. */
  lemma {:induction false} StructureInEveryRun(t: Tunables, s: State, es: seq<Event>)
    requires Inv(s) && Possible(t, s, es)
    ensures Inv(Run(t, s, es))
    decreases |es|
  {
    if es != [] {
      ApplyKeeps(t, s, es[0]);
      StructureInEveryRun(t, Apply(t, s, es[0]), es[1..]);
    }
  }

  // ---------------------------------------------------------------- bounded bypass

  /** What an event dispatches, if anything. */
  function Sent(t: Tunables, s: State, e: Event): Option<(nat, Dir)>
    requires Inv(s)
  {
    if e.Dispatch? && Choose(t, s, e.now).Go? then Some((Choose(t, s, e.now).x, Choose(t, s, e.now).d)) else None
  }

  /** How many more requests the running batch may have. */
  function Rest(t: Tunables, s: State, running: bool): nat {
    if running && s.batching < t.fifoBatch then t.fifoBatch - s.batching else 0
  }

  /** A bound on the reads that can be dispatched before a waiting write. */
  function WriteWait(t: Tunables, s: State): nat {
    var turns := if s.starved < t.writesStarved then t.writesStarved - s.starved else 0;
    turns * Max(t.fifoBatch, 1) + Rest(t, s, s.rd.next.Some?)
  }

  lemma WriteWaitBound(t: Tunables, s: State)
    requires Inv(s)
    ensures WriteWait(t, s) < (t.writesStarved + 1) * Max(t.fifoBatch, 1)
  {
    var f := Max(t.fifoBatch, 1);
    var turns := if s.starved < t.writesStarved then t.writesStarved - s.starved else 0;
    assert turns * f <= t.writesStarved * f;
    assert (t.writesStarved + 1) * f == t.writesStarved * f + f;
  }

  lemma WriteWaitDispatch(t: Tunables, s: State, now: nat)
    requires Inv(s) && s.wr.fifo != [] && Choose(t, s, now).Go? && Choose(t, s, now).d == Read
    ensures WriteWait(t, Dispatched(t, s, now)) + 1 <= WriteWait(t, s)
  {
    var f, c := Max(t.fifoBatch, 1), Choose(t, s, now);
    if c.starved == s.starved + 1 {
      var k := t.writesStarved - s.starved;
      assert k * f == (k - 1) * f + f;
    }
  }

  /** No event lengthens the wait; dispatching a read shortens it. */
  lemma WriteWaitStep(t: Tunables, s: State, e: Event)
    requires Inv(s) && Enabled(s, e) && s.wr.fifo != []
    requires Sent(t, s, e).Some? ==> Sent(t, s, e).value.1 == Read
    ensures WriteWait(t, Apply(t, s, e)) + (if Sent(t, s, e).Some? then 1 else 0) <= WriteWait(t, s)
  {
    if e.Dispatch? && Choose(t, s, e.now).Go? {
      WriteWaitDispatch(t, s, e.now);
    }
  }

  /** A write waits throughout, and none is dispatched. */
  ghost predicate WriteWaits(t: Tunables, s: State, es: seq<Event>)
    requires Possible(t, s, es)
    decreases |es|
  {
    es == [] || (
      && s.wr.fifo != []
      && (Sent(t, s, es[0]).Some? ==> Sent(t, s, es[0]).value.1 == Read)
      && WriteWaits(t, Apply(t, s, es[0]), es[1..]))
  }

  ghost function Sents(t: Tunables, s: State, es: seq<Event>): nat
    requires Possible(t, s, es)
    decreases |es|
  {
    if es == [] then 0 else (if Sent(t, s, es[0]).Some? then 1 else 0) + Sents(t, Apply(t, s, es[0]), es[1..])
  }

  lemma {:induction false} ReadsWithinWait(t: Tunables, s: State, es: seq<Event>)
    requires Inv(s) && Possible(t, s, es) && WriteWaits(t, s, es)
    ensures Sents(t, s, es) <= WriteWait(t, s)
    decreases |es|
  {
    if es != [] {
      ApplyKeeps(t, s, es[0]);
      WriteWaitStep(t, s, es[0]);
      ReadsWithinWait(t, Apply(t, s, es[0]), es[1..]);
    }
  }

  /** While a write waits, fewer than (writes_starved + 1) * fifo_batch reads go before some write. */
  lemma ReadsBeforeWrite(t: Tunables, s: State, es: seq<Event>)
    requires Inv(s) && Possible(t, s, es) && WriteWaits(t, s, es)
    ensures Sents(t, s, es) < (t.writesStarved + 1) * Max(t.fifoBatch, 1)
  {
    ReadsWithinWait(t, s, es);
    WriteWaitBound(t, s);
  }

  /** A bound on the dispatches before an expired read at the head of its FIFO. */
  function ReadWait(t: Tunables, s: State): nat {
    Rest(t, s, s.rd.next.Some? || s.wr.next.Some?) + if s.starved >= t.writesStarved then Max(t.fifoBatch, 1) else 0
  }

  lemma ReadWaitBound(t: Tunables, s: State)
    requires Inv(s)
    ensures ReadWait(t, s) <= 2 * Max(t.fifoBatch, 1) - 1
  {
  }

  lemma ReadWaitStep(t: Tunables, s: State, e: Event, x: nat)
    requires Inv(s) && Enabled(s, e) && t.writesStarved >= 1
    requires s.rd.fifo != [] && s.rd.fifo[0] == x && (e.Dispatch? ==> e.now >= s.expiry[x])
    requires Sent(t, s, e).Some? ==> Sent(t, s, e).value.0 != x
    ensures ReadWait(t, Apply(t, s, e)) + (if Sent(t, s, e).Some? then 1 else 0) <= ReadWait(t, s)
  {
  }

  /** Read `x` stays at the head of its FIFO, expired whenever a dispatch happens, and is not sent. */
  ghost predicate ReadPassed(t: Tunables, s: State, es: seq<Event>, x: nat)
    requires Possible(t, s, es)
    decreases |es|
  {
    es == [] || (
      && s.rd.fifo != [] && s.rd.fifo[0] == x && x in s.expiry
      && (es[0].Dispatch? ==> es[0].now >= s.expiry[x])
      && (Sent(t, s, es[0]).Some? ==> Sent(t, s, es[0]).value.0 != x)
      && ReadPassed(t, Apply(t, s, es[0]), es[1..], x))
  }

  lemma {:induction false} SentsWithinReadWait(t: Tunables, s: State, es: seq<Event>, x: nat)
    requires Inv(s) && Possible(t, s, es) && ReadPassed(t, s, es, x) && t.writesStarved >= 1
    ensures Sents(t, s, es) <= ReadWait(t, s)
    decreases |es|
  {
    if es != [] {
      ApplyKeeps(t, s, es[0]);
      ReadWaitStep(t, s, es[0], x);
      SentsWithinReadWait(t, Apply(t, s, es[0]), es[1..], x);
    }
  }

  /** An expired read at the head of its FIFO goes after at most 2 * fifo_batch - 1 others. */
  lemma ExpiredReadSoon(t: Tunables, s: State, es: seq<Event>, x: nat)
    requires Inv(s) && Possible(t, s, es) && ReadPassed(t, s, es, x) && t.writesStarved >= 1
    ensures Sents(t, s, es) <= 2 * Max(t.fifoBatch, 1) - 1
  {
    SentsWithinReadWait(t, s, es, x);
    ReadWaitBound(t, s);
  }

  // ---------------------------------------------------------------- order of the FIFOs

  /** Both FIFOs are in order of expiry, so their heads expire first. */
  ghost predicate Timely(s: State) {
    && Known(s.expiry, s.rd.fifo) && Sorted(s.expiry, s.rd.fifo)
    && Known(s.expiry, s.wr.fifo) && Sorted(s.expiry, s.wr.fifo)
  }

  /** A new request expires no earlier than those before it, as time passes and fifo_expire is fixed. */
  predicate TimelyEvent(s: State, e: Event) {
    e.Add? ==> forall i :: 0 <= i < |SideOf(s, e.d).fifo| ==>
      SideOf(s, e.d).fifo[i] in s.expiry && s.expiry[SideOf(s, e.d).fifo[i]] <= e.expire
  }

  lemma {:induction false} AppendSorted(expiry: map<nat, nat>, xs: seq<nat>, x: nat, t: nat)
    requires Known(expiry, xs) && Sorted(expiry, xs) && x !in xs && forall i :: 0 <= i < |xs| ==> expiry[xs[i]] <= t
    ensures Known(expiry[x := t], xs + [x]) && Sorted(expiry[x := t], xs + [x])
  {
    if xs != [] {
      assert (xs + [x])[1..] == xs[1..] + [x];
      AppendSorted(expiry, xs[1..], x, t);
    }
  }

  lemma OtherTimely(expiry: map<nat, nat>, xs: seq<nat>, x: nat, t: nat)
    requires Known(expiry, xs) && Sorted(expiry, xs) && x !in xs
    ensures Known(expiry[x := t], xs) && Sorted(expiry[x := t], xs)
  {
    SortedFrame(expiry, expiry[x := t], xs);
  }

  lemma FifosDisjoint(s: State, d: Dir, x: nat)
    requires Inv(s) && x in SideOf(s, d).fifo
    ensures x !in SideOf(s, Other(d)).fifo
  {
    assert x in SideOf(s, d).sort && x !in SideOf(s, Other(d)).sort;
  }

  lemma MergeTimely(s: State, x: nat, next: nat, d: Dir)
    requires Inv(s) && Timely(s) && Enabled(s, Merge(x, next, d))
    ensures Timely(Merged(s, x, next, d))
  {
    var fifo := SideOf(s, d).fifo;
    FifosDisjoint(s, d, x);
    if s.expiry[next] < s.expiry[x] {
      var rest := Without(fifo, x);
      WithoutSorted(s.expiry, fifo, x);
      WithoutDistinct(fifo, x);
      WithoutIn(fifo, x, x);
      WithoutIn(fifo, x, next);
      AfterWithout(rest, next, x);
      ReplaceSorted(s.expiry, rest, next, x);
      OtherTimely(s.expiry, SideOf(s, Other(d)).fifo, x, s.expiry[next]);
    } else {
      WithoutSorted(s.expiry, fifo, next);
    }
  }

  lemma TimelyKeeps(t: Tunables, s: State, e: Event)
    requires Inv(s) && Timely(s) && Enabled(s, e) && TimelyEvent(s, e)
    ensures Timely(Apply(t, s, e))
  {
    match e
    case Add(x, d, p, expire) => AddTimely(s, x, d, p, expire);
    case Remove(x, d) => WithoutSorted(s.expiry, SideOf(s, d).fifo, x);
    case FrontMerge(x, d, p) =>
    case Merge(x, next, d) => MergeTimely(s, x, next, d);
    case Dispatch(now) => DispatchTimely(t, s, now);
  }

  lemma AddTimely(s: State, x: nat, d: Dir, p: nat, expire: nat)
    requires Inv(s) && Timely(s) && Enabled(s, Add(x, d, p, expire)) && TimelyEvent(s, Add(x, d, p, expire))
    ensures Timely(Added(s, x, d, p, expire))
  {
    AppendSorted(s.expiry, SideOf(s, d).fifo, x, expire);
    OtherTimely(s.expiry, SideOf(s, Other(d)).fifo, x, expire);
  }

  lemma DispatchTimely(t: Tunables, s: State, now: nat)
    requires Inv(s) && Timely(s)
    ensures Timely(Dispatched(t, s, now))
  {
    var c := Choose(t, s, now);
    if c.Go? {
      WithoutSorted(s.expiry, SideOf(s, c.d).fifo, c.x);
    }
  }

  // ---------------------------------------------------------------- which requests are queued

  /** A plain record of a queued request, and of all of them. */
  datatype Entry = Entry(d: Dir, p: nat, expire: nat)

  type Book = map<nat, Entry>

  /** What an event does to the book, given only what it reports as sent. */
  function Booked(b: Book, e: Event, sent: Option<(nat, Dir)>): Book {
    match e
    case Add(x, d, p, expire) => b[x := Entry(d, p, expire)]
    case Remove(x, _) => b - {x}
    case FrontMerge(x, _, p) => if x in b then b[x := b[x].(p := p)] else b
    case Merge(x, next, _) =>
      if x in b && next in b then b[x := b[x].(expire := if b[next].expire < b[x].expire then b[next].expire else b[x].expire)] - {next}
      else b
    case Dispatch(_) => if sent.Some? then b - {sent.value.0} else b
  }

  predicate InBook(b: Book, x: nat, d: Dir) {
    x in b && b[x].d == d
  }

  /** On one side `x` is on both lists or on none, as the book says. */
  predicate OnSide(sd: Side, b: Book, x: nat, d: Dir) {
    (x in sd.sort <==> InBook(b, x, d)) && (x in sd.fifo <==> InBook(b, x, d))
  }

  predicate Facts(pos: map<nat, nat>, expiry: map<nat, nat>, b: Book, x: nat) {
    x in b ==> x in pos && pos[x] == b[x].p && x in expiry && expiry[x] == b[x].expire
  }

  /** Request `x` is where the book says, with the sector and the expiry it says. */
  predicate Entered(s: State, b: Book, x: nat) {
    OnSide(s.rd, b, x, Read) && OnSide(s.wr, b, x, Write) && Facts(s.pos, s.expiry, b, x)
  }

  ghost predicate Agrees(s: State, b: Book) {
    forall x :: Entered(s, b, x)
  }

  lemma AddEntered(s: State, b: Book, y: nat, d: Dir, p: nat, expire: nat, x: nat)
    requires Inv(s) && Entered(s, b, x) && !Queued(s, y) && Entered(s, b, y)
    ensures Entered(Added(s, y, d, p, expire), Booked(b, Add(y, d, p, expire), None), x)
  {
    InsertIn(s.pos, SideOf(s, d).sort, y, p, x);
  }

  /** The side a request leaves, and the other one. */
  lemma RemovedOnSide(sd: Side, b: Book, y: nat, d: Dir, x: nat)
    requires OnSide(sd, b, x, d)
    ensures OnSide(RemovedSide(sd, y), b - {y}, x, d)
  {
    WithoutIn(sd.sort, y, x);
    WithoutIn(sd.fifo, y, x);
  }

  lemma RemovedEntered(s: State, b: Book, y: nat, d: Dir, x: nat)
    requires Entered(s, b, x) && Entered(s, b, y) && InBook(b, y, d)
    ensures Entered(Removed(s, y, d), b - {y}, x)
  {
    RemovedOnSide(SideOf(s, d), b, y, d, x);
  }

  lemma FrontEntered(s: State, b: Book, y: nat, d: Dir, p: nat, x: nat)
    requires Inv(s) && Entered(s, b, x) && Entered(s, b, y) && y in SideOf(s, d).sort
    ensures Entered(FrontMerged(s, y, d, p), Booked(b, FrontMerge(y, d, p), None), x)
  {
    WithoutKnown(s.pos, SideOf(s, d).sort, y);
    InsertIn(s.pos, Without(SideOf(s, d).sort, y), y, p, x);
    WithoutIn(SideOf(s, d).sort, y, x);
  }

  /** After the move in the FIFO the same requests are queued. */
  lemma MovedIn(fifo: seq<nat>, req: nat, next: nat, x: nat)
    requires Distinct(fifo) && req in fifo && next in fifo && req != next
    ensures x in Without(After(Without(fifo, req), next, req), next) <==> x in fifo && x != next
  {
    var rest := Without(fifo, req);
    WithoutDistinct(fifo, req);
    WithoutIn(fifo, req, req);
    WithoutIn(fifo, req, next);
    WithoutIn(fifo, req, x);
    AfterWithout(rest, next, req);
    ReplaceIn(rest, next, req, x);
  }

  lemma MovedOnSide(sd: Side, b: Book, req: nat, next: nat, d: Dir, x: nat)
    requires OnSide(sd, b, x, d) && Distinct(sd.fifo) && req in sd.fifo && next in sd.fifo && req != next
    ensures OnSide(RemovedSide(sd.(fifo := After(Without(sd.fifo, req), next, req)), next), b - {next}, x, d)
  {
    WithoutIn(sd.sort, next, x);
    MovedIn(sd.fifo, req, next, x);
  }

  /** The book after a merge: the sooner expiry, and one request less. */
  lemma MergeFacts(s: State, b: Book, req: nat, next: nat, d: Dir, x: nat)
    requires Facts(s.pos, s.expiry, b, x) && Facts(s.pos, s.expiry, b, req) && Facts(s.pos, s.expiry, b, next)
    requires Inv(s) && Enabled(s, Merge(req, next, d)) && req in b && next in b
    ensures var s' := Merged(s, req, next, d); Facts(s'.pos, s'.expiry, Booked(b, Merge(req, next, d), None), x)
  {
  }

  lemma SameBooks(sd: Side, b: Book, b': Book, x: nat, d: Dir)
    requires OnSide(sd, b, x, d) && (InBook(b, x, d) <==> InBook(b', x, d))
    ensures OnSide(sd, b', x, d)
  {
  }

  lemma MergeEntered(s: State, b: Book, req: nat, next: nat, d: Dir, x: nat)
    requires Inv(s) && Entered(s, b, x) && Entered(s, b, req) && Entered(s, b, next) && Enabled(s, Merge(req, next, d))
    ensures Entered(Merged(s, req, next, d), Booked(b, Merge(req, next, d), None), x)
  {
    var (b', s') := (Booked(b, Merge(req, next, d), None), Merged(s, req, next, d));
    assert InBook(b, req, d) && InBook(b, next, d);
    MergeFacts(s, b, req, next, d, x);
    RemovedOnSide(SideOf(s, d), b, next, d, x);
    MovedOnSide(SideOf(s, d), b, req, next, d, x);
    SameBooks(SideOf(s', d), b - {next}, b', x, d);
    SameBooks(SideOf(s, Other(d)), b, b', x, Other(d));
  }

  lemma MovedEntered(s: State, b: Book, c: Choice, x: nat)
    requires c.Go? && Entered(s, b, x) && InBook(b, c.x, c.d)
    ensures Entered(Moved(s, c), b - {c.x}, x)
  {
    RemovedOnSide(SideOf(s, c.d), b, c.x, c.d, x);
    SameBooks(SideOf(s, Other(c.d)), b, b - {c.x}, x, Other(c.d));
  }

  lemma DispatchEntered(t: Tunables, s: State, b: Book, now: nat, x: nat)
    requires Inv(s) && Agrees(s, b)
    ensures Entered(Dispatched(t, s, now), Booked(b, Dispatch(now), Sent(t, s, Dispatch(now))), x)
  {
    var c := Choose(t, s, now);
    assert Entered(s, b, x);
    if c.Go? {
      ChosenQueued(t, s, now);
      assert Entered(s, b, c.x);
      MovedEntered(s, b, c, x);
    }
  }

  lemma BookedAgrees(t: Tunables, s: State, b: Book, e: Event)
    requires Inv(s) && Enabled(s, e) && Agrees(s, b)
    ensures Agrees(Apply(t, s, e), Booked(b, e, Sent(t, s, e)))
  {
    forall x ensures Entered(Apply(t, s, e), Booked(b, e, Sent(t, s, e)), x) {
      assert Entered(s, b, x);
      match e
      case Add(y, d, p, expire) => assert Entered(s, b, y); AddEntered(s, b, y, d, p, expire, x);
      case Remove(y, d) => assert Entered(s, b, y); RemovedEntered(s, b, y, d, x);
      case FrontMerge(y, d, p) => assert Entered(s, b, y); FrontEntered(s, b, y, d, p, x);
      case Merge(y, next, d) => assert Entered(s, b, y) && Entered(s, b, next); MergeEntered(s, b, y, next, d, x);
      case Dispatch(now) => DispatchEntered(t, s, b, now, x);
    }
  }

  /** The book after a run. */
  ghost function BookOf(t: Tunables, s: State, b: Book, es: seq<Event>): Book
    requires Possible(t, s, es)
    decreases |es|
  {
    if es == [] then b else BookOf(t, Apply(t, s, es[0]), Booked(b, es[0], Sent(t, s, es[0])), es[1..])
  }

  /** In every run a request is on the sort list and on the FIFO of its direction exactly when it was added and has not
      since been removed, merged away or sent; with the sector of its last front merge, and the earliest expiry of the
      requests merged into it. */
  lemma {:induction false} QueuedInEveryRun(t: Tunables, s: State, b: Book, es: seq<Event>)
    requires Inv(s) && Possible(t, s, es) && Agrees(s, b)
    ensures Agrees(Run(t, s, es), BookOf(t, s, b, es))
    decreases |es|
  {
    if es != [] {
      ApplyKeeps(t, s, es[0]);
      BookedAgrees(t, s, b, es[0]);
      QueuedInEveryRun(t, Apply(t, s, es[0]), Booked(b, es[0], Sent(t, s, es[0])), es[1..]);
    }
  }

  lemma InitAgrees()
    ensures Inv(Init()) && Agrees(Init(), map[])
  {
  }

  // ---------------------------------------------------------------- each request is sent at most once

  /** How often `x` was added, and how often it was sent, removed or merged away. */
  function Comes(e: Event, x: nat): nat {
    if e.Add? && e.x == x then 1 else 0
  }

  function Leaves(e: Event, sent: Option<(nat, Dir)>, x: nat): nat {
    match e
    case Remove(y, _) => if y == x then 1 else 0
    case Merge(_, next, _) => if next == x then 1 else 0
    case Dispatch(_) => if sent.Some? && sent.value.0 == x then 1 else 0
    case _ => 0
  }

  ghost function Came(t: Tunables, s: State, es: seq<Event>, x: nat): nat
    requires Possible(t, s, es)
    decreases |es|
  {
    if es == [] then 0 else Comes(es[0], x) + Came(t, Apply(t, s, es[0]), es[1..], x)
  }

  ghost function Gone(t: Tunables, s: State, es: seq<Event>, x: nat): nat
    requires Possible(t, s, es)
    decreases |es|
  {
    if es == [] then 0 else Leaves(es[0], Sent(t, s, es[0]), x) + Gone(t, Apply(t, s, es[0]), es[1..], x)
  }

  function Waiting(s: State, x: nat): nat {
    if Queued(s, x) then 1 else 0
  }

  lemma WaitingIs(s: State, b: Book, x: nat)
    requires Entered(s, b, x)
    ensures Waiting(s, x) == if x in b then 1 else 0
  {
    assert x in b ==> b[x].d == Read || b[x].d == Write;
  }

  /** The requests an event names are in the book, or new to it. */
  predicate Names(b: Book, e: Event, sent: Option<(nat, Dir)>) {
    match e
    case Add(x, _, _, _) => x !in b
    case Remove(x, _) => x in b
    case FrontMerge(x, _, _) => x in b
    case Merge(x, next, _) => x in b && next in b && x != next
    case Dispatch(_) => sent.Some? ==> sent.value.0 in b
  }

  lemma EnabledNames(t: Tunables, s: State, b: Book, e: Event)
    requires Inv(s) && Enabled(s, e) && Agrees(s, b)
    ensures Names(b, e, Sent(t, s, e))
  {
    match e
    case Add(x, _, _, _) => assert Entered(s, b, x); WaitingIs(s, b, x);
    case Remove(x, _) => assert Entered(s, b, x);
    case FrontMerge(x, _, _) => assert Entered(s, b, x);
    case Merge(x, next, _) => assert Entered(s, b, x) && Entered(s, b, next);
    case Dispatch(now) =>
      ChosenQueued(t, s, now);
      if Choose(t, s, now).Go? {
        assert Entered(s, b, Choose(t, s, now).x);
      }
  }

  lemma BookConserves(b: Book, e: Event, sent: Option<(nat, Dir)>, x: nat)
    requires Names(b, e, sent)
    ensures (if x in b then 1 else 0) + Comes(e, x) == (if x in Booked(b, e, sent) then 1 else 0) + Leaves(e, sent, x)
  {
  }

  lemma StepConserves(t: Tunables, s: State, b: Book, e: Event, x: nat)
    requires Inv(s) && Enabled(s, e) && Agrees(s, b) && Agrees(Apply(t, s, e), Booked(b, e, Sent(t, s, e)))
    ensures Waiting(s, x) + Comes(e, x) == Waiting(Apply(t, s, e), x) + Leaves(e, Sent(t, s, e), x)
  {
    EnabledNames(t, s, b, e);
    BookConserves(b, e, Sent(t, s, e), x);
    WaitingIs(s, b, x);
    WaitingIs(Apply(t, s, e), Booked(b, e, Sent(t, s, e)), x);
  }

  /** In every run each request is sent, removed or merged away once for every time it was added, except that it may
      still wait: so it is never sent twice for one submission, and none is lost. */
  lemma {:induction false} SentOnce(t: Tunables, s: State, b: Book, es: seq<Event>, x: nat)
    requires Inv(s) && Possible(t, s, es) && Agrees(s, b)
    ensures Waiting(s, x) + Came(t, s, es, x) == Waiting(Run(t, s, es), x) + Gone(t, s, es, x)
    decreases |es|
  {
    if es != [] {
      ApplyKeeps(t, s, es[0]);
      BookedAgrees(t, s, b, es[0]);
      StepConserves(t, s, b, es[0], x);
      SentOnce(t, Apply(t, s, es[0]), Booked(b, es[0], Sent(t, s, es[0])), es[1..], x);
    }
  }

  // ---------------------------------------------------------------- order of arrival

  /** `y` stands before `z`. */
  predicate Before(xs: seq<nat>, y: nat, z: nat) {
    xs != [] && ((xs[0] == y && z in xs[1..]) || Before(xs[1..], y, z))
  }

  lemma {:induction false} WithoutBefore(xs: seq<nat>, x: nat, y: nat, z: nat)
    requires Before(xs, y, z) && x != y && x != z
    ensures Before(Without(xs, x), y, z)
  {
    if xs[0] == y && z in xs[1..] {
      WithoutIn(xs[1..], x, z);
      assert ([xs[0]] + Without(xs[1..], x))[1..] == Without(xs[1..], x);
    } else {
      WithoutBefore(xs[1..], x, y, z);
      if xs[0] != x {
        assert ([xs[0]] + Without(xs[1..], x))[1..] == Without(xs[1..], x);
      }
    }
  }

  lemma {:induction false} AppendBefore(xs: seq<nat>, x: nat, y: nat, z: nat)
    ensures Before(xs, y, z) ==> Before(xs + [x], y, z)
    ensures y in xs && z == x ==> Before(xs + [x], y, z)
  {
    if xs != [] {
      AppendBefore(xs[1..], x, y, z);
      assert (xs + [x])[1..] == xs[1..] + [x];
    }
  }

  lemma {:induction false} ReplaceBefore(xs: seq<nat>, a: nat, x: nat, y: nat, z: nat)
    requires Before(xs, y, z) && Distinct(xs) && a in xs && x !in xs && x != a
    ensures Before(Replace(xs, a, x), if y == a then x else y, if z == a then x else z)
  {
    var (y', z') := (if y == a then x else y, if z == a then x else z);
    if xs[0] == a {
      assert ([x] + xs[1..])[1..] == xs[1..];
      BeforeIn(xs[1..], y, z);
    } else {
      assert ([xs[0]] + Replace(xs[1..], a, x))[1..] == Replace(xs[1..], a, x);
      if xs[0] == y && z in xs[1..] {
        ReplaceIn(xs[1..], a, x, z');
      } else {
        ReplaceBefore(xs[1..], a, x, y, z);
      }
    }
  }

  lemma {:induction false} BeforeIn(xs: seq<nat>, y: nat, z: nat)
    ensures Before(xs, y, z) ==> y in xs && z in xs
  {
    if xs != [] {
      BeforeIn(xs[1..], y, z);
    }
  }

  /** The one who stands in the FIFO for `y` after a merge: itself, or the request it was merged into if that one takes
      its place. */
  function StandIn(s: State, e: Event, y: nat): nat
    requires Enabled(s, e)
  {
    if e.Merge? && e.next == y && s.expiry[y] < s.expiry[e.x] then e.x else y
  }

  /** The event takes `y` off its FIFO, or moves it there. */
  predicate Displaces(s: State, e: Event, sent: Option<(nat, Dir)>, y: nat)
    requires Enabled(s, e)
  {
    match e
    case Remove(x, _) => x == y
    case Merge(x, next, _) => if s.expiry[next] < s.expiry[x] then y == x else y == next
    case Dispatch(_) => sent.Some? && sent.value.0 == y
    case _ => false
  }

  /** Whatever happens, two requests of one direction keep their order in the FIFO; a new one goes last; and a merged
      one takes the place of the one merged into it if that expires first. */
  lemma FifoInOrder(t: Tunables, s: State, e: Event, d: Dir, y: nat, z: nat)
    requires Inv(s) && Enabled(s, e) && Before(SideOf(s, d).fifo, y, z)
    requires !Displaces(s, e, Sent(t, s, e), y) && !Displaces(s, e, Sent(t, s, e), z)
    ensures Before(SideOf(Apply(t, s, e), d).fifo, StandIn(s, e, y), StandIn(s, e, z))
  {
    var fifo := SideOf(s, d).fifo;
    BeforeIn(fifo, y, z);
    match e
    case Add(x, _, _, _) => AppendBefore(fifo, x, y, z);
    case Remove(x, _) => WithoutBefore(fifo, x, y, z);
    case FrontMerge(_, _, _) =>
    case Merge(x, next, f) => MergeInOrder(s, x, next, f, d, y, z);
    case Dispatch(now) => DispatchInOrder(t, s, now, d, y, z);
  }

  lemma DispatchInOrder(t: Tunables, s: State, now: nat, d: Dir, y: nat, z: nat)
    requires Inv(s) && Before(SideOf(s, d).fifo, y, z)
    requires var c := Choose(t, s, now); c.Go? ==> c.x != y && c.x != z
    ensures Before(SideOf(Dispatched(t, s, now), d).fifo, y, z)
  {
    if Choose(t, s, now).Go? {
      WithoutBefore(SideOf(s, d).fifo, Choose(t, s, now).x, y, z);
    }
  }

  lemma MergeInOrder(s: State, x: nat, next: nat, f: Dir, d: Dir, y: nat, z: nat)
    requires Inv(s) && Enabled(s, Merge(x, next, f)) && Before(SideOf(s, d).fifo, y, z)
    requires !Displaces(s, Merge(x, next, f), None, y) && !Displaces(s, Merge(x, next, f), None, z)
    ensures Before(SideOf(Merged(s, x, next, f), d).fifo, StandIn(s, Merge(x, next, f), y), StandIn(s, Merge(x, next, f), z))
  {
    var fifo := SideOf(s, d).fifo;
    BeforeIn(fifo, y, z);
    if d == f {
      if s.expiry[next] < s.expiry[x] {
        var rest := Without(fifo, x);
        WithoutBefore(fifo, x, y, z);
        WithoutDistinct(fifo, x);
        WithoutIn(fifo, x, x);
        WithoutIn(fifo, x, next);
        AfterWithout(rest, next, x);
        ReplaceBefore(rest, next, x, y, z);
      } else {
        WithoutBefore(fifo, next, y, z);
      }
    } else {
      FifosDisjoint(s, f, next);
    }
  }

  lemma {:induction false} InsertBefore(pos: map<nat, nat>, xs: seq<nat>, x: nat, p: nat, y: nat)
    requires Known(pos, xs) && Sorted(pos, xs) && y in xs && y in pos
    ensures if pos[y] <= p then Before(Insert(pos, xs, x, p), y, x) else Before(Insert(pos, xs, x, p), x, y)
  {
    if p < pos[xs[0]] {
      assert ([x] + xs)[1..] == xs;
      if y != xs[0] {
        FromAt(pos, xs[1..], pos[xs[0]], y);
      }
    } else {
      var rest := Insert(pos, xs[1..], x, p);
      assert ([xs[0]] + rest)[1..] == rest;
      InsertIn(pos, xs[1..], x, p, x);
      if y in xs[1..] {
        InsertBefore(pos, xs[1..], x, p, y);
      }
    }
  }

  /** A new or moved request is behind all that start at or before its sector, and before the others. */
  lemma AddedInSectorOrder(s: State, x: nat, d: Dir, p: nat, expire: nat, y: nat)
    requires Inv(s) && y in SideOf(s, d).sort && y in s.pos && y != x
    ensures var sort := SideOf(Added(s, x, d, p, expire), d).sort; if s.pos[y] <= p then Before(sort, y, x) else Before(sort, x, y)
    ensures var sort := SideOf(FrontMerged(s, x, d, p), d).sort; if s.pos[y] <= p then Before(sort, y, x) else Before(sort, x, y)
  {
    InsertBefore(s.pos, SideOf(s, d).sort, x, p, y);
    WithoutSorted(s.pos, SideOf(s, d).sort, x);
    WithoutIn(SideOf(s, d).sort, x, y);
    InsertBefore(s.pos, Without(SideOf(s, d).sort, x), x, p, y);
  }

  /** A new request is behind all others of its direction. */
  lemma AddedLast(s: State, x: nat, d: Dir, p: nat, expire: nat, y: nat)
    requires Inv(s) && !Queued(s, x) && y in SideOf(s, d).fifo
    ensures Before(SideOf(Added(s, x, d, p, expire), d).fifo, y, x)
  {
    AppendBefore(SideOf(s, d).fifo, x, y, x);
  }

  // ---------------------------------------------------------------- the batch goes upwards

  lemma {:induction false} FromAt(pos: map<nat, nat>, xs: seq<nat>, lo: nat, z: nat)
    requires Known(pos, xs) && From(pos, xs, lo) && z in xs
    ensures z in pos && pos[z] >= lo
  {
  }

  /** Nothing queued lies between a request and its latter one; and nothing lies above one that has none. */
  lemma {:induction false} LatterNext(pos: map<nat, nat>, xs: seq<nat>, x: nat, z: nat)
    requires Known(pos, xs) && Sorted(pos, xs) && Distinct(xs) && x in xs && z in xs
    ensures x in pos && z in pos
    ensures var y := Latter(xs, x);
      if y.None? then pos[z] <= pos[x]
      else y.value in xs && y.value != x && y.value in pos && pos[y.value] >= pos[x] && (pos[z] <= pos[x] || pos[z] >= pos[y.value])
  {
    if xs[0] == x {
      if |xs| > 1 {
        assert xs[1] == xs[1..][0] && xs[1] in xs[1..];
        FromAt(pos, xs[1..], pos[x], xs[1]);
        if z != x && z != xs[1] {
          assert z in xs[1..] && z in xs[1..][1..];
          FromAt(pos, xs[1..][1..], pos[xs[1]], z);
        }
      } else {
        assert z == x;
      }
    } else {
      FromAt(pos, xs[1..], pos[xs[0]], x);
      if z == xs[0] {
        LatterNext(pos, xs[1..], x, x);
      } else {
        LatterNext(pos, xs[1..], x, z);
      }
    }
  }

  /** In every state: after a dispatch next_rq of that direction is the queued request next above the one sent, or none
      if none is above it, and the other direction has none. */
  lemma DispatchGoesUp(t: Tunables, s: State, now: nat, z: nat)
    requires Inv(s) && Choose(t, s, now).Go?
    requires z in SideOf(s, Sent(t, s, Dispatch(now)).value.1).sort && z in s.pos
    ensures var ((x, d), s') := (Sent(t, s, Dispatch(now)).value, Dispatched(t, s, now));
      && x in s.pos && SideOf(s', Other(d)).next.None?
      && match SideOf(s', d).next
         case None => s.pos[z] <= s.pos[x]
         case Some(y) => y in s.pos && y in SideOf(s', d).sort && s.pos[y] >= s.pos[x] && (s.pos[z] <= s.pos[x] || s.pos[z] >= s.pos[y])
  {
    ChosenQueued(t, s, now);
    var c := Choose(t, s, now);
    LatterNext(s.pos, SideOf(s, c.d).sort, c.x, z);
    if Latter(SideOf(s, c.d).sort, c.x).Some? {
      WithoutIn(SideOf(s, c.d).sort, c.x, Latter(SideOf(s, c.d).sort, c.x).value);
    }
  }

  /** Removing a request that is next_rq makes its latter one next_rq; removing another leaves next_rq alone. */
  lemma RemoveGoesUp(s: State, x: nat, d: Dir, z: nat)
    requires Inv(s) && x in SideOf(s, d).sort && z in SideOf(s, d).sort && z in s.pos && x in s.pos
    ensures var (n, n') := (SideOf(s, d).next, SideOf(Removed(s, x, d), d).next);
      if n != Some(x) then n' == n
      else match n'
        case None => s.pos[z] <= s.pos[x]
        case Some(y) => y in s.pos && y != x && s.pos[y] >= s.pos[x] && (s.pos[z] <= s.pos[x] || s.pos[z] >= s.pos[y])
    ensures SideOf(Removed(s, x, d), Other(d)) == SideOf(s, Other(d))
  {
    LatterNext(s.pos, SideOf(s, d).sort, x, z);
  }

  // ---------------------------------------------------------------- which request is sent

  /** Something is sent exactly when something waits. */
  lemma SendsWhenever(t: Tunables, s: State, now: nat)
    requires Inv(s)
    ensures Sent(t, s, Dispatch(now)).Some? <==> s.rd.fifo != [] || s.wr.fifo != []
  {
  }

  /** A batch goes on with next_rq until it is used up; then reads go first unless they have starved writes often
      enough; and an expired request at the head of the FIFO starts the new batch, in either direction. */
  lemma SendsWhat(t: Tunables, s: State, now: nat, d: Dir, y: nat)
    requires Inv(s) && s.rd.fifo != [] && s.wr.fifo != []
    ensures SideOf(s, d).next == Some(y) && s.batching < t.fifoBatch ==> Sent(t, s, Dispatch(now)) == Some((y, d))
    ensures (s.rd.next.None? && s.wr.next.None?) || s.batching >= t.fifoBatch ==>
      var (x, f) := Sent(t, s, Dispatch(now)).value;
      && (f == Write <==> s.starved >= t.writesStarved)
      && SideOf(s, f).fifo[0] in s.expiry
      && (now >= s.expiry[SideOf(s, f).fifo[0]] || SideOf(s, f).next.None? ==> x == SideOf(s, f).fifo[0])
      && (now < s.expiry[SideOf(s, f).fifo[0]] && SideOf(s, f).next.Some? ==> SideOf(s, f).next == Some(x))
  {
  }

  /** With one direction waiting only, that one. */
  lemma SendsOnly(t: Tunables, s: State, now: nat, d: Dir)
    requires Inv(s) && SideOf(s, d).fifo != [] && SideOf(s, Other(d)).fifo == []
    ensures var (x, f) := Sent(t, s, Dispatch(now)).value;
      && f == d && SideOf(s, d).fifo[0] in s.expiry
      && (if SideOf(s, d).next.Some? && (s.batching < t.fifoBatch || now < s.expiry[SideOf(s, d).fifo[0]])
          then SideOf(s, d).next == Some(x) else x == SideOf(s, d).fifo[0])
  {
    assert SideOf(s, d).fifo[0] in SideOf(s, d).sort;
  }

  /** Requests sent in the running batch, and read batches begun since the last write batch while writes waited. */
  datatype Counts = Counts(sent: nat, passed: nat)

  /** The batch is over: it has no next request, or has had its share. */
  predicate Over(t: Tunables, s: State, c: Counts) {
    (s.rd.next.None? && s.wr.next.None?) || c.sent >= t.fifoBatch
  }

  function Counted(t: Tunables, s: State, c: Counts, sent: Option<(nat, Dir)>): Counts {
    if sent.None? then c
    else if !Over(t, s, c) then c.(sent := c.sent + 1)
    else Counts(1, if sent.value.1 == Write then 0 else if s.wr.fifo != [] then c.passed + 1 else c.passed)
  }

  ghost function CountsOf(t: Tunables, s: State, c: Counts, es: seq<Event>): Counts
    requires Inv(s) && Possible(t, s, es)
    decreases |es|
  {
    if es == [] then c
    else ApplyKeeps(t, s, es[0]); CountsOf(t, Apply(t, s, es[0]), Counted(t, s, c, Sent(t, s, es[0])), es[1..])
  }

  lemma CountedStep(t: Tunables, s: State, e: Event)
    requires Inv(s) && Enabled(s, e)
    ensures Counted(t, s, Counts(s.batching, s.starved), Sent(t, s, e)) == Counts(Apply(t, s, e).batching, Apply(t, s, e).starved)
  {
  }

  /** In every run the counters are what they are named for. */
  lemma {:induction false} CountersInEveryRun(t: Tunables, s: State, c: Counts, es: seq<Event>)
    requires Inv(s) && Possible(t, s, es) && c == Counts(s.batching, s.starved)
    ensures CountsOf(t, s, c, es) == Counts(Run(t, s, es).batching, Run(t, s, es).starved)
    decreases |es|
  {
    if es != [] {
      ApplyKeeps(t, s, es[0]);
      CountedStep(t, s, es[0]);
      CountersInEveryRun(t, Apply(t, s, es[0]), Counted(t, s, c, Sent(t, s, es[0])), es[1..]);
    }
  }

  /** A bound on the dispatches before an expired write at the head of its FIFO. */
  function ExpiredWait(t: Tunables, s: State): nat {
    var turns := if s.starved < t.writesStarved then t.writesStarved - s.starved else 0;
    turns * Max(t.fifoBatch, 1) + Rest(t, s, s.rd.next.Some? || s.wr.next.Some?)
  }

  lemma ExpiredWaitDispatch(t: Tunables, s: State, now: nat, x: nat)
    requires Inv(s) && s.wr.fifo != [] && s.wr.fifo[0] == x && x in s.expiry && now >= s.expiry[x]
    requires Choose(t, s, now).Go? && Choose(t, s, now).x != x
    ensures ExpiredWait(t, Dispatched(t, s, now)) + 1 <= ExpiredWait(t, s)
  {
    var f, c := Max(t.fifoBatch, 1), Choose(t, s, now);
    if c.starved == s.starved + 1 {
      var k := t.writesStarved - s.starved;
      assert k * f == (k - 1) * f + f;
    }
  }

  lemma ExpiredWaitStep(t: Tunables, s: State, e: Event, x: nat)
    requires Inv(s) && Enabled(s, e) && s.wr.fifo != [] && s.wr.fifo[0] == x && (e.Dispatch? ==> e.now >= s.expiry[x])
    requires Sent(t, s, e).Some? ==> Sent(t, s, e).value.0 != x
    ensures ExpiredWait(t, Apply(t, s, e)) + (if Sent(t, s, e).Some? then 1 else 0) <= ExpiredWait(t, s)
  {
    if e.Dispatch? && Choose(t, s, e.now).Go? {
      ExpiredWaitDispatch(t, s, e.now, x);
    }
  }

  /** Write `x` stays at the head of its FIFO, expired whenever a dispatch happens, and is not sent. */
  ghost predicate WritePassed(t: Tunables, s: State, es: seq<Event>, x: nat)
    requires Possible(t, s, es)
    decreases |es|
  {
    es == [] || (
      && s.wr.fifo != [] && s.wr.fifo[0] == x && x in s.expiry
      && (es[0].Dispatch? ==> es[0].now >= s.expiry[x])
      && (Sent(t, s, es[0]).Some? ==> Sent(t, s, es[0]).value.0 != x)
      && WritePassed(t, Apply(t, s, es[0]), es[1..], x))
  }

  lemma {:induction false} SentsWithinExpiredWait(t: Tunables, s: State, es: seq<Event>, x: nat)
    requires Inv(s) && Possible(t, s, es) && WritePassed(t, s, es, x)
    ensures Sents(t, s, es) <= ExpiredWait(t, s)
    decreases |es|
  {
    if es != [] {
      ApplyKeeps(t, s, es[0]);
      ExpiredWaitStep(t, s, es[0], x);
      SentsWithinExpiredWait(t, Apply(t, s, es[0]), es[1..], x);
    }
  }

  lemma ExpiredWaitBound(t: Tunables, s: State)
    requires Inv(s)
    ensures ExpiredWait(t, s) < (t.writesStarved + 1) * Max(t.fifoBatch, 1)
  {
    var f := Max(t.fifoBatch, 1);
    var turns := if s.starved < t.writesStarved then t.writesStarved - s.starved else 0;
    assert turns * f <= t.writesStarved * f;
    assert (t.writesStarved + 1) * f == t.writesStarved * f + f;
  }

  /** An expired write at the head of its FIFO goes after fewer than (writes_starved + 1) * fifo_batch others. */
  lemma ExpiredWriteSoon(t: Tunables, s: State, es: seq<Event>, x: nat)
    requires Inv(s) && Possible(t, s, es) && WritePassed(t, s, es, x)
    ensures Sents(t, s, es) < (t.writesStarved + 1) * Max(t.fifoBatch, 1)
  {
    SentsWithinExpiredWait(t, s, es, x);
    ExpiredWaitBound(t, s);
  }

  // ---------------------------------------------------------------- the code

  class DeadlineData {
    const t: Tunables
    var rd: Side
    var wr: Side
    var batching: nat
    var starved: nat
    var pos: map<nat, nat>
    var expiry: map<nat, nat>

    function View(): State
      reads this
    {
      State(rd, wr, batching, starved, pos, expiry)
    }

    constructor (tunables: Tunables)
      ensures View() == Init() && t == tunables && Inv(View())
    {
      t := tunables;
      rd, wr := Side([], [], None), Side([], [], None);
      batching, starved := 0, 0;
      pos, expiry := map[], map[];
    }

    method SetSide(d: Dir, sd: Side)
      modifies this
      ensures View() == WithSide(old(View()), d, sd)
    {
      if d == Read {
        rd := sd;
      } else {
        wr := sd;
      }
    }

    /** deadline_add_request. */
    method AddRequest(x: nat, d: Dir, p: nat, expire: nat)
      requires Inv(View()) && !Queued(View(), x)
      modifies this
      ensures View() == Added(old(View()), x, d, p, expire)
    {
      var sd := SideOf(View(), d);
      SetSide(d, Side(Insert(pos, sd.sort, x, p), sd.fifo + [x], sd.next));
      pos, expiry := pos[x := p], expiry[x := expire];
    }

    /** deadline_remove_request. */
    method RemoveRequest(x: nat, d: Dir)
      modifies this
      ensures View() == Removed(old(View()), x, d)
    {
      var sd := SideOf(View(), d);
      sd := sd.(fifo := Without(sd.fifo, x));
      if sd.next == Some(x) {
        sd := sd.(next := Latter(sd.sort, x));
      }
      SetSide(d, sd.(sort := Without(sd.sort, x)));
    }

    /** deadline_merged_request, for a front merge that moved the start to sector `p`. */
    method MergedRequest(x: nat, d: Dir, p: nat)
      requires Inv(View()) && x in SideOf(View(), d).sort
      modifies this
      ensures View() == FrontMerged(old(View()), x, d, p)
    {
      var sd := SideOf(View(), d);
      WithoutKnown(pos, sd.sort, x);
      var sort := Without(sd.sort, x);
      SetSide(d, sd.(sort := Insert(pos, sort, x, p)));
      pos := pos[x := p];
    }

    /** deadline_merged_requests. */
    method MergedRequests(req: nat, next: nat, d: Dir)
      requires Inv(View()) && req in expiry && next in expiry
      modifies this
      ensures View() == Merged(old(View()), req, next, d)
    {
      if expiry[next] < expiry[req] {
        var sd := SideOf(View(), d);
        SetSide(d, sd.(fifo := After(Without(sd.fifo, req), next, req)));
        expiry := expiry[req := expiry[next]];
      }
      RemoveRequest(next, d);
    }

    /** deadline_move_request. */
    method MoveRequest(x: nat, d: Dir)
      requires Inv(View())
      modifies this
      ensures View() == Moved(old(View()), Go(x, d, batching, starved)) && batching == old(batching) && starved == old(starved)
    {
      var sd := SideOf(View(), d);
      LatterIn(sd.sort, x);
      rd, wr := rd.(next := None), wr.(next := None);
      SetSide(d, sd.(next := Latter(sd.sort, x)));
      RemoveRequest(x, d);
    }

    /** deadline_dispatch_requests. */
    method DispatchRequests(now: nat) returns (sent: Option<(nat, Dir)>)
      requires Inv(View())
      modifies this
      ensures View() == Dispatched(t, old(View()), now) && sent == Sent(t, old(View()), Dispatch(now))
    {
      var next := if wr.next.Some? then wr.next else rd.next;
      var d := if wr.next.Some? then Write else Read;
      if next.Some? && batching < t.fifoBatch {
        sent := Send(next.value, d);
        return;
      }
      var dir := PickDirection();
      if dir.None? {
        return None;
      }
      var x := Find(View(), dir.value, now);
      batching := 0;
      sent := Send(x, dir.value);
    }

    /** The choice of a direction, when no batch is running. */
    method PickDirection() returns (d: Option<Dir>)
      requires Inv(View())
      modifies `starved
      ensures var p := PickDir(t, old(View()));
        if p.None? then d.None? && View() == old(View())
        else d == Some(p.value.0) && View() == old(View()).(starved := p.value.1)
      ensures d.Some? ==> SideOf(View(), d.value).fifo != [] && SideOf(View(), d.value).fifo[0] in expiry
    {
      var anyRead, anyWrite := rd.fifo != [], wr.fifo != [];
      if PickDir(t, View()).Some? {
        PickedWaits(t, View());
      }
      if anyRead {
        if anyWrite {
          starved := starved + 1;
          if starved - 1 >= t.writesStarved {
            assert wr.sort != []; // BUG_ON
            starved := 0;
            return Some(Write);
          }
        }
        return Some(Read);
      }
      if anyWrite {
        assert wr.sort != []; // BUG_ON
        starved := 0;
        return Some(Write);
      }
      d := None;
    }

    method Send(x: nat, d: Dir) returns (sent: Option<(nat, Dir)>)
      requires Inv(View().(batching := 1))
      modifies this
      ensures View() == Moved(old(View()), Go(x, d, old(batching) + 1, starved)) && starved == old(starved)
      ensures sent == Some((x, d))
    {
      batching := batching + 1;
      MoveRequest(x, d);
      sent := Some((x, d));
    }
  }
}
