/** A bio that blk_queue_split cut up: its pieces are taken in one by one, and all of them are ended exactly
    when all its bytes are completed.
 */
module SplitRuns {
  import opened Segments
  import opened Requests
  import opened RequestRuns
  import opened BioSplit

  predicate Distinct(bios: seq<Bio>) {
    bios == [] || (Distinct(Front(bios)) && Last(bios).id !in Ids(Front(bios)))
  }

  predicate Disjoint(bios: seq<Bio>, entered: seq<Bio>) {
    forall x :: x in Ids(bios) ==> x !in Ids(entered)
  }

  /** The pieces of a bio have ids of their own. */
  lemma {:induction false} NumberedDistinct(pieces: seq<Bio>, next: nat)
    requires Numbered(pieces, next)
    ensures Distinct(pieces) && forall x :: x in Ids(pieces) ==> next <= x < next + |pieces|
  {
    if pieces != [] {
      NumberedDistinct(Front(pieces), next);
    }
  }

  // ---------------------------------------------------------------- the pieces are taken in

  /** Submission of the pieces, one after the other. */
  function Submits(pieces: seq<Bio>): seq<Op> {
    if pieces == [] then [] else Submits(Front(pieces)) + [Submit(Last(pieces))]
  }

  lemma RunMore(q: Limits, ops: seq<Op>, op: Op)
    ensures Run(q, ops + [op]) == Apply(q, Run(q, ops), op)
  {
    assert Front(ops + [op]) == ops;
  }

  lemma Enters(q: Limits, ops: seq<Op>, b: Bio)
    requires BioInv(q, b) && b.id !in Ids(Run(q, ops).entered)
    ensures Run(q, ops + [Submit(b)]).entered == Run(q, ops).entered + [b]
  {
    RunMore(q, ops, Submit(b));
  }

  lemma FrontLast<T>(s: seq<T>)
    requires s != []
    ensures s == Front(s) + [Last(s)]
  {
  }

  lemma FrontDisjoint(pieces: seq<Bio>, entered: seq<Bio>)
    requires pieces != [] && Distinct(pieces) && Disjoint(pieces, entered)
    ensures Distinct(Front(pieces)) && Disjoint(Front(pieces), entered) && Last(pieces).id !in Ids(entered + Front(pieces))
  {
    IdsConcat(entered, Front(pieces));
    assert Last(pieces).id in Ids(pieces);
  }

  /** Pieces that all can be relied on. */
  ghost predicate Reliable(q: Limits, pieces: seq<Bio>) {
    forall i :: 0 <= i < |pieces| ==> BioInv(q, pieces[i])
  }

  /** Pieces of a bio that is not in the system yet are all taken in. */
  lemma {:induction false} PiecesEnter(q: Limits, ops: seq<Op>, pieces: seq<Bio>)
    requires Distinct(pieces) && Disjoint(pieces, Run(q, ops).entered) && Reliable(q, pieces)
    ensures Run(q, ops + Submits(pieces)).entered == Run(q, ops).entered + pieces
  {
    if pieces == [] {
      assert ops + Submits(pieces) == ops;
    } else {
      var (front, b) := (Front(pieces), Last(pieces));
      FrontDisjoint(pieces, Run(q, ops).entered);
      PiecesEnter(q, ops, front);
      Assoc(ops, Submits(front), [Submit(b)]);
      Enters(q, ops + Submits(front), b);
      Assoc(Run(q, ops).entered, front, [b]);
      FrontLast(pieces);
    }
  }

  // ---------------------------------------------------------------- the pieces are ended

  /** The bytes of the pieces completed by a run. */
  ghost function CompletedOf(q: Limits, ops: seq<Op>, pieces: seq<Bio>): nat {
    if pieces == [] then 0 else CompletedOf(q, ops, Front(pieces)) + Completed(q, ops, Last(pieces).id)
  }

  predicate AllEnded(ended: seq<nat>, pieces: seq<Bio>) {
    forall i :: 0 <= i < |pieces| ==> pieces[i].id in ended
  }

  predicate AllEntered(entered: seq<Bio>, pieces: seq<Bio>) {
    forall i :: 0 <= i < |pieces| ==> pieces[i] in entered
  }

  lemma {:induction false} TimesUnique(entered: seq<Bio>, b: Bio)
    requires b in entered && Times(Ids(entered), b.id) <= 1
    ensures b.id in Ids(entered) && Whence(entered, b.id) == b.vecs
  {
    var (front, last) := (Front(entered), Last(entered));
    assert entered == front + [last];
    assert Front(Ids(front) + [last.id]) == Ids(front);
    if b in front {
      TimesUnique(front, b);
    }
  }

  /** A bio taken in is ended exactly when all the bytes it came with are completed. */
  lemma PieceEnds(q: Limits, ops: seq<Op>, b: Bio)
    requires b in Run(q, ops).entered
    ensures Completed(q, ops, b.id) <= BioBytes(b)
    ensures b.id in Run(q, ops).ended <==> Completed(q, ops, b.id) == BioBytes(b)
  {
    EachBioOnce(q, ops, b.id);
    TimesUnique(Run(q, ops).entered, b);
    EndedWithLastByte(q, ops, b.id);
  }

  lemma {:induction false} PiecesEnd(q: Limits, ops: seq<Op>, pieces: seq<Bio>)
    requires AllEntered(Run(q, ops).entered, pieces)
    ensures CompletedOf(q, ops, pieces) <= Size(Vecs(pieces))
    ensures AllEnded(Run(q, ops).ended, pieces) <==> CompletedOf(q, ops, pieces) == Size(Vecs(pieces))
  {
    if pieces != [] {
      PiecesEnd(q, ops, Front(pieces));
      PieceEnds(q, ops, Last(pieces));
      SizeConcat(Vecs(Front(pieces)), Last(pieces).vecs);
      AllEndedFront(Run(q, ops).ended, pieces);
    }
  }

  lemma AllEndedFront(ended: seq<nat>, pieces: seq<Bio>)
    requires pieces != []
    ensures AllEnded(ended, pieces) <==> AllEnded(ended, Front(pieces)) && Last(pieces).id in ended
  {
    assert forall i :: 0 <= i < |Front(pieces)| ==> Front(pieces)[i] == pieces[i];
  }

  /** When as many bytes of the pieces are completed as the bio has. */
  lemma TiledEnd(q: Queue, ops: seq<Op>, pieces: seq<Bio>, bio: Bio)
    requires Tiles(q, pieces, bio) && AllEntered(Run(q.lim, ops).entered, pieces)
    ensures CompletedOf(q.lim, ops, pieces) <= BioBytes(bio)
    ensures AllEnded(Run(q.lim, ops).ended, pieces) <==> CompletedOf(q.lim, ops, pieces) == BioBytes(bio)
  {
    PiecesEnd(q.lim, ops, pieces);
    assert |Bytes(Vecs(pieces))| == |Bytes(bio.vecs)|;
  }

  lemma ApplyEntered(q: Limits, s: State, op: Op, b: Bio)
    requires AllSound(q, s.rqs) && b in s.entered
    ensures b in Apply(q, s, op).entered
  {
  }

  lemma {:induction false} StaysEntered(q: Limits, ops: seq<Op>, after: seq<Op>, b: Bio)
    requires b in Run(q, ops).entered
    ensures b in Run(q, ops + after).entered
  {
    if after == [] {
      assert ops + after == ops;
    } else {
      StaysEntered(q, ops, Front(after), b);
      FrontLast(after);
      Assoc(ops, Front(after), [Last(after)]);
      RunMore(q, ops + Front(after), Last(after));
      ApplyEntered(q, Run(q, ops + Front(after)), Last(after), b);
    }
  }

  /** Pieces as SplitAll makes them of a bio that is not in the system yet, numbered past all that are. */
  ghost predicate Split(q: Queue, s: State, pieces: seq<Bio>, bio: Bio, next: nat) {
    && Tiles(q, pieces, bio) && Numbered(Front(pieces), next) && Last(pieces).id == bio.id < next
    && bio.id !in Ids(s.entered) && forall x :: x in Ids(s.entered) ==> x < next
  }

  lemma SplitEnters(q: Queue, ops: seq<Op>, pieces: seq<Bio>, bio: Bio, next: nat)
    requires Split(q, Run(q.lim, ops), pieces, bio, next)
    ensures Run(q.lim, ops + Submits(pieces)).entered == Run(q.lim, ops).entered + pieces
  {
    NumberedDistinct(Front(pieces), next);
    forall i | 0 <= i < |pieces| ensures BioInv(q.lim, pieces[i]) {
      assert BioSplit.Fits(q, pieces[i]);
    }
    PiecesEnter(q.lim, ops, pieces);
  }

  /** In every run that submits the pieces blk_queue_split makes of a bio, whatever happens before and after
      and whatever they are merged with: all pieces are taken in, and all are ended if and only if as many bytes of
      them are completed as the bio has. */
  lemma SplitEndsWithLastByte(q: Queue, before: seq<Op>, pieces: seq<Bio>, bio: Bio, next: nat, after: seq<Op>)
    requires Split(q, Run(q.lim, before), pieces, bio, next)
    ensures var ops := before + Submits(pieces) + after;
      && AllEntered(Run(q.lim, ops).entered, pieces) && CompletedOf(q.lim, ops, pieces) <= BioBytes(bio)
      && (AllEnded(Run(q.lim, ops).ended, pieces) <==> CompletedOf(q.lim, ops, pieces) == BioBytes(bio))
  {
    SplitEnters(q, before, pieces, bio, next);
    var ops := before + Submits(pieces);
    forall i | 0 <= i < |pieces| ensures pieces[i] in Run(q.lim, ops + after).entered {
      assert pieces[i] in Run(q.lim, ops).entered;
      StaysEntered(q.lim, ops, after, pieces[i]);
    }
    TiledEnd(q, ops + after, pieces, bio);
  }
}
