/** Every run of badblocks_set, badblocks_clear and ack_all_badblocks from the empty table, against a plain
    set of sectors.
 */
module BadBlockRuns {
  import opened Common
  import opened BadBlocks

  /** Calls that returned: a set that found room, a clear that did or did not, and an ack-all. */
  datatype Op =
    | Mark(s: nat, n: nat, ack: bool)
    | Unmark(s: nat, n: nat, ok: bool)
    | Acknowledge

  predicate Proper(op: Op) {
    op.Mark? ==> op.n > 0 && op.s + op.n <= LIMIT
  }

  /** How many ranges start at or before `s`, counting from the first. */
  function Starts(t: Table, s: nat): (k: nat)
    ensures k <= |t|
  {
    if t == [] then 0 else if t[|t| - 1].start <= s then |t| else Starts(t[..|t| - 1], s)
  }

  lemma {:induction false} StartsBefore(t: Table, s: nat)
    requires WellFormed(t)
    ensures Before(t, Starts(t, s), s + 1)
  {
    if t != [] {
      var n := |t| - 1;
      if t[n].start <= s {
        forall i | 0 <= i < n ensures t[i].start < s + 1 {
          assert Ordered(t, i, n) && Ok(t[i]);
        }
      } else {
        SliceForms(t, 0, n);
        assert t[0..n] == t[..n];
        StartsBefore(t[..n], s);
        forall i | Starts(t[..n], s) <= i < n ensures t[i].start >= s + 1 {
          assert t[..n][i] == t[i];
        }
      }
    }
  }

  /** The count badblocks_set finds is the only one it could. */
  lemma BeforeUnique(t: Table, k: nat, s: nat)
    requires WellFormed(t) && Before(t, k, s + 1)
    ensures k == Starts(t, s)
  {
    StartsBefore(t, s);
    var j := Starts(t, s);
    if k != j {
      var i := if k < j then k else j;
      BeforeAt(t, k, s + 1, i);
      BeforeAt(t, j, s + 1, i);
    }
  }

  lemma BeforeAt(t: Table, k: nat, x: nat, i: nat)
    requires Before(t, k, x) && i < |t|
    ensures i < k <==> t[i].start < x
  {
  }

  function Apply(t: Table, op: Op): Table {
    match op
    case Mark(s, n, ack) => Applied(t, Plan(t, Starts(t, s), s, n, ack))
    case Unmark(s, n, ok) => if ok then Cleared(t, s, s + n) else t
    case Acknowledge => Acked(t)
  }

  function Run(ops: seq<Op>): Table {
    if ops == [] then [] else Apply(Run(ops[..|ops| - 1]), ops[|ops| - 1])
  }

  predicate Among(x: nat, s: nat, n: nat) {
    s <= x < s + n
  }

  ghost function Span(s: nat, n: nat): iset<nat> {
    iset x: nat | Among(x, s, n)
  }

  /** The same calls on a set of sectors. */
  ghost function Sectors(ops: seq<Op>): iset<nat> {
    if ops == [] then iset{}
    else
      var before := Sectors(ops[..|ops| - 1]);
      match ops[|ops| - 1]
      case Mark(s, n, _) => before + Span(s, n)
      case Unmark(s, n, ok) => if ok then before - Span(s, n) else before
      case Acknowledge => before
  }

  /** Well formed, with exactly these sectors. */
  ghost predicate Records(t: Table, xs: iset<nat>) {
    WellFormed(t) && forall x: nat :: Covered(t, x) <==> x in xs
  }

  /** Every set in the run was Clean when it was called. */
  predicate CleanRun(ops: seq<Op>) {
    ops == [] || (
      var (front, op) := (ops[..|ops| - 1], ops[|ops| - 1]);
      CleanRun(front) && (op.Mark? ==> Clean(Run(front), Starts(Run(front), op.s), op.s, op.n)))
  }

  /** After every call of the run the table recorded the right sectors. */
  ghost predicate GoodRun(ops: seq<Op>) {
    Records(Run(ops), Sectors(ops)) && (ops == [] || GoodRun(ops[..|ops| - 1]))
  }

  lemma HasIsCovered(t: Table, x: nat)
    ensures Covered(t, x) <==> Has(t, x, true) || Has(t, x, false)
  {
    if Covered(t, x) {
      var i :| 0 <= i < |t| && In(t[i], x);
      assert Has(t, x, t[i].ack);
    }
  }

  lemma UnmarkRecords(t: Table, xs: iset<nat>, s: nat, n: nat)
    requires Records(t, xs)
    ensures Records(Cleared(t, s, s + n), xs - Span(s, n))
  {
    ClearedForms(t, s, s + n);
    forall x: nat ensures Covered(Cleared(t, s, s + n), x) <==> x in xs - Span(s, n) {
      assert x in Span(s, n) <==> Among(x, s, n);
      HasIsCovered(t, x);
      HasIsCovered(Cleared(t, s, s + n), x);
      ClearedHas(t, s, s + n, x, true);
      ClearedHas(t, s, s + n, x, false);
    }
  }

  lemma AcknowledgeRecords(t: Table, xs: iset<nat>)
    requires Records(t, xs)
    ensures Records(Acked(t), xs)
  {
    var r := Acked(t);
    forall i, j | 0 <= i < j < |r| ensures Ordered(r, i, j) {
      assert Ordered(t, i, j);
    }
    forall i | 0 <= i < |r| ensures Ok(r[i]) {
      assert Ok(t[i]);
    }
    forall x: nat ensures Covered(r, x) <==> Covered(t, x) {
      if Covered(t, x) {
        var i :| 0 <= i < |t| && In(t[i], x);
        assert In(r[i], x);
      }
      if Covered(r, x) {
        var i :| 0 <= i < |r| && In(r[i], x);
        assert In(t[i], x);
      }
    }
  }

  lemma MarkRecords(t: Table, xs: iset<nat>, s: nat, n: nat, ack: bool)
    requires Records(t, xs) && n > 0 && s + n <= LIMIT
    ensures Records(Applied(t, Plan(t, Starts(t, s), s, n, ack)), xs + Span(s, n))
       <==> Clean(t, Starts(t, s), s, n)
  {
    StartsBefore(t, s);
    SetExact(t, Starts(t, s), s, n, ack);
    var t', ys := Applied(t, Plan(t, Starts(t, s), s, n, ack)), xs + Span(s, n);
    if Records(t', ys) {
      forall x: nat ensures Covered(t', x) <==> Covered(t, x) || s <= x < s + n {
        assert Covered(t', x) <==> x in ys;
      }
      assert Exact(t, t', s, n);
    }
  }

  /** From the empty table, the sectors recorded are the ones marked and not cleared since, after every call,
      if and only if every set was Clean. */
  lemma {:induction false} TableIsSet(ops: seq<Op>)
    requires forall i :: 0 <= i < |ops| ==> Proper(ops[i])
    ensures GoodRun(ops) <==> CleanRun(ops)
  {
    if ops != [] {
      var front, op := ops[..|ops| - 1], ops[|ops| - 1];
      TableIsSet(front);
      if GoodRun(front) {
        match op
        case Mark(s, n, ack) => MarkRecords(Run(front), Sectors(front), s, n, ack);
        case Unmark(s, n, ok) => UnmarkRecords(Run(front), Sectors(front), s, n);
        case Acknowledge => AcknowledgeRecords(Run(front), Sectors(front));
      }
    }
  }
}
