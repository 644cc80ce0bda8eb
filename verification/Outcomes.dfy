/** The outcome of a message, and the bookkeeping of day blocks that are not yet stored or failed. */
module Outcomes {
  import opened Calendar
  import opened Rows
  import opened Regroup
  import opened StoreSpec
  import opened ImportSpec
  import opened Runs
  import opened World

  const MAX_IMPORT_ERRORS := 5

  /** The errors of failed day blocks: the first few listed, the rest counted; a meta record error
      is always listed. */
  datatype ImportErrors = ImportErrors(listed: seq<(Energy, StoreError)>, omitted: nat)
  {
    function Add(e: Energy, err: StoreError): (r: ImportErrors)
      ensures r.Failed()
    {
      if |listed| < MAX_IMPORT_ERRORS || err == MetaRecord then ImportErrors(listed + [(e, err)], omitted)
      else ImportErrors(listed, omitted + 1)
    }

    predicate Failed() {
      listed != []
    }

    function Err(): Outcome {
      if listed == [] then Ok else Outcome.Failed(this)
    }
  }

  /** Ok: every day block is stored. Stopped: the dispatcher closes, the message stays unacked. */
  datatype Outcome = Ok | Stopped | NotOpened | Failed(errors: ImportErrors)

  const NO_ERRORS := ImportErrors([], 0)

  /** The blocks are stored according to the log. */
  ghost predicate StoredIn(log: seq<Attempt>, bs: seq<Block>) {
    forall b :: b in bs ==> Done(b.point, b.energy) in log
  }

  /** A single store of one of the blocks was refused with this error. */
  ghost predicate RefusedOne(bs: seq<Block>, l: (Energy, StoreError), log: seq<Attempt>) {
    exists b :: b in bs && b.energy == l.0 && Refused(b.point, b.energy, l.1) in log
  }

  /** The errors list refused blocks, at least one. */
  ghost predicate FailedBy(errors: ImportErrors, bs: seq<Block>, log: seq<Attempt>) {
    errors.Failed() && forall l :: l in errors.listed ==> RefusedOne(bs, l, log)
  }

  /** What an outcome says about a message: stored means that every day block is; failed that single
      stores refused blocks of this message, those listed; not opened and stopped that this happened. */
  ghost predicate Verdict(z: Zone, out: Outcome, m: Message, log: seq<Attempt>, ended: bool) {
    && (out == Ok ==> StoredIn(log, BlocksOf(z, m)))
    && (out.Failed? ==> FailedBy(out.errors, BlocksOf(z, m), log))
    && (out == NotOpened ==> Unopened in log)
    && (out == Stopped ==> ended)
  }

  ghost predicate Within(log: seq<Attempt>, log': seq<Attempt>) {
    forall a :: a in log ==> a in log'
  }

  /** A longer log and a later context keep the verdict. */
  lemma VerdictLater(z: Zone, out: Outcome, m: Message, log: seq<Attempt>, ended: bool, log': seq<Attempt>, ended': bool)
    requires Verdict(z, out, m, log, ended) && Within(log, log') && (ended ==> ended')
    ensures Verdict(z, out, m, log', ended')
  {
    if out.Failed? {
      FailedLater(out.errors, BlocksOf(z, m), log, log');
    }
  }

  lemma FailedLater(errors: ImportErrors, bs: seq<Block>, log: seq<Attempt>, log': seq<Attempt>)
    requires FailedBy(errors, bs, log) && Within(log, log')
    ensures FailedBy(errors, bs, log')
  {
    forall l | l in errors.listed ensures RefusedOne(bs, l, log') {
      var b :| b in bs && b.energy == l.0 && Refused(b.point, b.energy, l.1) in log;
      assert Refused(b.point, b.energy, l.1) in log';
    }
  }

  // ----- refusals -----

  /** How often a single store was refused or the store could not be opened. */
  function Refusals(log: seq<Attempt>): nat {
    if log == [] then 0 else Refusals(log[..|log| - 1]) + if log[|log| - 1].Done? then 0 else 1
  }

  lemma RefusalsNext(log: seq<Attempt>, a: Attempt)
    ensures Refusals(log + [a]) == Refusals(log) + if a.Done? then 0 else 1
  {
    assert (log + [a])[..|log|] == log;
  }

  lemma {:induction false} RefusalsConcat(a: seq<Attempt>, b: seq<Attempt>)
    ensures Refusals(a + b) == Refusals(a) + Refusals(b)
    decreases |b|
  {
    if b == [] {
      assert a + b == a;
    } else {
      var n := |b| - 1;
      assert a + b == (a + b[..n]) + [b[n]];
      RefusalsConcat(a, b[..n]);
      RefusalsNext(a + b[..n], b[n]);
    }
  }

  lemma {:induction false} NoRefusals(log: seq<Attempt>)
    ensures Refusals(log) == 0 <==> forall a :: a in log ==> a.Done?
  {
    if log != [] {
      NoRefusals(log[..|log| - 1]);
      assert log == log[..|log| - 1] + [log[|log| - 1]];
    }
  }

  /** The errors of single stores, in their order. */
  function Charge(errors: ImportErrors, tries: seq<Attempt>): ImportErrors {
    if tries == [] then errors
    else
      var a, before := tries[|tries| - 1], Charge(errors, tries[..|tries| - 1]);
      if a.Refused? then before.Add(a.energy, a.error) else before
  }

  lemma ChargeNext(errors: ImportErrors, tries: seq<Attempt>, a: Attempt)
    ensures Charge(errors, tries + [a]) == if a.Refused? then Charge(errors, tries).Add(a.energy, a.error) else Charge(errors, tries)
  {
    assert (tries + [a])[..|tries|] == tries;
  }

  lemma {:induction false} ChargeFails(tries: seq<Attempt>)
    requires forall k :: 0 <= k < |tries| ==> tries[k] != Unopened
    ensures Charge(NO_ERRORS, tries).Failed() <==> Refusals(tries) > 0
  {
    if tries != [] {
      ChargeFails(tries[..|tries| - 1]);
    }
  }

  /** Storing the block on its own was tried. */
  predicate TriedOne(b: Block, a: Attempt) {
    a == Done(b.point, b.energy) || (a.Refused? && a.point == b.point && a.energy == b.energy)
  }

  predicate Fatal(a: Attempt) {
    a.Refused? && a.error == MetaRecord
  }

  /** The blocks were tried one after the other, all of them or up to a meta record error. */
  ghost predicate Tried(bs: seq<Block>, tries: seq<Attempt>, fatal: bool) {
    && |tries| <= |bs|
    && (forall k :: 0 <= k < |tries| ==> TriedOne(bs[k], tries[k]))
    && (forall k :: 0 <= k < |tries| - 1 ==> !Fatal(tries[k]))
    && (if fatal then tries != [] && Fatal(tries[|tries| - 1]) else |tries| == |bs| && (tries != [] ==> !Fatal(tries[|tries| - 1])))
  }

  lemma TriedNext(bs: seq<Block>, tries: seq<Attempt>, b: Block, a: Attempt)
    requires Tried(bs, tries, false) && TriedOne(b, a)
    ensures Tried(bs + [b], tries + [a], Fatal(a))
  {
  }

  lemma TriedMore(bs: seq<Block>, tries: seq<Attempt>, more: seq<Block>)
    requires Tried(bs, tries, true)
    ensures Tried(bs + more, tries, true)
  {
  }

  /** The errors charged for tried blocks name refused ones. */
  lemma {:induction false} ChargeNames(bs: seq<Block>, tries: seq<Attempt>, l: (Energy, StoreError))
    requires |tries| <= |bs| && (forall k :: 0 <= k < |tries| ==> TriedOne(bs[k], tries[k])) && l in Charge(NO_ERRORS, tries).listed
    ensures RefusedOne(bs, l, tries)
    decreases |tries|
  {
    if tries != [] {
      var n := |tries| - 1;
      if l in Charge(NO_ERRORS, tries[..n]).listed {
        ChargeNames(bs, tries[..n], l);
        var b :| b in bs && b.energy == l.0 && Refused(b.point, b.energy, l.1) in tries[..n];
        assert Refused(b.point, b.energy, l.1) in tries;
      } else {
        assert bs[n] in bs && tries[n] == Refused(bs[n].point, bs[n].energy, l.1);
      }
    }
  }

  /** A message whose blocks were tried one by one fails by its refused blocks. */
  lemma TriedFails(bs: seq<Block>, tries: seq<Attempt>, fatal: bool)
    requires Tried(bs, tries, fatal)
    ensures Charge(NO_ERRORS, tries).Failed() ==> FailedBy(Charge(NO_ERRORS, tries), bs, tries)
    ensures Refusals(tries) == 0 ==> |tries| == |bs| && StoredIn(tries, bs)
  {
    forall l | l in Charge(NO_ERRORS, tries).listed ensures RefusedOne(bs, l, tries) {
      ChargeNames(bs, tries, l);
    }
    if Refusals(tries) == 0 {
      NoRefusals(tries);
      assert tries != [] ==> tries[|tries| - 1] in tries;
      forall b | b in bs ensures Done(b.point, b.energy) in tries {
        var k :| 0 <= k < |bs| && bs[k] == b;
        assert tries[k] in tries;
      }
    }
  }

  // ----- day blocks with their message -----

  datatype Owned = Owned(block: Block, owner: nat)

  function Blocks(os: seq<Owned>): (r: seq<Block>)
    ensures |r| == |os| && forall i :: 0 <= i < |r| ==> r[i] == os[i].block
  {
    seq(|os|, i requires 0 <= i < |os| => os[i].block)
  }

  function OwnedDay(z: Zone): Owned -> int {
    (o: Owned) => z.DayStart(o.block.energy.start)
  }

  function CountOwner(os: seq<Owned>, i: nat): nat {
    if os == [] then 0 else (if os[0].owner == i then 1 else 0) + CountOwner(os[1..], i)
  }

  lemma {:induction false} CountConcat(a: seq<Owned>, b: seq<Owned>, i: nat)
    ensures CountOwner(a + b, i) == CountOwner(a, i) + CountOwner(b, i)
  {
    if a == [] {
      assert a + b == b;
    } else {
      assert (a + b)[1..] == a[1..] + b;
      CountConcat(a[1..], b, i);
    }
  }

  lemma {:induction false} CountZero(os: seq<Owned>, i: nat)
    requires CountOwner(os, i) == 0
    ensures forall o :: o in os ==> o.owner != i
  {
    if os != [] {
      CountZero(os[1..], i);
    }
  }

  /** pending[i] of the source, a missing entry being 0. */
  function Pending(pending: map<nat, nat>, i: nat): nat {
    if i in pending then pending[i] else 0
  }

  /** pending counts the blocks left, message by message. */
  ghost predicate PendingIs(pending: map<nat, nat>, left: seq<Owned>) {
    forall i: nat :: Pending(pending, i) == CountOwner(left, i)
  }

  lemma PendingDone(pending: map<nat, nat>, o: Owned, left: seq<Owned>)
    requires PendingIs(pending, [o] + left)
    ensures 0 < Pending(pending, o.owner)
    ensures PendingIs(pending[o.owner := Pending(pending, o.owner) - 1], left)
  {
    assert ([o] + left)[1..] == left;
    assert Pending(pending, o.owner) == CountOwner([o] + left, o.owner);
    forall i: nat ensures CountOwner([o] + left, i) == (if o.owner == i then 1 else 0) + CountOwner(left, i) {
    }
  }

  lemma PendingMore(pending: map<nat, nat>, o: Owned, left: seq<Owned>)
    requires PendingIs(pending, left)
    ensures PendingIs(pending[o.owner := Pending(pending, o.owner) + 1], left + [o])
  {
    forall i: nat ensures CountOwner(left + [o], i) == CountOwner(left, i) + if o.owner == i then 1 else 0 {
      CountConcat(left, [o], i);
      assert [o][1..] == [];
    }
  }

  /** Errors by message; a message without an entry has none. */
  type Errors = map<nat, ImportErrors>

  function ErrorsOf(errors: Errors, i: nat): ImportErrors {
    if i in errors then errors[i] else NO_ERRORS
  }

  ghost predicate RefusedIn(log: seq<Attempt>, b: Block) {
    exists err :: Refused(b.point, b.energy, err) in log
  }

  /** The block is stored, or it was refused and its message has an error. */
  ghost predicate Settled(o: Owned, log: seq<Attempt>, errors: Errors) {
    Done(o.block.point, o.block.energy) in log || (RefusedIn(log, o.block) && ErrorsOf(errors, o.owner).Failed())
  }

  /** Every block is settled or still left. */
  ghost predicate Accounted(all: seq<Owned>, left: seq<Owned>, log: seq<Attempt>, errors: Errors) {
    forall o :: o in all ==> o in left || Settled(o, log, errors)
  }

  ghost predicate KeepsErrors(errors: Errors, errors': Errors) {
    forall i: nat :: ErrorsOf(errors, i).Failed() ==> ErrorsOf(errors', i).Failed()
  }

  lemma AccountedLater(all: seq<Owned>, left: seq<Owned>, log: seq<Attempt>, errors: Errors,
                       left': seq<Owned>, log': seq<Attempt>, errors': Errors)
    requires Accounted(all, left, log, errors) && log <= log' && KeepsErrors(errors, errors')
    requires forall o :: o in left ==> o in left' || Settled(o, log', errors')
    ensures Accounted(all, left', log', errors')
  {
    forall a | a in log ensures a in log' {
      var i :| 0 <= i < |log| && log[i] == a;
      assert log'[i] == a;
    }
    forall o | o in all ensures o in left' || Settled(o, log', errors') {
      if o !in left && RefusedIn(log, o.block) {
        var err :| Refused(o.block.point, o.block.energy, err) in log;
        assert Refused(o.block.point, o.block.energy, err) in log';
      }
    }
  }

  /** A refused block of the message with this error. */
  ghost predicate RefusedOwned(all: seq<Owned>, i: nat, l: (Energy, StoreError), log: seq<Attempt>) {
    exists o :: o in all && o.owner == i && o.block.energy == l.0 && Refused(o.block.point, o.block.energy, l.1) in log
  }

  /** Errors only of messages with refused blocks, and no more of them than refusals. */
  ghost predicate Charged(all: seq<Owned>, log: seq<Attempt>, errors: Errors) {
    && (forall i :: i in errors ==> errors[i].Failed())
    && (forall i, l :: i in errors && l in errors[i].listed ==> RefusedOwned(all, i, l, log))
    && |errors| <= Refusals(log)
  }

  lemma ChargedLater(all: seq<Owned>, log: seq<Attempt>, more: seq<Attempt>, errors: Errors)
    requires Charged(all, log, errors)
    ensures Charged(all, log + more, errors)
  {
    RefusalsConcat(log, more);
    forall i, l | i in errors && l in errors[i].listed ensures RefusedOwned(all, i, l, log + more) {
      assert RefusedOwned(all, i, l, log);
      var o :| o in all && o.owner == i && o.block.energy == l.0 && Refused(o.block.point, o.block.energy, l.1) in log;
      assert Refused(o.block.point, o.block.energy, l.1) in log + more;
    }
  }

  /** A refused block is charged to its message. */
  lemma ChargedMore(all: seq<Owned>, log: seq<Attempt>, errors: Errors, o: Owned, err: StoreError)
    requires Charged(all, log, errors) && o in all
    ensures Charged(all, log + [Refused(o.block.point, o.block.energy, err)], errors[o.owner := ErrorsOf(errors, o.owner).Add(o.block.energy, err)])
  {
    var a := Refused(o.block.point, o.block.energy, err);
    var errors' := errors[o.owner := ErrorsOf(errors, o.owner).Add(o.block.energy, err)];
    ChargedLater(all, log, [a], errors);
    RefusalsNext(log, a);
    assert errors'.Keys == errors.Keys + {o.owner};
    assert a in log + [a];
    forall i, l | i in errors' && l in errors'[i].listed ensures RefusedOwned(all, i, l, log + [a]) {
      if i in errors && l in errors[i].listed {
        assert RefusedOwned(all, i, l, log + [a]);
      } else {
        assert i == o.owner && l == (o.block.energy, err);
      }
    }
  }

  /** all holds a copy of the block under the owner. */
  ghost predicate Has(all: seq<Owned>, owner: nat, b: Block) {
    exists o :: o in all && o.owner == owner && o.block.point == b.point && o.block.energy == b.energy
  }

  /** A message of which no block is left and that has no error is stored. */
  lemma NothingLeft(all: seq<Owned>, left: seq<Owned>, log: seq<Attempt>, errors: Errors, pending: map<nat, nat>, i: nat, bs: seq<Block>)
    requires Accounted(all, left, log, errors) && PendingIs(pending, left)
    requires forall b :: b in bs ==> Has(all, i, b)
    requires Pending(pending, i) == 0 && !ErrorsOf(errors, i).Failed()
    ensures StoredIn(log, bs)
  {
    CountZero(left, i);
    forall b | b in bs ensures Done(b.point, b.energy) in log {
      var o :| o in all && o.owner == i && o.block.point == b.point && o.block.energy == b.energy;
      assert Settled(o, log, errors);
    }
  }
}
