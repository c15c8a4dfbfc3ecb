/**
 Whole runs.  Every reachable state satisfies the invariant, so the corruption errors
 of the code are unreachable; some busy thread can always move.
 */
module BLinkRuns {
  import opened BLinkMachine
  import opened BLinkInvariant
  import opened BLinkSteps
  import opened BLinkWrites
  import opened BLinkParents

  // ---------- one step ----------

  lemma NotFaulted(v: Shared, t: Tid, pc: Pc)
    requires Thread(v, t, pc)
    ensures !pc.Fault?
  {
  }

  lemma EveryStepGood(v: Shared, t: Tid, pc: Pc, x: Choice)
    requires SharedOk(v) && Thread(v, t, pc) && CanMove(v, pc, x)
    ensures Good(v, t, Step(v, t, pc, x))
  {
    hide SharedOk, Thread, Good;
    NotFaulted(v, t, pc);
    match pc
    case Idle => GoodIdle(v, t, x.op);
    case Begin(op) => GoodBegin(v, t, op, x.recid);
    case Reading(op, cur) => GoodReading(v, t, op, cur);
    case Descending(op, cur, stack) => GoodDescending(v, t, op, cur, stack);
    case LeafWait(op, cur, stack) => GoodLeafWait(v, t, op, cur, stack);
    case LeafHeld(op, cur, stack) => GoodLeafHeld(v, t, op, cur, stack);
    case LeafMove(op, cur, next, stack) => GoodLeafMove(v, t, op, cur, next, stack);
    case LeafOwned(op, cur, n, stack) => GoodLeafOwned(v, t, op, cur, n, stack);
    case LeafStore(op, cur, n, root, stack) => GoodLeafStore(v, t, op, cur, n, root, stack, x.recid);
    case LeafPublish(op, cur, n, root, q, stack) => GoodLeafPublish(v, t, op, cur, n, root, q, stack);
    case Firing(op, cur, event, carry) => GoodFiring(v, t, op, cur, event, carry);
    case LeafFree(op, cur, res, carry) => GoodLeafFree(v, t, op, cur, res, carry);
    case Rising(c) => GoodRising(v, t, c);
    case DirWait(c, cur) => GoodDirWait(v, t, c, cur);
    case DirHeld(c, cur) => GoodDirHeld(v, t, c, cur);
    case DirMove(c, cur, next) => GoodDirMove(v, t, c, cur, next);
    case DirOwned(c, cur, n) => GoodDirOwned(v, t, c, cur, n);
    case DirStore(c, cur, n, root) => GoodDirStore(v, t, c, cur, n, root, x.recid);
    case DirPublish(c, cur, n, root, q) => GoodDirPublish(v, t, c, cur, n, root, q);
    case DirFree(op, cur, carry) => GoodDirFree(v, t, op, cur, carry);
    case RootWait(c) => GoodRootWait(v, t, c);
    case RootStore(c) => GoodRootStore(v, t, c, x.recid);
    case RootPublish(c, q) => GoodRootPublish(v, t, c, q);
    case RootEdge(c, q) => GoodRootEdge(v, t, c, q);
    case RootFree(c) => GoodRootFree(v, t, c);
    case Done(op, res) => GoodDone(v, t, op, res);
  }

  lemma OwnersStay(v: Shared, v': Shared, t: Tid, ts: set<Tid>)
    requires OwnersKnown(v, ts) && Guarantee(v, v', t) && t in ts
    ensures OwnersKnown(v', ts)
  {
    forall r | r in v'.locks ensures v'.locks[r] in ts {
      assert Owns(v'.locks, v'.locks[r], r);
    }
    forall r | r in v'.hidden ensures v'.hidden[r] in ts {
      assert Owns(v'.hidden, v'.hidden[r], r);
    }
  }

  lemma OthersStay(v: Shared, v': Shared, t: Tid, u: Tid, pc: Pc)
    requires SharedOk(v) && Guarantee(v, v', t) && u != t && Thread(v, u, pc)
    ensures Thread(v', u, pc)
  {
    hide SharedOk, PcOk, Accounts, Guarantee, HeldPublished;
    HeldIsPublished(v, t);
    Stable(v, v', t, u, pc);
    AccountsStable(v, v', t, u, pc);
  }

  /** Every step of every thread keeps the invariant. */
  lemma StepKeepsInv(s: State, t: Tid, x: Choice)
    requires Inv(s) && Can(s, t, x)
    ensures Inv(Next(s, t, x))
  {
    hide SharedOk, PcOk, Accounts, Thread, Guarantee, OwnersKnown, Step, CanMove;
    assert Thread(s.v, t, s.pcs[t]);
    EveryStepGood(s.v, t, s.pcs[t], x);
    var m := Step(s.v, t, s.pcs[t], x);
    var s' := Next(s, t, x);
    OwnersStay(s.v, m.v, t, s.pcs.Keys);
    assert s'.pcs.Keys == s.pcs.Keys;
    forall u | u in s'.pcs ensures Thread(s'.v, u, s'.pcs[u]) {
      if u != t {
        assert Thread(s.v, u, s.pcs[u]);
        OthersStay(s.v, m.v, t, u, s.pcs[u]);
      }
    }
  }
}
