/** When an insertion's reservation of size is granted, and when it is given back. */
module ProtocolReservation {
  import opened Tables
  import opened Protocol
  import opened ProtocolInvariant
  import opened ProtocolAccounts
  import opened ProtocolTheorems
  import opened ProtocolLinearization

  /** From state m to state p of a run, thread t stays where it is. */
  ghost predicate Stands(run: seq<State>, m: nat, p: nat, t: nat)
    requires m <= p < |run|
  {
    && t < |run[m].threads|
    && forall q :: m <= q <= p ==> t < |run[q].threads| && run[q].threads[t] == run[m].threads[t]
  }

  /** With the step to state m thread t reserved, and it has not gone on by state p. */
  ghost predicate Reserved(run: seq<State>, m: nat, p: nat, t: nat)
    requires 0 < m <= p < |run|
  {
    && Stands(run, m, p, t) && t < |run[m - 1].threads| && t < |run[m].threads|
    && run[m - 1].threads[t].pc.ReserveSize? && run[m].size == run[m - 1].size + 1
    && run[m].threads[t].pc.CheckSize? && run[m].threads[t].pc.reserved == run[m].size
  }

  lemma EntersCheck(s: State, t: nat, s': State)
    requires Shape(s) && t < |s.threads| && Step(s, t, s') && t < |s'.threads| && s'.threads[t].pc.CheckSize?
    requires s'.threads[t] != s.threads[t]
    ensures s.threads[t].pc.ReserveSize? && s'.size == s.size + 1 && s'.threads[t].pc.reserved == s'.size
  {
    if LookupStep(s, t, s') {
      LookupEntersNoCheck(s, t, s');
      assert false;
    } else if ReserveStep(s, t, s') {
      ReserveEntersCheck(s, t, s');
    } else {
      OthersEnterNoCheck(s, t, s');
      assert false;
    }
  }

  lemma LookupEntersNoCheck(s: State, t: nat, s': State)
    requires Shape(s) && t < |s.threads| && LookupStep(s, t, s')
    ensures t < |s'.threads| && !s'.threads[t].pc.CheckSize? && !s'.threads[t].pc.GiveBack?
  {
  }

  lemma ReserveEntersCheck(s: State, t: nat, s': State)
    requires Shape(s) && t < |s.threads| && ReserveStep(s, t, s')
    ensures t < |s'.threads|
    ensures s'.threads[t].pc.CheckSize? ==>
      s.threads[t].pc.ReserveSize? && s'.size == s.size + 1 && s'.threads[t].pc.reserved == s'.size
    ensures s'.threads[t].pc.GiveBack? ==> s.threads[t].pc.CheckSize?
  {
  }

  lemma OthersEnterNoCheck(s: State, t: nat, s': State)
    requires Shape(s) && t < |s.threads| && (EraseStep(s, t, s') || CommitStep(s, t, s') || ExclusiveStep(s, t, s'))
    ensures t < |s'.threads|
    ensures s'.threads[t] != s.threads[t] ==> !s'.threads[t].pc.CheckSize? && !s'.threads[t].pc.GiveBack?
  {
    if ExclusiveStep(s, t, s') {
      ExclusiveEntersNoCheck(s, t, s');
    } else if EraseStep(s, t, s') {
      EraseEntersNoCheck(s, t, s');
    } else {
      CommitEntersNoCheck(s, t, s');
    }
  }

  lemma ExclusiveEntersNoCheck(s: State, t: nat, s': State)
    requires Shape(s) && t < |s.threads| && ExclusiveStep(s, t, s')
    ensures t < |s'.threads|
    ensures s'.threads[t] != s.threads[t] ==> !s'.threads[t].pc.CheckSize? && !s'.threads[t].pc.GiveBack?
  {
  }

  lemma EraseEntersNoCheck(s: State, t: nat, s': State)
    requires Shape(s) && t < |s.threads| && EraseStep(s, t, s')
    ensures t < |s'.threads| && !s'.threads[t].pc.CheckSize? && !s'.threads[t].pc.GiveBack?
  {
  }

  lemma CommitEntersNoCheck(s: State, t: nat, s': State)
    requires Shape(s) && t < |s.threads| && CommitStep(s, t, s')
    ensures t < |s'.threads| && !s'.threads[t].pc.CheckSize? && !s'.threads[t].pc.GiveBack?
  {
  }

  lemma OwnMove(run: seq<State>, j: nat, t: nat)
    requires IsRun(run) && 0 < j < |run| && t < |run[j].threads|
    ensures t < |run[j - 1].threads|
    ensures run[j].threads[t] != run[j - 1].threads[t] ==> Shape(run[j - 1]) && Step(run[j - 1], t, run[j])
  {
    RunInv(run, j - 1);
    RunNext(run, j);
    var u :| 0 <= u < |run[j - 1].threads| && Step(run[j - 1], u, run[j]);
    SameThreads(run[j - 1], u, run[j]);
  }

  /** Where the reservation that is being checked was made. */
  lemma {:induction false} ReservedAt(run: seq<State>, p: nat, t: nat) returns (m: nat)
    requires IsRun(run) && p < |run| && t < |run[p].threads| && run[p].threads[t].pc.CheckSize?
    ensures 0 < m <= p && Reserved(run, m, p, t)
    decreases p
  {
    if p > 0 {
      OwnMove(run, p, t);
      if run[p].threads[t] == run[p - 1].threads[t] {
        m := ReservedAt(run, p - 1, t);
      } else {
        EntersCheck(run[p - 1], t, run[p]);
        m := p;
      }
    }
  }

  lemma CheckDecides(s: State, t: nat, s': State)
    requires Shape(s) && t < |s.threads| && Step(s, t, s') && s.threads[t].pc.CheckSize?
    ensures t < |s'.threads|
    ensures s'.threads[t].pc.GiveBack? || s'.threads[t].pc.AcquireSlot?
    ensures s'.threads[t].pc.GiveBack? <==> s.threads[t].pc.reserved > s.ml
  {
  }

  /** In every run a reservation is refused if the size it made exceeds the load limit at
      the moment of the test, and granted if it does not. */
  lemma ReservationDecided(run: seq<State>, p: nat, t: nat) returns (m: nat)
    requires IsRun(run) && p + 1 < |run| && t < |run[p].threads| && run[p].threads[t].pc.CheckSize?
    requires Moves(run, p, t)
    ensures 0 < m <= p && Reserved(run, m, p, t)
    ensures run[m].size > run[p].ml ==> run[p + 1].threads[t].pc.GiveBack?
    ensures run[m].size <= run[p].ml ==> run[p + 1].threads[t].pc.AcquireSlot?
  {
    m := ReservedAt(run, p, t);
    OwnMove(run, p + 1, t);
    CheckDecides(run[p], t, run[p + 1]);
  }

  lemma EntersGiveBack(s: State, t: nat, s': State)
    requires Shape(s) && t < |s.threads| && Step(s, t, s') && t < |s'.threads| && s'.threads[t].pc.GiveBack?
    requires s'.threads[t] != s.threads[t]
    ensures s.threads[t].pc.CheckSize?
  {
    if LookupStep(s, t, s') {
      LookupEntersNoCheck(s, t, s');
    } else if ReserveStep(s, t, s') {
      ReserveEntersCheck(s, t, s');
    } else {
      OthersEnterNoCheck(s, t, s');
    }
  }

  /** An insertion that gives up its reservation had seen a size above the load limit. */
  lemma {:induction false} RefusedWasOver(run: seq<State>, i: nat, t: nat) returns (m: nat, p: nat)
    requires IsRun(run) && i < |run| && t < |run[i].threads| && run[i].threads[t].pc.GiveBack?
    ensures 0 < m <= p < i && Reserved(run, m, p, t) && Stands(run, p + 1, i, t)
    ensures run[m].size > run[p].ml
    decreases i
  {
    if i > 0 {
      OwnMove(run, i, t);
      if run[i].threads[t] == run[i - 1].threads[t] {
        m, p := RefusedWasOver(run, i - 1, t);
      } else {
        EntersGiveBack(run[i - 1], t, run[i]);
        p := i - 1;
        m := ReservationDecided(run, p, t);
      }
    }
  }
}
