/** The ledger's laws for concurrent executions, and how far a concurrent credit can stray from the atomic one. */
module LedgerSafety {
  import opened LedgerModel
  import opened LedgerLaws
  import opened LedgerMachine
  import opened LedgerRefinement

  /** After any interleaving the committed wallets are non-negative, each is explained by its owner's rows, and
      references and stored proofs are unique. */
  lemma ConcurrentRunsKeepTheBooks(users: nat, phones: map<string, UserId>, events: seq<Event>)
    requires var m := Run(Idle(Opening(users, phones)), events);
             ProperRun(Opening(users, phones), m.log)
    ensures var l0 := Opening(users, phones);
            var m := Run(Idle(l0), events);
            Sound(m.db) && Conserved(m.db, TiesPerUser(l0, m.log, users))
  {
    var l0 := Opening(users, phones);
    EveryInterleavingRefines(l0, events);
    RunKeeps(users, phones, Run(Idle(l0), events).log);
  }

  /** A pay-in confirmed any number of times at once is credited once, if it ends SUCCESS. */
  lemma ConcurrentRunsCreditOnce(users: nat, phones: map<string, UserId>, events: seq<Event>, id: nat)
    requires var m := Run(Idle(Opening(users, phones)), events);
             && ProperRun(Opening(users, phones), m.log)
             && id < |m.db.rows| && m.db.rows[id].kind == PayIn
    ensures var l0 := Opening(users, phones);
            var m := Run(Idle(l0), events);
            CreditCount(l0, m.log, id) == if m.db.rows[id].status == Success then 1 else 0
  {
    var l0 := Opening(users, phones);
    EveryInterleavingRefines(l0, events);
    CreditedOnce(users, phones, Run(Idle(l0), events).log, id);
  }

  /** The proof a credit brings, if any, is the one its row stores, if any. */
  predicate BringsOwnProof(l: Ledger, c: Call) {
    c.CreditPayIn? ==>
      var i := IndexOf(l.rows, c.reference);
      i.Some? ==> l.rows[i.value].proof.None? || c.proof.None? || l.rows[i.value].proof == c.proof
  }

  /** The moment a call commits, the committed ledger makes exactly the step the atomic call makes on it, unless the
      call is a credit whose proof another row took since the EXISTS query. That takes a proof other than the one
      the credit's row stores. */
  lemma CommitIsAtomicIffNotLate(m: Machine, t: CallId)
    requires Coherent(m) && Indexed(m.db) && Committing(m, t)
    ensures var c := m.txns[t].call;
            var l := After(m, Advance(t)).db;
            && l == Unhindered(m.db, c).ledger
            && (Step(m.db, c) == Effect(l, Done) <==> !Late(m.db, c))
            && (Late(m.db, c) ==> !BringsOwnProof(m.db, c))
  {
    var x := m.txns[t];
    ApplyWrites(m.db, x.call);
    if Late(m.db, x.call) { LateHasOtherProof(m.db, x, x.stage.writes); }
  }

  lemma {:induction false} AdmissibleAt(l0: Ledger, log: seq<Entry>, k: nat)
    requires AdmissibleRun(l0, log) && k < |log|
    ensures LateAdmissible(Replay(l0, log[..k]), log[k])
    decreases |log|
  {
    if k < |log| - 1 {
      AdmissibleAt(l0, log[..|log| - 1], k);
      assert log[..|log| - 1][..k] == log[..k];
    }
  }

  lemma {:induction false} ReplyAt(l0: Ledger, log: seq<Entry>, replies: seq<Reply>, k: nat)
    requires |replies| == |log| && RepliesOk(l0, log, replies) && k < |log|
    ensures ReplyOk(Replay(l0, log[..k]), log[k], replies[k].outcome)
    decreases |log|
  {
    if k < |log| - 1 {
      ReplyAt(l0, log[..|log| - 1], replies[..|log| - 1], k);
      assert log[..|log| - 1][..k] == log[..k];
    }
  }

  /** Every interleaving ends where the atomic ledger ends when it runs the calls in the order they take effect or are
      refused, and every call gets the atomic answer. The one exception is a credit that the atomic ledger would refuse
      as a duplicate: it may take effect late, if it brings a proof that contradicts the stored one, or raise. */
  lemma InterleavingsAreRuns(l0: Ledger, events: seq<Event>, k: nat)
    requires Indexed(l0)
    ensures var m := Run(Idle(l0), events);
            && m.db == Replay(l0, m.log) && |m.replies| == |m.log|
            && (k < |m.log| ==>
                  var l, e := Replay(l0, m.log[..k]), m.log[k];
                  && ReplyOk(l, e, m.replies[k].outcome)
                  && (e.late ==> !BringsOwnProof(l, e.call)))
  {
    EveryInterleavingRefines(l0, events);
    var m := Run(Idle(l0), events);
    if k < |m.log| {
      AdmissibleAt(l0, m.log, k);
      ReplyAt(l0, m.log, m.replies, k);
    }
  }

  // ---- Every call is settled once ----

  /** The calls begun under the id, in order. */
  function Begun(l0: Ledger, events: seq<Event>, t: CallId): seq<Call>
    decreases |events|
  {
    if events == [] then []
    else
      var before, e := events[..|events| - 1], events[|events| - 1];
      if e.Begin? && e.t == t && t !in Run(Idle(l0), before).txns then Begun(l0, before, t) + [e.call]
      else Begun(l0, before, t)
  }

  /** The calls settled under the id, in order. */
  function SettledUnder(log: seq<Entry>, replies: seq<Reply>, t: CallId): seq<Call>
    requires |replies| == |log|
    decreases |log|
  {
    if log == [] then []
    else
      var n := |log| - 1;
      SettledUnder(log[..n], replies[..n], t) + if replies[n].t == t then [log[n].call] else []
  }

  /** The call in flight under the id, unless it has been refused already. */
  function Unsettled(m: Machine, t: CallId): seq<Call> {
    if t in m.txns && !(m.txns[t].stage.Ended? && m.txns[t].stage.outcome != Done) then [m.txns[t].call] else []
  }

  lemma SettledOneMore(log: seq<Entry>, replies: seq<Reply>, e: Entry, r: Reply, t: CallId)
    requires |replies| == |log|
    ensures SettledUnder(log + [e], replies + [r], t)
         == SettledUnder(log, replies, t) + if r.t == t then [e.call] else []
  {
    assert (log + [e])[..|log|] == log && (replies + [r])[..|log|] == replies;
  }

  lemma MoveSettles(m: Machine, s: CallId, t: CallId)
    requires s in m.txns && |m.replies| == |m.log|
    ensures var m' := Moved(m, s);
            && |m'.replies| == |m'.log|
            && SettledUnder(m'.log, m'.replies, t) + Unsettled(m', t)
               == SettledUnder(m.log, m.replies, t) + Unsettled(m, t)
  {
    var m' := Moved(m, s);
    if m'.log != m.log {
      var n := |m.log|;
      assert m'.log == m.log + [m'.log[n]] && m'.replies == m.replies + [m'.replies[n]];
      SettledOneMore(m.log, m.replies, m'.log[n], m'.replies[n], t);
    }
  }

  /** On every schedule the calls begun under an id are those settled under it, once each and in order, and then the
      call that is still unsettled, if any. So no call is lost, and none is settled twice. */
  lemma {:induction false} EveryCallIsSettledOnce(l0: Ledger, events: seq<Event>, t: CallId)
    ensures var m := Run(Idle(l0), events);
            |m.replies| == |m.log| && Begun(l0, events, t) == SettledUnder(m.log, m.replies, t) + Unsettled(m, t)
    decreases |events|
  {
    if events != [] {
      var before, e := events[..|events| - 1], events[|events| - 1];
      EveryCallIsSettledOnce(l0, before, t);
      var m := Run(Idle(l0), before);
      if e.Advance? && Enabled(m, e.t) { MoveSettles(m, e.t, t); }
    }
  }

  // ---- Reachable machines ----

  ghost predicate Reaches(l: Ledger, m: Machine) {
    exists events :: Run(Idle(l), events) == m
  }

  lemma ReachesIdle(l: Ledger)
    ensures Reaches(l, Idle(l))
  {
    assert Run(Idle(l), []) == Idle(l);
  }

  lemma ReachesNext(l: Ledger, m: Machine, e: Event)
    requires Reaches(l, m)
    ensures Reaches(l, After(m, e))
  {
    var events :| Run(Idle(l), events) == m;
    assert (events + [e])[..|events|] == events;
    assert Run(Idle(l), events + [e]) == After(m, e);
  }
}
