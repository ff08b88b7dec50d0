/** Calls take their locks in one global order, except that a transfer inserts its two rows one after the other. So
    calls can wait for each other in a circle only if transfers have drawn each other's references, and otherwise
    every call in flight can be driven to its end.
 */
module LedgerProgress {
  import opened Numeric
  import opened LedgerModel
  import opened LedgerMachine
  import opened LedgerRefinement

  /** The order of locking: a ledger row, then wallets by ascending user_id, then a proof, then references. */
  function Rank(l: Ledger, k: Key): nat {
    match k
    case RowKey(_) => 0
    case WalletKey(u) => 1 + u
    case ProofKey(_, _) => 1 + |l.balances|
    case ReferenceKey(_) => 2 + |l.balances|
  }

  /** A call asks for a key above every key it holds, unless it is a transfer that has inserted the sender's row. */
  lemma LocksInOrder(l: Ledger, x: Txn)
    requires StageOk(l, x) && Wants(l, x).Some?
    ensures Rank(l, Wants(l, x).value) <= 2 + |l.balances|
    ensures forall h :: h in x.held ==>
              || Rank(l, h) < Rank(l, Wants(l, x).value)
              || (x.stage.SenderInserted? && h == ReferenceKey(x.call.senderReference)
                  && Wants(l, x).value == ReferenceKey(x.call.recipientReference))
  {
  }

  /** Index entries of references that a call holds are its own. */
  lemma HoldsOwnReferences(l: Ledger, x: Txn, r: string)
    requires StageOk(l, x) && !x.stage.Ended? && ReferenceKey(r) in x.held
    ensures x.stage.SenderInserted? && r == x.call.senderReference
  {
  }

  ghost predicate WaitsFor(m: Machine, s: CallId, t: CallId) {
    && s in m.txns
    && var k := Wants(m.db, m.txns[s]);
    k.Some? && Blocks(m, s, k.value, t)
  }

  ghost predicate WaitChain(m: Machine, chain: seq<CallId>) {
    forall i :: 0 <= i < |chain| - 1 ==> WaitsFor(m, chain[i], chain[i + 1])
  }

  /** Both are transfers that have inserted the sender's row, and the first needs the reference of the second's. */
  predicate Draws(m: Machine, s: CallId, t: CallId) {
    && s in m.txns && t in m.txns
    && m.txns[s].stage.SenderInserted? && m.txns[s].call.Transfer?
    && m.txns[t].stage.SenderInserted? && m.txns[t].call.Transfer?
    && m.txns[s].call.recipientReference == m.txns[t].call.senderReference
  }

  /** Where in the order the key lies that the call waits for. */
  function Height(m: Machine, t: CallId): nat {
    if t in m.txns && Wants(m.db, m.txns[t]).Some? then Rank(m.db, Wants(m.db, m.txns[t]).value) else 0
  }

  predicate Wanting(m: Machine, t: CallId) {
    t in m.txns && Wants(m.db, m.txns[t]).Some?
  }

  /** Along a wait one climbs in the order, except from one transfer's reference to another's. */
  lemma WaitClimbs(m: Machine, s: CallId, t: CallId)
    requires Coherent(m) && WaitsFor(m, s, t) && Wanting(m, t)
    ensures Height(m, s) < Height(m, t) || (Height(m, s) == Height(m, t) && m.txns[t].stage.SenderInserted?)
  {
    LocksInOrder(m.db, m.txns[t]);
  }

  lemma {:induction false} ChainClimbs(m: Machine, chain: seq<CallId>)
    requires Coherent(m) && |chain| >= 2 && WaitChain(m, chain)
    requires forall i :: 0 <= i < |chain| ==> Wanting(m, chain[i])
    ensures Height(m, chain[0]) <= Height(m, chain[|chain| - 1])
    decreases |chain|
  {
    assert WaitsFor(m, chain[0], chain[1]);
    WaitClimbs(m, chain[0], chain[1]);
    if |chain| > 2 {
      RestOfChain(m, chain);
      ChainClimbs(m, chain[1..]);
    }
  }

  lemma RestOfChain(m: Machine, chain: seq<CallId>)
    requires WaitChain(m, chain) && |chain| > 1
    ensures WaitChain(m, chain[1..])
  {
    forall i | 0 <= i < |chain[1..]| - 1 ensures WaitsFor(m, chain[1..][i], chain[1..][i + 1]) {
      assert WaitsFor(m, chain[i + 1], chain[i + 2]);
    }
  }

  // ---- Circles ----

  ghost predicate Circle(m: Machine, chain: seq<CallId>) {
    |chain| >= 2 && WaitChain(m, chain) && chain[0] == chain[|chain| - 1]
  }

  lemma CircleWants(m: Machine, chain: seq<CallId>, i: nat)
    requires Circle(m, chain) && i < |chain|
    ensures Wanting(m, chain[i])
  {
    assert WaitsFor(m, chain[0], chain[1]);
    if i < |chain| - 1 { assert WaitsFor(m, chain[i], chain[i + 1]); }
  }

  lemma CirclePart(m: Machine, chain: seq<CallId>, i: nat, j: nat)
    requires Coherent(m) && Circle(m, chain) && i < j < |chain|
    ensures Height(m, chain[i]) <= Height(m, chain[j])
  {
    var part := chain[i..j + 1];
    forall k | 0 <= k < |part| ensures Wanting(m, part[k]) {
      CircleWants(m, chain, i + k);
    }
    forall k | 0 <= k < |part| - 1 ensures WaitsFor(m, part[k], part[k + 1]) {
      assert WaitsFor(m, chain[i + k], chain[i + k + 1]);
    }
    ChainClimbs(m, part);
  }

  /** In a circle everyone waits for a reference. */
  lemma CircleIsLevel(m: Machine, chain: seq<CallId>, i: nat)
    requires Coherent(m) && Circle(m, chain) && i < |chain|
    ensures chain[i] in m.txns && m.txns[chain[i]].stage.SenderInserted?
    decreases if i == 0 then |chain| else i
  {
    var last := |chain| - 1;
    if i == 0 {
      CircleIsLevel(m, chain, last);
    } else {
      CircleWants(m, chain, i - 1);
      CircleWants(m, chain, i);
      assert WaitsFor(m, chain[i - 1], chain[i]);
      WaitClimbs(m, chain[i - 1], chain[i]);
      if i < last { CirclePart(m, chain, i, last); }
      if i > 1 { CirclePart(m, chain, 0, i - 1); }
    }
  }

  /** After any schedule of any mix of calls, a circle in the wait-for graph is a circle of transfers, each of which
      draws as its recipient's reference what the next one draws as its sender's. */
  lemma DeadlockNeedsDraws(l0: Ledger, events: seq<Event>, chain: seq<CallId>, i: nat)
    requires Indexed(l0) && Circle(Run(Idle(l0), events), chain) && i < |chain| - 1
    ensures Draws(Run(Idle(l0), events), chain[i], chain[i + 1])
  {
    EveryInterleavingRefines(l0, events);
    CircleDraws(Run(Idle(l0), events), chain, i);
  }

  lemma CircleDraws(m: Machine, chain: seq<CallId>, i: nat)
    requires Coherent(m) && Circle(m, chain) && i < |chain| - 1
    ensures Draws(m, chain[i], chain[i + 1])
  {
    CircleIsLevel(m, chain, i);
    CircleIsLevel(m, chain, i + 1);
    assert WaitsFor(m, chain[i], chain[i + 1]);
    HoldsOwnReferences(m.db, m.txns[chain[i + 1]], m.txns[chain[i]].call.recipientReference);
  }

  /** The calls in flight have drawn different references. */
  ghost predicate Apart(m: Machine) {
    forall s, t :: s in m.txns && t in m.txns && s != t ==>
      NewReferences(m.txns[s].call) !! NewReferences(m.txns[t].call)
  }

  lemma DrawsMeet(m: Machine, s: CallId, t: CallId)
    requires Draws(m, s, t)
    ensures !(NewReferences(m.txns[s].call) !! NewReferences(m.txns[t].call))
  {
    assert m.txns[s].call.recipientReference in NewReferences(m.txns[s].call);
    assert m.txns[t].call.senderReference in NewReferences(m.txns[t].call);
  }

  /** As long as the calls in flight have drawn different references, the wait-for graph has no circle. */
  lemma NoDeadlock(l0: Ledger, events: seq<Event>, chain: seq<CallId>)
    requires Indexed(l0) && Apart(Run(Idle(l0), events))
    ensures !Circle(Run(Idle(l0), events), chain)
  {
    var m := Run(Idle(l0), events);
    EveryInterleavingRefines(l0, events);
    if Circle(m, chain) {
      CircleDraws(m, chain, 0);
      assert WaitsFor(m, chain[0], chain[1]);
      DrawsMeet(m, chain[0], chain[1]);
    }
  }

  lemma WantsOwnReference(l: Ledger, x: Txn, r: string)
    requires StageOk(l, x) && Wants(l, x) == Some(ReferenceKey(r))
    ensures r in NewReferences(x.call)
  {
  }

  /** Among calls with different references every wait climbs. */
  lemma WaitClimbsApart(m: Machine, s: CallId, t: CallId)
    requires Coherent(m) && Apart(m) && WaitsFor(m, s, t) && Wanting(m, t)
    ensures Height(m, s) < Height(m, t)
  {
    LocksInOrder(m.db, m.txns[t]);
    var k := Wants(m.db, m.txns[s]).value;
    if k.ReferenceKey? {
      WantsOwnReference(m.db, m.txns[s], k.reference);
      HoldsOwnReferences(m.db, m.txns[t], k.reference);
    }
  }

  /** Follows who waits for whom from `t` to a call that can step. */
  lemma {:induction false} SomeoneCanStep(m: Machine, t: CallId) returns (s: CallId)
    requires Coherent(m) && Apart(m) && t in m.txns
    ensures Enabled(m, s)
    decreases var k := Wants(m.db, m.txns[t]);
              if k.Some? then 3 + |m.db.balances| - Rank(m.db, k.value) else 0
  {
    if Enabled(m, t) {
      s := t;
    } else {
      var k := Wants(m.db, m.txns[t]).value;
      var holder :| holder in m.txns && Blocks(m, t, k, holder);
      assert WaitsFor(m, t, holder);
      LocksInOrder(m.db, m.txns[t]);
      if Wants(m.db, m.txns[holder]).Some? {
        LocksInOrder(m.db, m.txns[holder]);
        WaitClimbsApart(m, t, holder);
      }
      s := SomeoneCanStep(m, holder);
    }
  }

  // ---- Completion ----

  /** An upper bound on the micro-steps a call still has to take. */
  function StepsLeft(s: Stage): nat {
    match s
    case Begun => 5
    case ProofFree => 2
    case RowRead(_, _) => 4
    case ProofChecked(_, _) => 3
    case FirstLocked => 4
    case WalletPaid(_, _, _) => 2
    case WalletsUpdated(_) => 3
    case SenderInserted(_) => 2
    case Ended(_, _) => 1
  }

  ghost function AllStepsLeft(txns: map<CallId, Txn>): nat
    decreases |txns|
  {
    if txns == map[] then 0
    else
      var t :| t in txns;
      StepsLeft(txns[t].stage) + AllStepsLeft(txns - {t})
  }

  lemma {:induction false} AllStepsLeftSplit(txns: map<CallId, Txn>, t: CallId)
    requires t in txns
    ensures AllStepsLeft(txns) == StepsLeft(txns[t].stage) + AllStepsLeft(txns - {t})
    decreases |txns|
  {
    var s :| s in txns && AllStepsLeft(txns) == StepsLeft(txns[s].stage) + AllStepsLeft(txns - {s});
    if s != t {
      AllStepsLeftSplit(txns - {s}, t);
      AllStepsLeftSplit(txns - {t}, s);
      assert txns - {s} - {t} == txns - {t} - {s};
    }
  }

  lemma ReplaceShortens(txns: map<CallId, Txn>, t: CallId, y: Txn)
    requires t in txns && StepsLeft(y.stage) < StepsLeft(txns[t].stage)
    ensures AllStepsLeft(txns[t := y]) < AllStepsLeft(txns)
  {
    AllStepsLeftSplit(txns, t);
    AllStepsLeftSplit(txns[t := y], t);
    assert txns[t := y] - {t} == txns - {t};
  }

  /** Every micro-step brings its call closer to the end and leaves the other calls where they are. */
  lemma AdvanceShortens(m: Machine, t: CallId)
    requires Enabled(m, t) && Coherent(m)
    ensures AllStepsLeft(After(m, Advance(t)).txns) < AllStepsLeft(m.txns)
  {
    var x := m.txns[t];
    if x.stage.Ended? {
      AllStepsLeftSplit(m.txns, t);
    } else {
      MicroShortens(m.db, x);
      ReplaceShortens(m.txns, t, Stepped(m.db, x));
      assert After(m, Advance(t)).txns == m.txns[t := Stepped(m.db, x)];
    }
  }

  lemma MicroShortens(l: Ledger, x: Txn)
    requires StageOk(l, x) && !x.stage.Ended?
    ensures StepsLeft(Micro(l, x)) < StepsLeft(x.stage)
  {
  }

  /** A micro-step draws no references. */
  lemma AdvanceKeepsApart(m: Machine, t: CallId)
    requires Apart(m)
    ensures Apart(After(m, Advance(t)))
  {
    hide Wants, Micro, Apply;
  }

  /** Every event of the schedule moves a call. */
  ghost predicate KeepsMoving(m: Machine, events: seq<Event>)
    decreases |events|
  {
    events == []
    || var before, e := events[..|events| - 1], events[|events| - 1];
       KeepsMoving(m, before) && e.Advance? && Enabled(Run(m, before), e.t)
  }

  /** However the calls in flight are scheduled, they take at most five steps each; a schedule that keeps moving calls
      as long as it can ends them all. */
  lemma {:induction false} EveryScheduleEnds(m: Machine, events: seq<Event>)
    requires Coherent(m) && Apart(m) && KeepsMoving(m, events)
    ensures var m' := Run(m, events);
            && Coherent(m') && Apart(m')
            && |events| + AllStepsLeft(m'.txns) <= AllStepsLeft(m.txns) <= 5 * |m.txns|
            && ((forall t :: !Enabled(m', t)) ==> m'.txns == map[])
    decreases |events|
  {
    hide Coherent, Apart, AllStepsLeft, Enabled, After, Wants;
    AtMostFiveEach(m.txns);
    if events != [] {
      var before, e := events[..|events| - 1], events[|events| - 1];
      EveryScheduleEnds(m, before);
      EventKeepsCoherent(Run(m, before), e);
      AdvanceKeepsApart(Run(m, before), e.t);
      AdvanceShortens(Run(m, before), e.t);
    }
    var m' := Run(m, events);
    if m'.txns != map[] {
      var t :| t in m'.txns;
      var s := SomeoneCanStep(m', t);
    }
  }

  lemma {:induction false} AtMostFiveEach(txns: map<CallId, Txn>)
    ensures AllStepsLeft(txns) <= 5 * |txns|
    decreases |txns|
  {
    if txns != map[] {
      var t :| t in txns;
      AllStepsLeftSplit(txns, t);
      AtMostFiveEach(txns - {t});
      assert |txns - {t}| == |txns| - 1;
    }
  }

  /** From every reachable state some schedule of at most five micro-steps a call ends every call in flight. */
  lemma {:induction false} EveryCallCanEnd(m: Machine) returns (events: seq<Event>)
    requires Coherent(m) && Apart(m)
    ensures Run(m, events).txns == map[]
    ensures |events| <= AllStepsLeft(m.txns)
    ensures forall e :: e in events ==> e.Advance?
    decreases AllStepsLeft(m.txns)
  {
    hide Coherent, Apart, AllStepsLeft, Enabled, After, Wants;
    if m.txns == map[] {
      events := [];
    } else {
      var t :| t in m.txns;
      var s := SomeoneCanStep(m, t);
      EventKeepsCoherent(m, Advance(s));
      AdvanceKeepsApart(m, s);
      AdvanceShortens(m, s);
      var rest := EveryCallCanEnd(After(m, Advance(s)));
      events := [Advance(s)] + rest;
      RunPrepend(m, Advance(s), rest);
    }
  }

  lemma {:induction false} RunPrepend(m: Machine, e: Event, events: seq<Event>)
    ensures Run(m, [e] + events) == Run(After(m, e), events)
    decreases |events|
  {
    if events == [] {
      assert [e] + events == [e] && [e][..0] == [];
    } else {
      var k := |events| - 1;
      assert ([e] + events)[..k + 1] == [e] + events[..k];
      RunPrepend(m, e, events[..k]);
    }
  }
}
