/** Two transfers that have drawn each other's references: exactly when they can wait for each other. */
module MirroredTransfers {
  import opened Numeric
  import opened LedgerModel
  import opened LedgerMachine
  import opened LedgerRefinement
  import opened LedgerProgress
  import opened LedgerSafety

  ghost predicate Deadlocked(m: Machine, c: Call, d: Call) {
    && WaitsFor(m, 0, 1) && WaitsFor(m, 1, 0)
    && m.txns[0].call == c && m.txns[1].call == d
  }

  /** Each inserts first the reference that the other inserts second. */
  predicate Mirrored(c: Call, d: Call)
    requires c.Transfer? && d.Transfer?
  {
    c.senderReference == d.recipientReference && c.recipientReference == d.senderReference
  }

  predicate WalletsApart(l: Ledger, c: Call, d: Call) {
    WalletsOf(l, c) !! WalletsOf(l, d)
  }

  // ---- Only then ----

  lemma StepKeepsPhones(l: Ledger, e: Entry)
    ensures EntryStep(l, e).ledger.phones == l.phones
  {
  }

  lemma {:induction false} PhonesStay(l: Ledger, log: seq<Entry>)
    ensures Replay(l, log).phones == l.phones
    decreases |log|
  {
    hide EntryStep;
    if log != [] {
      PhonesStay(l, log[..|log| - 1]);
      StepKeepsPhones(Replay(l, log[..|log| - 1]), log[|log| - 1]);
    }
  }

  /** Transfers that have both inserted a row share no wallet. */
  lemma InsertedShareNoWallet(m: Machine, c: Call, d: Call)
    requires Coherent(m) && 0 in m.txns && 1 in m.txns && m.txns[0].call == c && m.txns[1].call == d
    requires m.txns[0].stage.SenderInserted? && m.txns[1].stage.SenderInserted?
    ensures WalletsApart(m.db, c, d)
  {
    hide Updated;
    assert m.txns[0].held !! m.txns[1].held;
  }

  lemma DeadlockedAreMirrored(l: Ledger, c: Call, d: Call, events: seq<Event>)
    requires Indexed(l) && c.Transfer? && d.Transfer? && Deadlocked(Run(Idle(l), events), c, d)
    ensures Mirrored(c, d) && WalletsApart(l, c, d)
  {
    var m, chain := Run(Idle(l), events), [0, 1, 0];
    EveryInterleavingRefines(l, events);
    PhonesStay(l, m.log);
    hide Coherent, Wants, Blocks;
    assert Circle(m, chain);
    CircleDraws(m, chain, 0);
    CircleDraws(m, chain, 1);
    InsertedShareNoWallet(m, c, d);
  }

  // ---- And then ----

  /** The transfer once the sender's row is inserted. */
  function Inserted(l: Ledger, c: Call): Txn
    requires c.Transfer? && Step(l, c).outcome == Done
  {
    Txn(c, WalletsOf(l, c) + {ReferenceKey(c.senderReference)}, SenderInserted(Booked(l, c)))
  }

  function Booked(l: Ledger, c: Call): Writes
    requires c.Transfer? && Step(l, c).outcome == Done
  {
    var r := l.phones[c.phone];
    NOTHING.(balances := map[c.sender := l.balances[c.sender] - TransferTotal(c.amount, c.feePercent),
                             r := Store(Francs(l.balances[r]) + c.amount)])
  }

  /** Nobody else in flight holds a key that the transfer locks up to there. */
  predicate Unblocked(m: Machine, t: CallId, c: Call)
    requires c.Transfer?
  {
    forall s | s in m.txns && s != t :: m.txns[s].held !! WalletsOf(m.db, c) + {ReferenceKey(c.senderReference)}
  }

  function With(m: Machine, t: CallId, x: Txn): Machine {
    m.(txns := m.txns[t := x])
  }

  lemma LocksFirst(m: Machine, t: CallId, c: Call)
    requires c.Transfer? && Step(m.db, c).outcome == Done && Unblocked(m, t, c)
    ensures var lower := Lower(c.sender, m.db.phones[c.phone]);
            After(With(m, t, Txn(c, {}, Begun)), Advance(t)) == With(m, t, Txn(c, {WalletKey(lower)}, FirstLocked))
  {
    var lower := Lower(c.sender, m.db.phones[c.phone]);
    assert WalletKey(lower) in WalletsOf(m.db, c);
    assert {} + {WalletKey(lower)} == {WalletKey(lower)};
    assert m.txns[t := Txn(c, {}, Begun)][t := Txn(c, {WalletKey(lower)}, FirstLocked)]
        == m.txns[t := Txn(c, {WalletKey(lower)}, FirstLocked)];
  }

  lemma LocksSecond(m: Machine, t: CallId, c: Call)
    requires c.Transfer? && Step(m.db, c).outcome == Done && Unblocked(m, t, c)
    ensures var x := Txn(c, {WalletKey(Lower(c.sender, m.db.phones[c.phone]))}, FirstLocked);
            After(With(m, t, x), Advance(t)) == With(m, t, Txn(c, WalletsOf(m.db, c), WalletsUpdated(Booked(m.db, c))))
  {
    var r := m.db.phones[c.phone];
    var x := Txn(c, {WalletKey(Lower(c.sender, r))}, FirstLocked);
    var y := Txn(c, WalletsOf(m.db, c), WalletsUpdated(Booked(m.db, c)));
    assert WalletKey(Higher(c.sender, r)) in WalletsOf(m.db, c);
    assert x.held + {WalletKey(Higher(c.sender, r))} == y.held;
    assert m.txns[t := x][t := y] == m.txns[t := y];
  }

  lemma InsertsSender(m: Machine, t: CallId, c: Call)
    requires c.Transfer? && Step(m.db, c).outcome == Done && Unblocked(m, t, c)
    ensures var x := Txn(c, WalletsOf(m.db, c), WalletsUpdated(Booked(m.db, c)));
            After(With(m, t, x), Advance(t)) == With(m, t, Inserted(m.db, c))
  {
    var x, y := Txn(c, WalletsOf(m.db, c), WalletsUpdated(Booked(m.db, c))), Inserted(m.db, c);
    assert ReferenceKey(c.senderReference) in WalletsOf(m.db, c) + {ReferenceKey(c.senderReference)};
    assert m.txns[t := x][t := y] == m.txns[t := y];
  }

  lemma TransferInserts(l: Ledger, m: Machine, t: CallId, c: Call)
    requires Reaches(l, m) && t !in m.txns
    requires c.Transfer? && Step(m.db, c).outcome == Done && Unblocked(m, t, c)
    ensures Reaches(l, With(m, t, Inserted(m.db, c)))
  {
    hide Booked, Enabled, Moved, Unblocked;
    LocksFirst(m, t, c);
    LocksSecond(m, t, c);
    InsertsSender(m, t, c);
    ReachesNext(l, m, Begin(t, c));
    ReachesNext(l, With(m, t, Txn(c, {}, Begun)), Advance(t));
    ReachesNext(l, With(m, t, Txn(c, {WalletKey(Lower(c.sender, m.db.phones[c.phone]))}, FirstLocked)), Advance(t));
    ReachesNext(l, With(m, t, Txn(c, WalletsOf(m.db, c), WalletsUpdated(Booked(m.db, c)))), Advance(t));
  }

  lemma MirroredUnblocked(l: Ledger, c: Call, d: Call)
    requires c.Transfer? && d.Transfer? && Step(l, c).outcome == Done && Step(l, d).outcome == Done
    requires Mirrored(c, d) && WalletsApart(l, c, d)
    ensures Unblocked(With(Idle(l), 0, Inserted(l, c)), 1, d)
  {
    hide Micro, Booked, Wants;
  }

  lemma MirroredDeadlock(l: Ledger, c: Call, d: Call)
    requires c.Transfer? && d.Transfer? && Step(l, c).outcome == Done && Step(l, d).outcome == Done
    requires Mirrored(c, d) && WalletsApart(l, c, d)
    ensures exists events :: Deadlocked(Run(Idle(l), events), c, d)
  {
    hide Micro, Booked, WalletsOf;
    ReachesIdle(l);
    TransferInserts(l, Idle(l), 0, c);
    var m1 := With(Idle(l), 0, Inserted(l, c));
    MirroredUnblocked(l, c, d);
    TransferInserts(l, m1, 1, d);
    var m2 := With(m1, 1, Inserted(l, d));
    var events :| Run(Idle(l), events) == m2;
    assert Blocks(m2, 0, ReferenceKey(c.recipientReference), 1) && Blocks(m2, 1, ReferenceKey(d.recipientReference), 0);
    assert Deadlocked(Run(Idle(l), events), c, d);
  }

  /** Two transfers that would each succeed alone can come to wait for each other if and only if they have drawn each
      other's references and share no wallet. */
  lemma DeadlockExactlyWhen(l: Ledger, c: Call, d: Call)
    requires Indexed(l) && c.Transfer? && d.Transfer? && Step(l, c).outcome == Done && Step(l, d).outcome == Done
    ensures (exists events :: Deadlocked(Run(Idle(l), events), c, d)) <==> Mirrored(c, d) && WalletsApart(l, c, d)
  {
    if Mirrored(c, d) && WalletsApart(l, c, d) { MirroredDeadlock(l, c, d); }
    forall events | Deadlocked(Run(Idle(l), events), c, d) ensures Mirrored(c, d) && WalletsApart(l, c, d) {
      DeadlockedAreMirrored(l, c, d, events);
    }
  }
}
