/** Short runs from an empty ledger on which a law of the books fails. The laws say exactly when that happens; the
    runs show that it does.
 */
module LedgerExamples {
  import opened Numeric
  import opened LedgerModel
  import opened LedgerLaws

  const START := Ledger(map[], [0], [])

  lemma StartsEmpty()
    ensures Opening(1, map[]) == START
  {
    assert Opening(1, map[]).balances == [0];
  }

  /** A run of two calls, and of one more. */
  lemma ReplayTwo(l: Ledger, a: Entry, b: Entry)
    ensures Replay(l, [a, b]) == EntryStep(EntryStep(l, a).ledger, b).ledger
    ensures ProperRun(l, [a, b]) <==> Proper(l, a.call) && Proper(EntryStep(l, a).ledger, b.call)
  {
    assert [a, b][..1] == [a] && [a][..0] == [];
    assert Replay(l, [a]) == EntryStep(l, a).ledger;
    assert ProperRun(l, [a]) <==> Proper(l, a.call);
  }

  lemma RowsOfTwo(a: Row, b: Row)
    requires a.reference != b.reference
    ensures IndexOf([a, b], a.reference) == Some(0) && IndexOf([a, b], b.reference) == Some(1)
    ensures forall f :: Total([a, b], f) == f(a) + f(b)
  {
    assert [a, b][..1] == [a] && [a][..0] == [];
    assert IndexOf([a], a.reference) == Some(0);
    forall f: Row -> int ensures Total([a, b], f) == f(a) + f(b) {
      assert Total([a], f) == f(a);
    }
  }

  // ---- A pay-out of half a centime ----

  const CREDIT_TWO := Entry(ManualCredit(0, 2.0, "MC-1"), false)
  const RESERVE_TIE := Entry(RequestPayOut(0, 1.005, "PO-1", Wave), false)
  const CREDITED_TWO := Row("MC-1", 0, PayIn, AdminManual, 200, 0, Success, None, NoRole)
  const RESERVED_TIE := Row("PO-1", 0, PayOut, Wave, 101, 0, Pending, None, NoRole)

  const WITH_TWO := Ledger(map[], [200], [CREDITED_TWO])
  const WITH_TIE := Ledger(map[], [100], [CREDITED_TWO, RESERVED_TIE])

  lemma Amounts()
    ensures Store(2.0) == 200 && Store(Francs(0) + 2.0) == 200
    ensures Store(1.005) == 101 && Store(Francs(200) - 1.005) == 100
  {
    RoundIsNearest(200.0, 200);
    RoundIsNearest(100.5, 101);
    RoundIsNearest(99.5, 100);
    assert (Francs(200) - 1.005) * 100.0 == 99.5;
  }

  lemma TwoCredited()
    ensures Step(START, CREDIT_TWO.call) == Effect(WITH_TWO, Done)
  {
    Amounts();
  }

  lemma TieReserved()
    ensures Step(WITH_TWO, RESERVE_TIE.call) == Effect(WITH_TIE, Done)
  {
    Amounts();
    assert [CREDITED_TWO][..0] == [];
    assert "MC-1"[0] != "PO-1"[0];
    assert IndexOf(WITH_TWO.rows, "PO-1") == None;
  }

  /** The wallet had 2.00 and keeps 1.00, although 1.01 is reserved: its rows say 0.99. */
  lemma HalfCentimePayOutDrifts()
    ensures var l0, log := Opening(1, map[]), [CREDIT_TWO, RESERVE_TIE];
            && ProperRun(l0, log) && Replay(l0, log) == WITH_TIE
            && Total(WITH_TIE.rows, OwnedBy(0)) == 99 && !Explained(WITH_TIE, 0)
  {
    StartsEmpty();
    ReplayTwo(START, CREDIT_TWO, RESERVE_TIE);
    TwoCredited();
    TieReserved();
    assert "MC-1"[0] != "PO-1"[0];
    RowsOfTwo(CREDITED_TWO, RESERVED_TIE);
    assert Total(WITH_TIE.rows, OwnedBy(0)) == OwnedBy(0)(CREDITED_TWO) + OwnedBy(0)(RESERVED_TIE);
  }

  // ---- A pay-in rejected as a pay-out ----

  const DECLARE_HUNDRED := Entry(DeclarePayIn(0, 100.0, Wave, None, "PI-1"), false)
  const REJECT_AS_PAYOUT := Entry(ProcessPayOut(0, Reject, None), false)

  /** Nothing was paid in, and the wallet holds 100.00. */
  lemma PayInRejectedAsPayOut()
    ensures var l := Replay(Opening(1, map[]), [DECLARE_HUNDRED, REJECT_AS_PAYOUT]);
            l.balances == [10000] && Total(l.rows, PaidIn) == 0 && !Explained(l, 0)
  {
    StartsEmpty();
    ReplayTwo(START, DECLARE_HUNDRED, REJECT_AS_PAYOUT);
    RoundIsNearest(10000.0, 10000);
    var row := DeclaredRow(DECLARE_HUNDRED.call);
    var l1 := Ledger(map[], [0], [row]);
    assert Step(START, DECLARE_HUNDRED.call) == Effect(l1, Done);
    var cancelled := row.(status := Cancelled);
    assert Step(l1, REJECT_AS_PAYOUT.call) == Effect(Ledger(map[], [10000], [cancelled]), Done);
    assert [cancelled][..0] == [];
    assert Total([cancelled], PaidIn) == 0 && Total([cancelled], OwnedBy(0)) == 0;
  }

  // ---- One proof confirms two pay-ins ----

  const DECLARE_A := Entry(DeclarePayIn(0, 1.0, Wave, Some("X"), "PI-A"), false)
  const DECLARE_B := Entry(DeclarePayIn(0, 1.0, Wave, None, "PI-B"), false)
  const DECLARED_A := Row("PI-A", 0, PayIn, Wave, 100, 0, Pending, Some("X"), NoRole)
  const DECLARED_B := Row("PI-B", 0, PayIn, Wave, 100, 0, Pending, None, NoRole)
  const CONFIRM_A := Entry(CreditPayIn("PI-A", Some("P"), None), false)
  const CONFIRM_B := Entry(CreditPayIn("PI-B", Some("P"), None), false)
  const TWO_PENDING := Ledger(map[], [0], [DECLARED_A, DECLARED_B])

  lemma TwoDeclared()
    ensures Replay(Opening(1, map[]), [DECLARE_A, DECLARE_B]) == TWO_PENDING
  {
    StartsEmpty();
    ReplayTwo(START, DECLARE_A, DECLARE_B);
    RoundIsNearest(100.0, 100);
    assert "PI-A"[3] != "PI-B"[3];
    assert Step(START, DECLARE_A.call) == Effect(Ledger(map[], [0], [DECLARED_A]), Done);
    assert [DECLARED_A][..0] == [];
    assert IndexOf([DECLARED_A], "PI-B") == None;
  }

  const CREDITED_A := DECLARED_A.(status := Success)
  const CREDITED_B := DECLARED_B.(status := Success, proof := Some("P"))

  lemma FirstConfirmed()
    ensures Step(TWO_PENDING, CONFIRM_A.call) == Effect(Ledger(map[], [100], [CREDITED_A, DECLARED_B]), Done)
  {
    assert "PI-A"[3] != "PI-B"[3] && "X"[0] != "P"[0];
    RowsOfTwo(DECLARED_A, DECLARED_B);
  }

  lemma SecondConfirmed()
    ensures Step(Ledger(map[], [100], [CREDITED_A, DECLARED_B]), CONFIRM_B.call)
         == Effect(Ledger(map[], [200], [CREDITED_A, CREDITED_B]), Done)
  {
    assert "PI-A"[3] != "PI-B"[3] && "X"[0] != "P"[0];
    RowsOfTwo(CREDITED_A, DECLARED_B);
  }

  /** The first row stores proof X. Confirming it with P checks P and keeps X, so P confirms the second row too. */
  lemma OneProofConfirmsTwo()
    ensures Replay(Opening(1, map[]), [DECLARE_A, DECLARE_B]) == TWO_PENDING
    ensures Replay(TWO_PENDING, [CONFIRM_A, CONFIRM_B]) == Ledger(map[], [200], [CREDITED_A, CREDITED_B])
  {
    TwoDeclared();
    ReplayTwo(TWO_PENDING, CONFIRM_A, CONFIRM_B);
    FirstConfirmed();
    SecondConfirmed();
  }
}
