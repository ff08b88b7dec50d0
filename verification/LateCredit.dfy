/** The one call that concurrency can make depart from its atomic step: a credit whose proof another row takes
    between the credit's EXISTS query and its commit. Which credits that can happen to, exactly.
 */
module LateCredit {
  import opened Numeric
  import opened LedgerModel
    import opened LedgerMachine
  import opened LedgerRefinement
  import opened LedgerSafety

  /** On the schedule `events`, some run of `c` takes effect otherwise than the atomic call does on the ledger that
      the calls before it left. */
  ghost predicate Strays(l: Ledger, c: Call, events: seq<Event>) {
    var log := Run(Idle(l), events).log;
    exists k :: 0 <= k < |log| && log[k].call == c && StraysAt(l, log, k)
  }

  ghost predicate StraysAt(l: Ledger, log: seq<Entry>, k: nat)
    requires k < |log|
  {
    EntryStep(Replay(l, log[..k]), log[k]) != Step(Replay(l, log[..k]), log[k].call)
  }

  // ---- Only a credit that contradicts the stored proof can stray ----

  predicate Payable(row: Row) {
    row.status == Pending || row.status == Failed
  }

  /** A row that can still be credited after a step could before, and stores the proof it stored. */
  lemma StepKeepsProof(l: Ledger, e: Entry, i: nat)
    requires i < |l.rows|
    ensures var l' := EntryStep(l, e).ledger;
            && |l.rows| <= |l'.rows| && l'.rows[i].reference == l.rows[i].reference
            && (Payable(l'.rows[i]) ==> Payable(l.rows[i]) && l'.rows[i].proof == l.rows[i].proof)
  {
  }

  /** The rows a step adds have references that no row had. */
  lemma StepAddsNewReferences(l: Ledger, e: Entry, i: nat)
    requires |l.rows| <= i < |EntryStep(l, e).ledger.rows|
    ensures !ReferenceUsed(l.rows, EntryStep(l, e).ledger.rows[i].reference)
  {
  }

  lemma StepKeepsPlace(l: Ledger, e: Entry, reference: string)
    requires ReferenceUsed(l.rows, reference)
    ensures IndexOf(EntryStep(l, e).ledger.rows, reference) == IndexOf(l.rows, reference)
  {
    var l' := EntryStep(l, e).ledger;
    StepKeepsProof(l, e, IndexOf(l.rows, reference).value);
    forall i | 0 <= i < |l.rows| ensures l'.rows[i].reference == l.rows[i].reference {
      StepKeepsProof(l, e, i);
    }
    forall i | |l.rows| <= i < |l'.rows| ensures l'.rows[i].reference != reference {
      StepAddsNewReferences(l, e, i);
    }
    IndexOfStable(l.rows, l'.rows, reference);
  }

  /** A row keeps its place, and its proof for as long as it can be credited. */
  lemma {:induction false} RunKeepsPlace(l: Ledger, log: seq<Entry>, reference: string)
    requires ReferenceUsed(l.rows, reference)
    ensures var l' := Replay(l, log);
            var i := IndexOf(l.rows, reference);
            && IndexOf(l'.rows, reference) == i
            && (Payable(l'.rows[i.value]) ==>
                  Payable(l.rows[i.value]) && l'.rows[i.value].proof == l.rows[i.value].proof)
    decreases |log|
  {
    if log != [] {
      RunKeepsPlace(l, log[..|log| - 1], reference);
      var before, e := Replay(l, log[..|log| - 1]), log[|log| - 1];
      StepKeepsPlace(before, e, reference);
      StepKeepsProof(before, e, IndexOf(before.rows, reference).value);
    }
  }

  lemma StrayingContradicts(l: Ledger, c: Call, events: seq<Event>)
    requires Indexed(l) && Strays(l, c, events)
    requires c.CreditPayIn? ==> ReferenceUsed(l.rows, c.reference)
    ensures !BringsOwnProof(l, c)
  {
    EveryInterleavingRefines(l, events);
    var log := Run(Idle(l), events).log;
    var k :| 0 <= k < |log| && log[k].call == c && StraysAt(l, log, k);
    AdmissibleAt(l, log, k);
    RunKeepsPlace(l, log[..k], c.reference);
  }

  // ---- Every such credit can ----

  /** The credit would succeed if run alone, and its owner has a wallet. */
  predicate Creditworthy(l: Ledger, c: Call) {
    && c.CreditPayIn? && Step(l, c).outcome == Done
    && l.rows[IndexOf(l.rows, c.reference).value].user < |l.balances|
  }

  /** Another pay-in of the same user, declared with the proof the credit brings. */
  function Rival(l: Ledger, c: Call, reference: string): Call
    requires Creditworthy(l, c)
  {
    var tx := l.rows[IndexOf(l.rows, c.reference).value];
    DeclarePayIn(tx.user, 1.0, tx.provider, c.proof, reference)
  }

  /** Only the credit is in flight; the calls in `log` were settled as calls 1. */
  function Alone(l: Ledger, x: Txn, log: seq<Entry>): Machine {
    Machine(l, map[0 := x], log, RivalReplies(|log|))
  }

  function RivalReplies(n: nat): seq<Reply> {
    seq(n, _ => Reply(1, Done))
  }

  /** The credit once its EXISTS query has found the proof free. */
  function Checked(l: Ledger, c: Call): Txn
    requires c.CreditPayIn? && ReferenceUsed(l.rows, c.reference)
  {
    var i := IndexOf(l.rows, c.reference).value;
    Txn(c, {RowKey(i)}, ProofChecked(i, l.rows[i]))
  }

  lemma CreditChecks(l: Ledger, c: Call)
    requires Creditworthy(l, c)
    ensures Reaches(l, Alone(l, Checked(l, c), []))
  {
    var i := IndexOf(l.rows, c.reference).value;
    var begun, read := Txn(c, {}, Begun), Txn(c, {RowKey(i)}, RowRead(i, l.rows[i]));
    ReachesIdle(l);
    ReachesNext(l, Idle(l), Begin(0, c));
    assert After(Idle(l), Begin(0, c)) == Alone(l, begun, []);
    ReachesNext(l, Alone(l, begun, []), Advance(0));
    assert begun.held + {RowKey(i)} == read.held;
    assert After(Alone(l, begun, []), Advance(0)) == Alone(l, read, []);
    ReachesNext(l, Alone(l, read, []), Advance(0));
    assert After(Alone(l, read, []), Advance(0)) == Alone(l, Checked(l, c), []);
  }

  /** What the rival finds: the proof still free, and its reference too. */
  lemma RivalSucceeds(l: Ledger, c: Call, reference: string)
    requires Indexed(l) && Creditworthy(l, c) && !BringsOwnProof(l, c) && !ReferenceUsed(l.rows, reference)
    ensures var d := Rival(l, c, reference);
            Step(l, d) == Effect(l.(rows := l.rows + [DeclaredRow(d)]), Done)
  {
    RoundIsNearest(100.0, 100);
  }

  /** The rival once it has found the proof free, and once it has inserted its row. */
  function RivalFree(d: Call): Txn
    requires d.DeclarePayIn? && d.proof.Some?
  {
    Txn(d, {ProofKey(d.provider, d.proof.value)}, ProofFree)
  }

  function RivalSettled(d: Call): Txn
    requires d.DeclarePayIn? && d.proof.Some?
  {
    Txn(d, {ProofKey(d.provider, d.proof.value), ReferenceKey(d.reference)},
        Ended(Done, NOTHING.(inserts := [DeclaredRow(d)])))
  }

  /** The credit stands still as call 0, and the rival is call 1. */
  function Two(l: Ledger, x: Txn, y: Txn): Machine {
    Machine(l, map[0 := x, 1 := y], [], [])
  }

  predicate Unblocked(x: Txn, d: Call)
    requires d.DeclarePayIn? && d.proof.Some?
  {
    ProofKey(d.provider, d.proof.value) !in x.held && ReferenceKey(d.reference) !in x.held
  }

  lemma RivalSettles(l: Ledger, x: Txn, d: Call)
    requires d.DeclarePayIn? && d.proof.Some? && Step(l, d).outcome == Done && Unblocked(x, d)
    ensures After(Alone(l, x, []), Begin(1, d)) == Two(l, x, Txn(d, {}, Begun))
    ensures After(Two(l, x, Txn(d, {}, Begun)), Advance(1)) == Two(l, x, RivalFree(d))
    ensures After(Two(l, x, RivalFree(d)), Advance(1)) == Two(l, x, RivalSettled(d))
  {
    assert {} + RivalFree(d).held == RivalFree(d).held;
    assert RivalFree(d).held + {ReferenceKey(d.reference)} == RivalSettled(d).held;
  }

  lemma RivalCommits(l: Ledger, x: Txn, d: Call)
    requires d.DeclarePayIn? && d.proof.Some? && Step(l, d).outcome == Done
    ensures After(Two(l, x, RivalSettled(d)), Advance(1)) == Alone(Step(l, d).ledger, x, [Entry(d, false)])
  {
    ApplyWrites(l, d);
    assert map[0 := x, 1 := RivalSettled(d)] - {1} == map[0 := x];
  }

  lemma RivalRuns(l: Ledger, x: Txn, d: Call)
    requires d.DeclarePayIn? && d.proof.Some? && Step(l, d).outcome == Done && Unblocked(x, d)
    requires Reaches(l, Alone(l, x, []))
    ensures Reaches(l, Alone(Step(l, d).ledger, x, [Entry(d, false)]))
  {
    RivalSettles(l, x, d);
    RivalCommits(l, x, d);
    ReachesNext(l, Alone(l, x, []), Begin(1, d));
    ReachesNext(l, Two(l, x, Txn(d, {}, Begun)), Advance(1));
    ReachesNext(l, Two(l, x, RivalFree(d)), Advance(1));
    ReachesNext(l, Two(l, x, RivalSettled(d)), Advance(1));
  }

  /** The ledger grew only by rows of other references: the checked credit does not notice. */
  lemma CheckedStays(l: Ledger, c: Call, row: Row)
    requires Creditworthy(l, c) && row.reference != c.reference
    ensures var l2 := l.(rows := l.rows + [row]);
            && IndexOf(l2.rows, c.reference) == IndexOf(l.rows, c.reference)
            && Unhindered(l2, c).outcome == Done
  {
    IndexOfStable(l.rows, l.rows + [row], c.reference);
  }

  /** The credit can still take effect on `l`: its row stores a proof already, so it needs no other. */
  predicate Resumable(l: Ledger, c: Call) {
    && c.CreditPayIn? && Unhindered(l, c).outcome == Done
    && var tx := l.rows[IndexOf(l.rows, c.reference).value];
    tx.user < |l.balances| && tx.proof.Some?
  }

  function Paid(l: Ledger, c: Call): Txn
    requires Resumable(l, c)
  {
    var i := IndexOf(l.rows, c.reference).value;
    var tx := l.rows[i];
    Txn(c, {RowKey(i), WalletKey(tx.user)},
        WalletPaid(i, tx, NOTHING.(balances := map[tx.user := l.balances[tx.user] + tx.amount])))
  }

  function SettledTxn(l: Ledger, c: Call): Txn
    requires Resumable(l, c)
  {
    Paid(l, c).(stage := Ended(Done, WritesOf(l, c)))
  }

  lemma CreditPays(l: Ledger, c: Call, log: seq<Entry>)
    requires Resumable(l, c)
    ensures After(Alone(l, Checked(l, c), log), Advance(0)) == Alone(l, Paid(l, c), log)
  {
    var u := l.rows[IndexOf(l.rows, c.reference).value].user;
    assert Checked(l, c).held + {WalletKey(u)} == Paid(l, c).held;
  }

  lemma CreditSettles(l: Ledger, c: Call, log: seq<Entry>)
    requires Resumable(l, c)
    ensures After(Alone(l, Paid(l, c), log), Advance(0)) == Alone(l, SettledTxn(l, c), log)
  {
  }

  lemma CreditCommits(l: Ledger, c: Call, log: seq<Entry>)
    requires Resumable(l, c)
    ensures After(Alone(l, SettledTxn(l, c), log), Advance(0))
         == Machine(Unhindered(l, c).ledger, map[], log + [Entry(c, Late(l, c))],
                    RivalReplies(|log|) + [Reply(0, Done)])
  {
    ApplyWrites(l, c);
    assert map[0 := SettledTxn(l, c)] - {0} == map[];
  }

  /** From its EXISTS query the credit runs on and commits, whether or not its proof is still free. */
  lemma CreditResumes(l: Ledger, l2: Ledger, c: Call, log: seq<Entry>)
    requires Resumable(l2, c) && Reaches(l, Alone(l2, Checked(l2, c), log))
    ensures Reaches(l, Machine(Unhindered(l2, c).ledger, map[], log + [Entry(c, Late(l2, c))],
                               RivalReplies(|log|) + [Reply(0, Done)]))
  {
    CreditPays(l2, c, log);
    CreditSettles(l2, c, log);
    CreditCommits(l2, c, log);
    ReachesNext(l, Alone(l2, Checked(l2, c), log), Advance(0));
    ReachesNext(l, Alone(l2, Paid(l2, c), log), Advance(0));
    ReachesNext(l, Alone(l2, SettledTxn(l2, c), log), Advance(0));
  }

  /** The rival takes the proof while the credit is between its EXISTS query and its commit: both take effect, the
      credit late. The ledger they leave is the one the atomic calls leave in the other order. */
  lemma RivalOvertakes(l: Ledger, c: Call, reference: string)
    requires Indexed(l) && Creditworthy(l, c) && !BringsOwnProof(l, c) && !ReferenceUsed(l.rows, reference)
    ensures var d := Rival(l, c, reference);
            var l2 := Step(l, d).ledger;
            && Step(l, d).outcome == Done && Step(l2, c) == Effect(l2, Refused(DuplicateProof))
            && Reaches(l, Machine(Unhindered(l2, c).ledger, map[], [Entry(d, false), Entry(c, true)],
                                 [Reply(1, Done), Reply(0, Done)]))
            && Unhindered(l2, c) == Step(Step(l, c).ledger, d) && Unhindered(l2, c).outcome == Done
  {
    var d := Rival(l, c, reference);
    var row := DeclaredRow(d);
    RivalSucceeds(l, c, reference);
    CreditChecks(l, c);
    RivalRuns(l, Checked(l, c), d);
    CheckedStays(l, c, row);
    CreditResumes(l, Step(l, d).ledger, c, [Entry(d, false)]);
    assert Carries((l.rows + [row])[|l.rows|], row.provider, c.proof.value);
    CreditThenRival(l, c, reference);
  }

  lemma CreditThenRival(l: Ledger, c: Call, reference: string)
    requires Indexed(l) && Creditworthy(l, c) && !BringsOwnProof(l, c) && !ReferenceUsed(l.rows, reference)
    ensures var d := Rival(l, c, reference);
            Unhindered(Step(l, d).ledger, c) == Step(Step(l, c).ledger, d)
  {
    var d := Rival(l, c, reference);
    var i := IndexOf(l.rows, c.reference).value;
    var credited := Step(l, c).ledger;
    RivalSucceeds(l, c, reference);
    CheckedStays(l, c, DeclaredRow(d));
    IndexOfStable(l.rows, credited.rows, reference);
    assert (l.rows + [DeclaredRow(d)])[i := credited.rows[i]] == credited.rows + [DeclaredRow(d)];
  }

  lemma OvertakenStrays(l: Ledger, c: Call, d: Call, events: seq<Event>)
    requires var log := Run(Idle(l), events).log; log == [Entry(d, false), Entry(c, true)]
    requires Unhindered(Step(l, d).ledger, c).outcome == Done && Step(Step(l, d).ledger, c).outcome != Done
    ensures Strays(l, c, events)
  {
    var log := Run(Idle(l), events).log;
    assert log[..1] == [Entry(d, false)] && log[..1][..0] == [];
    assert Replay(l, log[..1]) == Step(l, d).ledger;
    assert StraysAt(l, log, 1);
  }

  /** A call can take effect otherwise than the atomic call, on some schedule from `l`, if and only if it is a credit
      that brings a proof other than the one its row stores. The guard is on the row as it is before the call; the
      credit must be one that would succeed at that point. */
  lemma StraysExactlyWhen(l: Ledger, c: Call, reference: string)
    requires Indexed(l) && (c.CreditPayIn? ==> Creditworthy(l, c)) && !ReferenceUsed(l.rows, reference)
    ensures (exists events :: Strays(l, c, events)) <==> !BringsOwnProof(l, c)
  {
    if !BringsOwnProof(l, c) {
      var d := Rival(l, c, reference);
      RivalOvertakes(l, c, reference);
      var m := Machine(Unhindered(Step(l, d).ledger, c).ledger, map[], [Entry(d, false), Entry(c, true)],
                       [Reply(1, Done), Reply(0, Done)]);
      var events :| Run(Idle(l), events) == m;
      OvertakenStrays(l, c, d, events);
    }
    forall events | Strays(l, c, events) ensures !BringsOwnProof(l, c) {
      StrayingContradicts(l, c, events);
    }
  }
}
