/** Laws of the ledger over every run of calls: conservation per wallet and over the whole platform, one
    credit per pay-in, and no proof of payment stored twice.
 */
module LedgerLaws {
  import opened Numeric
  import opened LedgerModel

  // ---- Sums over rows ----

  ghost function Total(rows: seq<Row>, f: Row -> int): int {
    if rows == [] then 0 else Total(rows[..|rows| - 1], f) + f(rows[|rows| - 1])
  }

  lemma TotalAppend(rows: seq<Row>, row: Row, f: Row -> int)
    ensures Total(rows + [row], f) == Total(rows, f) + f(row)
  {
    assert (rows + [row])[..|rows|] == rows;
  }

  lemma {:induction false} TotalUpdate(rows: seq<Row>, i: nat, row: Row, f: Row -> int)
    requires i < |rows|
    ensures Total(rows[i := row], f) == Total(rows, f) - f(rows[i]) + f(row)
  {
    var k := |rows| - 1;
    if i < k {
      TotalUpdate(rows[..k], i, row, f);
      assert rows[i := row][..k] == rows[..k][i := row];
    } else {
      assert rows[i := row][..k] == rows[..k];
    }
  }

  /** What a row says its owner's wallet gained or lost. */
  function Contribution(row: Row): int {
    match row.kind
    case PayIn => if row.status == Success then row.amount else 0
    case PayOut => if row.status == Pending || row.status == Success then -row.amount else 0
    case InternalTransfer => if row.role == Sender then -(row.amount + row.fee) else row.amount
  }

  function OwnedBy(u: UserId): Row -> int {
    (row: Row) => if row.user == u then Contribution(row) else 0
  }

  // ---- Invariants ----

  predicate WellShaped(row: Row, users: nat) {
    && row.user < users
    && 0 < row.amount
    && 0 <= row.fee
    && match row.kind
       case PayIn => row.fee == 0 && row.status in {Pending, Success, Failed}
       case PayOut =>
         row.fee == 0 && row.status in {Pending, Success, Cancelled} && (row.proof.Some? ==> row.status == Success)
       case InternalTransfer =>
         row.status == Success && row.role != NoRole && (row.role == Recipient ==> row.fee == 0)
  }

  ghost predicate DistinctReferences(rows: seq<Row>) {
    forall i, j :: 0 <= i < j < |rows| ==> rows[i].reference != rows[j].reference
  }

  /** The partial unique index on (provider, proof_ref) WHERE proof_ref IS NOT NULL. */
  ghost predicate DistinctProofs(rows: seq<Row>) {
    forall i, j :: 0 <= i < j < |rows| && rows[i].proof.Some? && rows[i].provider == rows[j].provider
      ==> rows[i].proof != rows[j].proof
  }

  ghost predicate Sound(l: Ledger) {
    && (forall u :: 0 <= u < |l.balances| ==> Holdable(l.balances[u]))
    && (forall i :: 0 <= i < |l.rows| ==> WellShaped(l.rows[i], |l.balances|))
    && DistinctReferences(l.rows)
    && DistinctProofs(l.rows)
    && Total(l.rows, Sent) == Total(l.rows, Received)
  }

  function Sent(row: Row): int {
    if row.kind == InternalTransfer && row.role == Sender then row.amount else 0
  }

  function Received(row: Row): int {
    if row.kind == InternalTransfer && row.role == Recipient then row.amount else 0
  }

  /** Each balance is what its owner's rows say, plus `drift[u]` centimes. */
  ghost predicate Conserved(l: Ledger, drift: seq<int>) {
    && |drift| == |l.balances|
    && forall u :: 0 <= u < |drift| ==> l.balances[u] == Total(l.rows, OwnedBy(u)) + drift[u]
  }

  /** The caller's part: the fee percentage lies in the range its setting admits, the pay-in function is
      applied to a pay-in, and the pay-out function to a pay-out. */
  predicate Proper(l: Ledger, c: Call) {
    match c
    case Transfer(_, _, _, _, _, feePercent) => 0.0 <= feePercent <= 100.0
    case CreditPayIn(reference, _, _) =>
      var i := IndexOf(l.rows, reference);
      i.Some? ==> l.rows[i.value].kind == PayIn
    case ProcessPayOut(id, _, _) => id < |l.rows| ==> l.rows[id].kind == PayOut
    case _ => true
  }

  /** What a late entry can be: a credit that takes effect although the atomic call would refuse it, because another
      row took the proof it brings; its own row stores a different proof. */
  predicate LateAdmissible(l: Ledger, e: Entry) {
    e.late ==>
      && e.call.CreditPayIn? && ProofTaken(l, e.call.reference, e.call.proof)
      && Unhindered(l, e.call).outcome == Done
      && var own := l.rows[IndexOf(l.rows, e.call.reference).value].proof;
      own.Some? && own != e.call.proof
  }

  /** A pay-out was reserved for an amount half way between two centimes: its row rounds the amount up, and
      so does the balance it leaves. */
  predicate Drifts(l: Ledger, c: Call) {
    c.RequestPayOut? && Tie(c.amount) && Step(l, c).outcome == Done
  }

  function DriftAfter(l: Ledger, c: Call, drift: seq<int>): seq<int>
    requires |drift| == |l.balances|
  {
    if Drifts(l, c) then drift[c.user := drift[c.user] + 1] else drift
  }

  // ---- One step ----

  lemma AppendKeeps(l: Ledger, row: Row)
    requires Sound(l)
    requires WellShaped(row, |l.balances|) && !ReferenceUsed(l.rows, row.reference)
    requires row.proof.Some? ==> !ProofUsed(l.rows, row.provider, row.proof.value)
    ensures var rows := l.rows + [row];
            && (forall i :: 0 <= i < |rows| ==> WellShaped(rows[i], |l.balances|))
            && DistinctReferences(rows) && DistinctProofs(rows)
            && Total(rows, Sent) == Total(l.rows, Sent) + Sent(row)
            && Total(rows, Received) == Total(l.rows, Received) + Received(row)
            && forall u :: Total(rows, OwnedBy(u)) == Total(l.rows, OwnedBy(u)) + OwnedBy(u)(row)
  {
    TotalAppend(l.rows, row, Sent);
    TotalAppend(l.rows, row, Received);
    forall u: nat {
      TotalAppend(l.rows, row, OwnedBy(u));
    }
    forall i | 0 <= i < |l.rows| && row.proof.Some? ensures !Carries(l.rows[i], row.provider, row.proof.value) {
    }
  }

  /** Changing the status or proof of a pay-in or pay-out row. */
  lemma UpdateKeeps(l: Ledger, id: nat, row: Row)
    requires Sound(l) && id < |l.rows|
    requires WellShaped(row, |l.balances|) && row.kind != InternalTransfer
    requires row == l.rows[id].(status := row.status, proof := row.proof)
    requires row.proof == l.rows[id].proof
             || !ProofUsedElsewhere(l.rows, row.provider, row.proof, row.reference)
    ensures var rows := l.rows[id := row];
            && (forall i :: 0 <= i < |rows| ==> WellShaped(rows[i], |l.balances|))
            && DistinctReferences(rows) && DistinctProofs(rows)
            && Total(rows, Sent) == Total(l.rows, Sent) && Total(rows, Received) == Total(l.rows, Received)
            && forall u :: Total(rows, OwnedBy(u))
                        == Total(l.rows, OwnedBy(u)) - OwnedBy(u)(l.rows[id]) + OwnedBy(u)(row)
  {
    TotalUpdate(l.rows, id, row, Sent);
    TotalUpdate(l.rows, id, row, Received);
    forall u: nat {
      TotalUpdate(l.rows, id, row, OwnedBy(u));
    }
    if row.proof != l.rows[id].proof && row.proof.Some? {
      forall i | 0 <= i < |l.rows| && i != id ensures !Carries(l.rows[i], row.provider, row.proof.value) {
        assert l.rows[i].reference != row.reference;
      }
    }
  }

  lemma CreditKeeps(l: Ledger, reference: string, proof: Option<string>, confirmed: Option<real>, used: bool,
                    drift: seq<int>)
    requires Sound(l) && Conserved(l, drift)
    requires var i := IndexOf(l.rows, reference); i.Some? ==> l.rows[i.value].kind == PayIn
    requires !used && ProofTaken(l, reference, proof) ==> l.rows[IndexOf(l.rows, reference).value].proof.Some?
    ensures var e := CreditGiven(l, reference, proof, confirmed, used);
            Sound(e.ledger) && Conserved(e.ledger, drift)
  {
    var e := CreditGiven(l, reference, proof, confirmed, used);
    if e.outcome == Done {
      var i := IndexOf(l.rows, reference).value;
      UpdateKeeps(l, i, e.ledger.rows[i]);
    }
  }

  lemma ReserveKeeps(l: Ledger, c: Call, drift: seq<int>)
    requires Sound(l) && Conserved(l, drift) && c.RequestPayOut?
    ensures Sound(Step(l, c).ledger) && Conserved(Step(l, c).ledger, DriftAfter(l, c, drift))
  {
    var e := Step(l, c);
    if e.outcome == Done {
      var row := e.ledger.rows[|l.rows|];
      StoreSign(c.amount);
      StoreDifference(l.balances[c.user], c.amount);
      AppendKeeps(l, row);
    }
  }

  lemma ProcessKeeps(l: Ledger, c: Call, drift: seq<int>)
    requires Sound(l) && Conserved(l, drift) && c.ProcessPayOut? && Proper(l, c)
    ensures Sound(Step(l, c).ledger) && Conserved(Step(l, c).ledger, drift)
  {
    var e := Step(l, c);
    if e.outcome == Done {
      UpdateKeeps(l, c.id, e.ledger.rows[c.id]);
    }
  }

  lemma MoveKeeps(l: Ledger, c: Call, drift: seq<int>)
    requires Sound(l) && Conserved(l, drift) && c.Transfer? && Proper(l, c)
    ensures Sound(Step(l, c).ledger) && Conserved(Step(l, c).ledger, drift)
  {
    var e := Step(l, c);
    if e.outcome == Done {
      var recipient := l.phones[c.phone];
      TransferAmounts(l.balances[recipient], c.amount, c.feePercent);
      AppendPairKeeps(l, SenderRow(c), RecipientRow(c, recipient));
      assert e.ledger.rows == l.rows + [SenderRow(c)] + [RecipientRow(c, recipient)];
    }
  }

  /** A transfer charges exactly its stored amount and stored fee, and pays exactly its stored amount. */
  lemma TransferAmounts(balance: int, amount: real, feePercent: real)
    requires 0 <= balance && 0.0 < amount && 0.0 <= feePercent
    ensures TransferFee(amount, feePercent) >= 0
    ensures TransferTotal(amount, feePercent) == Store(amount) + TransferFee(amount, feePercent)
    ensures Store(Francs(balance) + amount) == balance + Store(amount)
  {
    assert amount * feePercent >= 0.0;
    StoreSign(amount * feePercent / 100.0);
    StoreSum(TransferFee(amount, feePercent), amount);
    StoreSum(balance, amount);
  }

  lemma AppendPairKeeps(l: Ledger, a: Row, b: Row)
    requires Sound(l)
    requires WellShaped(a, |l.balances|) && WellShaped(b, |l.balances|) && a.proof.None? && b.proof.None?
    requires !ReferenceUsed(l.rows, a.reference) && !ReferenceUsed(l.rows, b.reference)
    requires a.reference != b.reference
    ensures var rows := l.rows + [a] + [b];
            && (forall i :: 0 <= i < |rows| ==> WellShaped(rows[i], |l.balances|))
            && DistinctReferences(rows) && DistinctProofs(rows)
            && Total(rows, Sent) == Total(l.rows, Sent) + Sent(a) + Sent(b)
            && Total(rows, Received) == Total(l.rows, Received) + Received(a) + Received(b)
            && forall u :: Total(rows, OwnedBy(u))
                        == Total(l.rows, OwnedBy(u)) + OwnedBy(u)(a) + OwnedBy(u)(b)
  {
    hide WellShaped, Total, Sent, Received, OwnedBy;
    var rows := l.rows + [a];
    AppendKeeps(l, a);
    TotalAppend(rows, b, Sent);
    TotalAppend(rows, b, Received);
    forall u: nat {
      TotalAppend(rows, b, OwnedBy(u));
    }
  }

  lemma ManualKeeps(l: Ledger, c: Call, drift: seq<int>)
    requires Sound(l) && Conserved(l, drift) && c.ManualCredit?
    ensures Sound(Step(l, c).ledger) && Conserved(Step(l, c).ledger, drift)
  {
    var e := Step(l, c);
    if e.outcome == Done {
      StoreSum(l.balances[c.user], c.amount);
      AppendKeeps(l, e.ledger.rows[|l.rows|]);
    }
  }

  lemma DeclareKeeps(l: Ledger, c: Call, drift: seq<int>)
    requires Sound(l) && Conserved(l, drift) && c.DeclarePayIn?
    ensures Sound(Step(l, c).ledger) && Conserved(Step(l, c).ledger, drift)
  {
    var e := Step(l, c);
    if e.outcome == Done {
      AppendKeeps(l, e.ledger.rows[|l.rows|]);
    }
  }

  lemma RejectKeeps(l: Ledger, c: Call, drift: seq<int>)
    requires Sound(l) && Conserved(l, drift) && c.RejectPayIn?
    ensures Sound(Step(l, c).ledger) && Conserved(Step(l, c).ledger, drift)
  {
    var e := Step(l, c);
    if e.outcome == Done {
      UpdateKeeps(l, c.id, e.ledger.rows[c.id]);
    }
  }

  /** What every operation keeps. */
  lemma CallKeeps(l: Ledger, c: Call, drift: seq<int>)
    requires Sound(l) && Conserved(l, drift) && Proper(l, c)
    ensures Sound(Step(l, c).ledger) && Conserved(Step(l, c).ledger, DriftAfter(l, c, drift))
  {
    match c
    case DeclarePayIn(_, _, _, _, _) => DeclareKeeps(l, c, drift);
    case CreditPayIn(reference, proof, confirmed) =>
      CreditKeeps(l, reference, proof, confirmed, ProofTaken(l, reference, proof), drift);
    case RejectPayIn(_) => RejectKeeps(l, c, drift);
    case RequestPayOut(_, _, _, _) => ReserveKeeps(l, c, drift);
    case ProcessPayOut(_, _, _) => ProcessKeeps(l, c, drift);
    case Transfer(_, _, _, _, _, _) => MoveKeeps(l, c, drift);
    case ManualCredit(_, _, _) => ManualKeeps(l, c, drift);
  }

  lemma StepKeeps(l: Ledger, e: Entry, drift: seq<int>)
    requires Sound(l) && Conserved(l, drift) && Proper(l, e.call) && LateAdmissible(l, e)
    ensures Sound(EntryStep(l, e).ledger) && Conserved(EntryStep(l, e).ledger, DriftAfter(l, e.call, drift))
  {
    if e.late {
      CreditKeeps(l, e.call.reference, e.call.proof, e.call.confirmed, false, drift);
    } else {
      CallKeeps(l, e.call, drift);
    }
  }

  // ---- Whole runs ----

  /** The callers did their part at every step. */
  ghost predicate ProperRun(l: Ledger, log: seq<Entry>)
    decreases |log|
  {
    log == []
    || (ProperRun(l, log[..|log| - 1]) && Proper(Replay(l, log[..|log| - 1]), log[|log| - 1].call))
  }

  /** Every late entry is one that can be. */
  ghost predicate AdmissibleRun(l: Ledger, log: seq<Entry>)
    decreases |log|
  {
    log == []
    || (AdmissibleRun(l, log[..|log| - 1]) && LateAdmissible(Replay(l, log[..|log| - 1]), log[|log| - 1]))
  }

  /** A run of atomic calls is admissible. */
  lemma {:induction false} NothingLateIsAdmissible(l: Ledger, log: seq<Entry>)
    requires forall e :: e in log ==> !e.late
    ensures AdmissibleRun(l, log)
    decreases |log|
  {
    if log != [] { NothingLateIsAdmissible(l, log[..|log| - 1]); }
  }

  /** How many of user `u`'s reserved pay-outs were for an amount half way between two centimes. */
  ghost function Ties(l: Ledger, log: seq<Entry>, u: UserId): nat
    decreases |log|
  {
    if log == [] then 0
    else
      var before, e := log[..|log| - 1], log[|log| - 1];
      Ties(l, before, u) + if Drifts(Replay(l, before), e.call) && e.call.user == u then 1 else 0
  }

  ghost function TiesPerUser(l: Ledger, log: seq<Entry>, users: nat): seq<int> {
    seq(users, u requires 0 <= u => Ties(l, log, u))
  }

  lemma TiesStep(l0: Ledger, log: seq<Entry>, users: nat)
    requires log != []
    requires var before := log[..|log| - 1]; |Replay(l0, before).balances| == users
    ensures var before, e := log[..|log| - 1], log[|log| - 1];
            TiesPerUser(l0, log, users)
            == DriftAfter(Replay(l0, before), e.call, TiesPerUser(l0, before, users))
  {
    var before, e := log[..|log| - 1], log[|log| - 1];
    var ties, drift := TiesPerUser(l0, log, users), TiesPerUser(l0, before, users);
    forall u | 0 <= u < users ensures ties[u] == DriftAfter(Replay(l0, before), e.call, drift)[u] {
      assert ties[u] == Ties(l0, log, u) && drift[u] == Ties(l0, before, u);
    }
  }

  /** In every reachable state each wallet is non-negative and holds what its owner's rows say, plus one
      centime for each half-centime pay-out reserved; references and stored proofs are unique. */
  lemma {:induction false} RunKeeps(users: nat, phones: map<string, UserId>, log: seq<Entry>)
    requires ProperRun(Opening(users, phones), log) && AdmissibleRun(Opening(users, phones), log)
    ensures var l0 := Opening(users, phones);
            var l := Replay(l0, log);
            Sound(l) && Conserved(l, TiesPerUser(l0, log, users))
    decreases |log|
  {
    var l0 := Opening(users, phones);
    if log != [] {
      var before, e := log[..|log| - 1], log[|log| - 1];
      RunKeeps(users, phones, before);
      var l := Replay(l0, before);
      var drift := TiesPerUser(l0, before, users);
      StepKeeps(l, e, drift);
      TiesStep(l0, log, users);
    }
  }

  ghost predicate Explained(l: Ledger, u: UserId) {
    u < |l.balances| && l.balances[u] == Total(l.rows, OwnedBy(u))
  }

  /** A user's rows explain the balance exactly if and only if no half-centime pay-out of theirs was reserved. */
  lemma BalanceExactIffNoTies(users: nat, phones: map<string, UserId>, log: seq<Entry>, u: UserId)
    requires ProperRun(Opening(users, phones), log) && AdmissibleRun(Opening(users, phones), log) && u < users
    ensures var l0 := Opening(users, phones);
            Explained(Replay(l0, log), u) <==> Ties(l0, log, u) == 0
  {
    RunKeeps(users, phones, log);
    var l0 := Opening(users, phones);
    var l := Replay(l0, log);
    var drift := TiesPerUser(l0, log, users);
    assert drift[u] == Ties(l0, log, u);
    assert l.balances[u] == Total(l.rows, OwnedBy(u)) + drift[u];
  }

  // ---- The dashboard's sums ----

  ghost function Sum(s: seq<int>): int {
    if s == [] then 0 else Sum(s[..|s| - 1]) + s[|s| - 1]
  }

  function PaidIn(row: Row): int {
    if row.kind == PayIn && row.status == Success then row.amount else 0
  }

  function PaidOut(row: Row): int {
    if row.kind == PayOut && row.status == Success then row.amount else 0
  }

  function AwaitingPayOut(row: Row): int {
    if row.kind == PayOut && row.status == Pending then row.amount else 0
  }

  function Fee(row: Row): int {
    row.fee
  }

  function OwnedBelow(n: nat): Row -> int {
    (row: Row) => if row.user < n then Contribution(row) else 0
  }

  lemma {:induction false} OwnedSplit(rows: seq<Row>, n: nat)
    ensures Total(rows, OwnedBelow(n + 1)) == Total(rows, OwnedBelow(n)) + Total(rows, OwnedBy(n))
  {
    if rows != [] { OwnedSplit(rows[..|rows| - 1], n); }
  }

  lemma {:induction false} NobodyBelowZero(rows: seq<Row>)
    ensures Total(rows, OwnedBelow(0)) == 0
  {
    if rows != [] { NobodyBelowZero(rows[..|rows| - 1]); }
  }

  lemma {:induction false} SumOfBalances(l: Ledger, drift: seq<int>, n: nat)
    requires Conserved(l, drift) && n <= |drift|
    ensures Sum(l.balances[..n]) == Total(l.rows, OwnedBelow(n)) + Sum(drift[..n])
  {
    if n == 0 {
      NobodyBelowZero(l.rows);
    } else {
      SumOfBalances(l, drift, n - 1);
      OwnedSplit(l.rows, n - 1);
      assert l.balances[..n][..n - 1] == l.balances[..n - 1] && drift[..n][..n - 1] == drift[..n - 1];
    }
  }

  lemma {:induction false} RowsBalance(rows: seq<Row>, users: nat)
    requires forall i :: 0 <= i < |rows| ==> WellShaped(rows[i], users)
    ensures Total(rows, OwnedBelow(users)) + Total(rows, PaidOut) + Total(rows, AwaitingPayOut) + Total(rows, Fee)
         == Total(rows, PaidIn) - Total(rows, Sent) + Total(rows, Received)
  {
    if rows != [] { RowsBalance(rows[..|rows| - 1], users); }
  }

  /** Global conservation: wallets, pay-outs sent or reserved and fees add up to the pay-ins received, give
      or take the half-centime pay-outs. */
  lemma DashboardAddsUp(users: nat, phones: map<string, UserId>, log: seq<Entry>)
    requires ProperRun(Opening(users, phones), log) && AdmissibleRun(Opening(users, phones), log)
    ensures var l0 := Opening(users, phones);
            var l := Replay(l0, log);
            Sum(l.balances) + Total(l.rows, PaidOut) + Total(l.rows, AwaitingPayOut) + Total(l.rows, Fee)
            == Total(l.rows, PaidIn) + Sum(TiesPerUser(l0, log, users))
  {
    var l0 := Opening(users, phones);
    var l := Replay(l0, log);
    var drift := TiesPerUser(l0, log, users);
    RunKeeps(users, phones, log);
    SumOfBalances(l, drift, users);
    RowsBalance(l.rows, users);
    assert l.balances[..users] == l.balances && drift[..users] == drift;
  }

  // ---- One credit per pay-in ----

  /** The call pays the amount of pay-in row `id` into its owner's wallet. */
  predicate Credits(l: Ledger, e: Entry, id: nat) {
    && EntryStep(l, e).outcome == Done
    && ((e.call.CreditPayIn? && IndexOf(l.rows, e.call.reference) == Some(id))
        || (e.call.ManualCredit? && id == |l.rows|))
  }

  /** A credit moves exactly the stored amount of the row, into one wallet; the row ends SUCCESS. */
  lemma CreditPaysStoredAmount(l: Ledger, e: Entry, id: nat)
    requires Sound(l) && Proper(l, e.call) && Credits(l, e, id)
    ensures var l' := EntryStep(l, e).ledger;
            && id < |l'.rows| && l'.rows[id].kind == PayIn && l'.rows[id].status == Success
            && var u := l'.rows[id].user;
            u < |l.balances| && l'.balances == l.balances[u := l.balances[u] + l'.rows[id].amount]
  {
    if e.call.ManualCredit? {
      StoreSum(l.balances[e.call.user], e.call.amount);
    }
  }

  /** How one step changes what row `id` says. */
  lemma StepOnRow(l: Ledger, e: Entry, id: nat)
    requires Sound(l) && Proper(l, e.call)
    ensures var l' := EntryStep(l, e).ledger;
            && |l.rows| <= |l'.rows|
            && (id < |l.rows| ==> l'.rows[id] == l.rows[id].(status := l'.rows[id].status, proof := l'.rows[id].proof))
            && (id < |l.rows| && l.rows[id].kind == PayIn ==>
                 if Credits(l, e, id) then l.rows[id].status != Success && l'.rows[id].status == Success
                 else l'.rows[id].status == Success <==> l.rows[id].status == Success)
            && (|l.rows| <= id < |l'.rows| && l'.rows[id].kind == PayIn ==>
                 (Credits(l, e, id) <==> l'.rows[id].status == Success))
            && (|l'.rows| <= id ==> !Credits(l, e, id))
  {
  }

  ghost function CreditCount(l: Ledger, log: seq<Entry>, id: nat): nat
    decreases |log|
  {
    if log == [] then 0
    else
      var before := log[..|log| - 1];
      CreditCount(l, before, id) + if Credits(Replay(l, before), log[|log| - 1], id) then 1 else 0
  }

  /** Over any run, with rejections, retries and duplicate confirmations in any order, a pay-in is credited
      exactly once if it ends SUCCESS and never otherwise. */
  lemma {:induction false} CreditedOnce(users: nat, phones: map<string, UserId>, log: seq<Entry>, id: nat)
    requires ProperRun(Opening(users, phones), log) && AdmissibleRun(Opening(users, phones), log)
    ensures var l0 := Opening(users, phones);
            var l := Replay(l0, log);
            && (|l.rows| <= id ==> CreditCount(l0, log, id) == 0)
            && (id < |l.rows| && l.rows[id].kind == PayIn ==>
                 CreditCount(l0, log, id) == if l.rows[id].status == Success then 1 else 0)
    decreases |log|
  {
    var l0 := Opening(users, phones);
    if log != [] {
      var before, e := log[..|log| - 1], log[|log| - 1];
      CreditedOnce(users, phones, before, id);
      RunKeeps(users, phones, before);
      StepOnRow(Replay(l0, before), e, id);
    }
  }

  /** A run of atomic calls, with nothing late in it, needs no more than that the callers do their part. */
  lemma AtomicRunsKeepTheBooks(users: nat, phones: map<string, UserId>, log: seq<Entry>, id: nat)
    requires ProperRun(Opening(users, phones), log) && forall e :: e in log ==> !e.late
    ensures var l0 := Opening(users, phones);
            var l := Replay(l0, log);
            && Sound(l) && Conserved(l, TiesPerUser(l0, log, users))
            && Sum(l.balances) + Total(l.rows, PaidOut) + Total(l.rows, AwaitingPayOut) + Total(l.rows, Fee)
               == Total(l.rows, PaidIn) + Sum(TiesPerUser(l0, log, users))
            && (id < |l.rows| && l.rows[id].kind == PayIn ==>
                  CreditCount(l0, log, id) == if l.rows[id].status == Success then 1 else 0)
  {
    NothingLateIsAdmissible(Opening(users, phones), log);
    RunKeeps(users, phones, log);
    DashboardAddsUp(users, phones, log);
    CreditedOnce(users, phones, log, id);
  }

  // ---- What is stored and what is moved ----

  /** A committed transfer stores its amount and, as the fee, the percentage of it, both to the nearest centime. It
      takes both from the sender, gives the amount to the recipient, and touches no other wallet. */
  lemma TransferMovesStoredAmounts(l: Ledger, c: Call)
    requires Sound(l) && c.Transfer? && Proper(l, c) && Step(l, c).outcome == Done
    ensures var l' := Step(l, c).ledger;
            var n := |l.rows|;
            && |l'.rows| == n + 2
            && var debit, credit := l'.rows[n], l'.rows[n + 1];
            && debit.user == c.sender != credit.user && credit.user == l.phones[c.phone]
            && -0.5 < debit.amount as real - c.amount * 100.0 <= 0.5
            && -0.5 < debit.fee as real - c.amount * c.feePercent <= 0.5
            && debit == Row(c.senderReference, c.sender, InternalTransfer, Internal, debit.amount, debit.fee, Success,
                            None, Sender)
            && credit == Row(c.recipientReference, credit.user, InternalTransfer, Internal, debit.amount, 0, Success,
                             None, Recipient)
            && l'.rows[..n] == l.rows
            && l'.balances == l.balances[debit.user := l.balances[debit.user] - (debit.amount + debit.fee)]
                                        [credit.user := l.balances[credit.user] + credit.amount]
  {
    TransferAmounts(l.balances[l.phones[c.phone]], c.amount, c.feePercent);
    RoundIsNearest(c.amount * 100.0, Step(l, c).ledger.rows[|l.rows|].amount);
    assert c.amount * c.feePercent / 100.0 * 100.0 == c.amount * c.feePercent;
    RoundIsNearest(c.amount * c.feePercent, Step(l, c).ledger.rows[|l.rows|].fee);
  }

  /** A reserved pay-out is stored as asked for, to the nearest centime, and takes its stored amount, or one centime
      less when the amount is a tie. */
  lemma PayOutTakesStoredAmount(l: Ledger, c: Call)
    requires Sound(l) && c.RequestPayOut? && Step(l, c).outcome == Done
    ensures var l' := Step(l, c).ledger;
            var row := l'.rows[|l.rows|];
            && l'.rows == l.rows + [row]
            && row == Row(c.reference, c.user, PayOut, c.provider, row.amount, 0, Pending, None, NoRole)
            && -0.5 < row.amount as real - c.amount * 100.0 <= 0.5
            && l'.balances == l.balances[c.user := l.balances[c.user] - row.amount + (if Tie(c.amount) then 1 else 0)]
  {
    StoreSign(c.amount);
    StoreDifference(l.balances[c.user], c.amount);
    RoundIsNearest(c.amount * 100.0, Step(l, c).ledger.rows[|l.rows|].amount);
  }

  /** Rejecting a pay-out gives back what reserving it took, and a centime more when the amount is a tie. */
  lemma RejectUndoesReserve(l: Ledger, c: Call, proof: Option<string>)
    requires Sound(l) && c.RequestPayOut? && Step(l, c).outcome == Done
    ensures var l1 := Step(l, c).ledger;
            var e := Step(l1, ProcessPayOut(|l.rows|, Reject, proof));
            && (e.outcome == Done <==> Fits(l.balances[c.user] + if Tie(c.amount) then 1 else 0))
            && (e.outcome == Done ==>
                 && e.ledger.rows[|l.rows|].status == Cancelled
                 && e.ledger.balances == l.balances[c.user := l.balances[c.user] + if Tie(c.amount) then 1 else 0])
  {
    PayOutTakesStoredAmount(l, c);
  }

  /** A declared pay-in, even once rejected, can be confirmed at its stored amount with any proof that no row of its
      provider had before; the owner's wallet then gains exactly that amount. It is refused if the proof was there,
      and fails if the wallet cannot hold the sum. */
  lemma DeclareThenConfirm(l: Ledger, c: Call, rejectFirst: bool, proof: Option<string>)
    requires Sound(l) && c.DeclarePayIn? && Step(l, c).outcome == Done
    ensures var id := |l.rows|;
            var l1 := Step(l, c).ledger;
            var l2 := if rejectFirst then Step(l1, RejectPayIn(id)).ledger else l1;
            var e := Step(l2, CreditPayIn(c.reference, proof, Some(Francs(Store(c.amount)))));
            var gained := l.balances[c.user] + Store(c.amount);
            && l1.balances == l.balances && l2.balances == l.balances
            && e.outcome == (if proof.Some? && ProofUsed(l.rows, c.provider, proof.value) then Refused(DuplicateProof)
                             else if Fits(gained) then Done else Raised)
            && (e.outcome == Done ==>
                  && e.ledger.balances == l.balances[c.user := gained]
                  && e.ledger.rows[id].status == Success
                  && e.ledger.rows[id].proof == if c.proof.Some? then c.proof else proof)
  {
    var id := |l.rows|;
    var l1 := Step(l, c).ledger;
    var l2 := if rejectFirst then Step(l1, RejectPayIn(id)).ledger else l1;
    LastRowFound(l, l2, c.reference);
    if proof.Some? { ProofUsedByOthers(l, l2, c.provider, proof.value); }
  }

  lemma LastRowFound(l: Ledger, l2: Ledger, reference: string)
    requires |l2.rows| == |l.rows| + 1 && l2.rows[|l.rows|].reference == reference
    ensures IndexOf(l2.rows, reference) == Some(|l.rows|)
  {
  }

  /** Looking past the last row, the EXISTS query answers what it answers on the rows before it. */
  lemma ProofUsedByOthers(l: Ledger, l2: Ledger, provider: Provider, proof: string)
    requires |l2.rows| == |l.rows| + 1 && l2.rows[..|l.rows|] == l.rows
    requires !ReferenceUsed(l.rows, l2.rows[|l.rows|].reference)
    ensures ProofUsedElsewhere(l2.rows, provider, Some(proof), l2.rows[|l.rows|].reference)
       <==> ProofUsed(l.rows, provider, proof)
  {
    forall i | 0 <= i < |l.rows| ensures l2.rows[i] == l.rows[i] {
      assert l2.rows[..|l.rows|][i] == l2.rows[i];
    }
  }

  // ---- Proofs and statuses only move forward ----

  /** The call brings `proof` of `provider` for row `id`. */
  predicate Brings(l: Ledger, c: Call, id: nat, provider: Provider, proof: string) {
    match c
    case DeclarePayIn(_, _, p, q, _) => id == |l.rows| && p == provider && q == Some(proof)
    case CreditPayIn(reference, q, _) =>
      IndexOf(l.rows, reference) == Some(id) && id < |l.rows| && l.rows[id].provider == provider && q == Some(proof)
    case ProcessPayOut(i, action, q) =>
      i == id < |l.rows| && action == Approve && l.rows[id].provider == provider && q == Some(proof)
    case _ => false
  }

  /** A stored proof cannot be brought again for another row of its provider: not declared, not confirmed, not
      approved. */
  lemma StoredProofIsRefused(l: Ledger, id: nat, c: Call, other: nat, provider: Provider, proof: string)
    requires Sound(l) && id < |l.rows| && Carries(l.rows[id], provider, proof)
    requires Brings(l, c, other, provider, proof) && other != id
    ensures Step(l, c).outcome != Done && Step(l, c).ledger == l
  {
    match c
    case CreditPayIn(reference, _, _) => assert l.rows[id].reference != reference;
    case ProcessPayOut(i, _, _) => assert l.rows[id].reference != l.rows[i].reference;
    case _ =>
  }

  /** No call can bring the proof for a row other than `id` any more. */
  ghost predicate Spent(l: Ledger, id: nat, provider: Provider, proof: string) {
    forall next, other ::
      Brings(l, next, other, provider, proof) && other != id ==> Step(l, next).outcome != Done
  }

  /** The call confirms a row that stores a proof, and another one than the call brings. */
  predicate DiscardsProof(l: Ledger, c: Call, id: nat) {
    c.CreditPayIn? && id < |l.rows| && l.rows[id].proof.Some? && l.rows[id].proof != c.proof
  }

  /** The proof that a successful call brings is spent, if and only if the call does not confirm a row that stores
      another proof. Such a confirmation checks the proof it brings and then discards it. */
  lemma BroughtProofIsSpentExactlyWhen(l: Ledger, c: Call, id: nat, provider: Provider, proof: string,
                                       reference: string)
    requires Sound(l) && Proper(l, c) && Step(l, c).outcome == Done && Brings(l, c, id, provider, proof)
    requires !ReferenceUsed(Step(l, c).ledger.rows, reference)
    ensures Spent(Step(l, c).ledger, id, provider, proof) <==> !DiscardsProof(l, c, id)
  {
    var l' := Step(l, c).ledger;
    StepKeepsSound(l, c);
    if DiscardsProof(l, c, id) {
      DiscardedProofIsFree(l, c, id, provider, proof, reference);
      var next := DeclarePayIn(l.rows[id].user, 1.0, provider, Some(proof), reference);
      assert Brings(l', next, |l'.rows|, provider, proof);
    } else {
      assert Carries(l'.rows[id], provider, proof);
      forall next, other | Brings(l', next, other, provider, proof) && other != id
        ensures Step(l', next).outcome != Done
      {
        StoredProofIsRefused(l', id, next, other, provider, proof);
      }
    }
  }

  lemma StepKeepsSound(l: Ledger, c: Call)
    requires Sound(l) && Proper(l, c)
    ensures Sound(Step(l, c).ledger)
  {
    var drift := seq(|l.balances|, u requires 0 <= u < |l.balances| => l.balances[u] - Total(l.rows, OwnedBy(u)));
    CallKeeps(l, c, drift);
  }

  /** After such a confirmation a new pay-in can be declared with the same proof. */
  lemma DiscardedProofIsFree(l: Ledger, c: Call, id: nat, provider: Provider, proof: string, reference: string)
    requires Sound(l) && Step(l, c).outcome == Done && Brings(l, c, id, provider, proof) && DiscardsProof(l, c, id)
    requires !ReferenceUsed(Step(l, c).ledger.rows, reference)
    ensures var again := DeclarePayIn(l.rows[id].user, 1.0, provider, Some(proof), reference);
            Step(Step(l, c).ledger, again).outcome == Done
  {
    var l' := Step(l, c).ledger;
    RoundIsNearest(100.0, 100);
    forall i | 0 <= i < |l'.rows| ensures !Carries(l'.rows[i], provider, proof) {
      if i != id { assert l.rows[i].reference != c.reference; }
    }
  }

  predicate MayBecome(kind: Kind, before: Status, after: Status) {
    || before == after
    || (kind == PayIn && before == Pending && after == Failed)
    || (kind == PayIn && before in {Pending, Failed} && after == Success)
    || (kind == PayOut && before == Pending && after in {Success, Cancelled})
  }

  /** No step rewrites a row's identity or amounts, takes a status back, or replaces a stored proof. */
  lemma RowsMoveForward(l: Ledger, e: Entry, id: nat)
    requires Sound(l) && Proper(l, e.call) && id < |l.rows|
    ensures id < |EntryStep(l, e).ledger.rows|
    ensures var row, row' := l.rows[id], EntryStep(l, e).ledger.rows[id];
            && row' == row.(status := row'.status, proof := row'.proof)
            && MayBecome(row.kind, row.status, row'.status)
            && (row.proof.Some? ==> row'.proof == row.proof)
  {
  }

  /** A proof stored at any point of a run is still stored at its end. */
  lemma {:induction false} StoredProofStays(users: nat, phones: map<string, UserId>, log: seq<Entry>, k: nat, id: nat)
    requires ProperRun(Opening(users, phones), log) && AdmissibleRun(Opening(users, phones), log) && k <= |log|
    requires var l := Replay(Opening(users, phones), log[..k]); id < |l.rows| && l.rows[id].proof.Some?
    ensures var l0 := Opening(users, phones);
            && id < |Replay(l0, log).rows|
            && Replay(l0, log).rows[id].proof == Replay(l0, log[..k]).rows[id].proof
            && Replay(l0, log).rows[id].provider == Replay(l0, log[..k]).rows[id].provider
    decreases |log|
  {
    if k == |log| {
      assert log[..k] == log;
    } else {
      var before := log[..|log| - 1];
      assert before[..k] == log[..k];
      StoredProofStays(users, phones, before, k, id);
      RunKeeps(users, phones, before);
      RowsMoveForward(Replay(Opening(users, phones), before), log[|log| - 1], id);
    }
  }

  // ---- Why the caller's part matters ----

  /** The guards of process_payout, whatever the row's type. */
  predicate PayOutTakesEffect(l: Ledger, id: nat, action: Action, proof: Option<string>)
    requires Sound(l) && id < |l.rows|
  {
    var tx := l.rows[id];
    && tx.status == Pending
    && match action
       case Approve => proof == tx.proof || !ProofUsedElsewhere(l.rows, tx.provider, proof, tx.reference)
       case Reject => Fits(l.balances[tx.user] + tx.amount)
       case OtherAction => false
  }

  /** process_payout does not look at the row's type. Applied to any row, it keeps the books straight if and only if
      the row is not a pay-in that passes its guards. */
  lemma PayOutFunctionOnAnyRow(l: Ledger, id: nat, action: Action, proof: Option<string>, drift: seq<int>)
    requires Sound(l) && Conserved(l, drift) && id < |l.rows|
    ensures Conserved(Process(l, id, action, proof).ledger, drift)
       <==> !(l.rows[id].kind == PayIn && PayOutTakesEffect(l, id, action, proof))
  {
    var e := Process(l, id, action, proof);
    if e.outcome == Done {
      var u := l.rows[id].user;
      forall v: nat {
        TotalUpdate(l.rows, id, e.ledger.rows[id], OwnedBy(v));
      }
      assert e.ledger.rows == l.rows[id := e.ledger.rows[id]];
      if l.rows[id].kind == PayIn {
        assert e.ledger.balances[u] != Total(e.ledger.rows, OwnedBy(u)) + drift[u];
      }
    }
  }

  /** The guards of process_payin_credit, whatever the row's type. */
  predicate PayInTakesEffect(l: Ledger, id: nat, proof: Option<string>, confirmed: Option<real>)
    requires Sound(l) && id < |l.rows|
  {
    var tx := l.rows[id];
    && (tx.status == Pending || tx.status == Failed)
    && !ProofUsedElsewhere(l.rows, tx.provider, proof, tx.reference)
    && (confirmed.Some? ==> confirmed.value == Francs(tx.amount))
    && Fits(l.balances[tx.user] + tx.amount)
  }

  /** Nor does process_payin_credit: it keeps the books straight if and only if the row is not a pay-out that passes
      its guards. */
  lemma PayInFunctionOnAnyRow(l: Ledger, id: nat, proof: Option<string>, confirmed: Option<real>, drift: seq<int>)
    requires Sound(l) && Conserved(l, drift) && id < |l.rows|
    ensures Conserved(Credit(l, l.rows[id].reference, proof, confirmed).ledger, drift)
       <==> !(l.rows[id].kind != PayIn && PayInTakesEffect(l, id, proof, confirmed))
  {
    var e := Credit(l, l.rows[id].reference, proof, confirmed);
    assert IndexOf(l.rows, l.rows[id].reference) == Some(id);
    if e.outcome == Done {
      var u := l.rows[id].user;
      forall v: nat {
        TotalUpdate(l.rows, id, e.ledger.rows[id], OwnedBy(v));
      }
      assert e.ledger.rows == l.rows[id := e.ledger.rows[id]];
      if l.rows[id].kind != PayIn {
        assert e.ledger.balances[u] != Total(e.ledger.rows, OwnedBy(u)) + drift[u];
      }
    }
  }

  /** The pay-out route passes any row on. A pay-in that was only declared and is rejected there pays its amount,
      which nobody has sent, into its owner's wallet. */
  lemma DeclaredThenRejectedAsPayOut(l: Ledger, c: Call, proof: Option<string>)
    requires Sound(l) && c.DeclarePayIn? && Step(l, c).outcome == Done
    ensures var e := Step(Step(l, c).ledger, ProcessPayOut(|l.rows|, Reject, proof));
            var gained := l.balances[c.user] + Store(c.amount);
            && (e.outcome == Done <==> Fits(gained))
            && (e.outcome == Done ==>
                  && e.ledger.balances == l.balances[c.user := gained]
                  && Total(e.ledger.rows, OwnedBy(c.user)) == Total(l.rows, OwnedBy(c.user)))
  {
    var e := Step(Step(l, c).ledger, ProcessPayOut(|l.rows|, Reject, proof));
    if e.outcome == Done {
      var row := e.ledger.rows[|l.rows|];
      assert e.ledger.rows == l.rows + [row];
      TotalAppend(l.rows, row, OwnedBy(c.user));
    }
  }
}
