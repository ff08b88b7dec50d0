/** Every interleaving can be put in order: moved back to where its EXISTS query was answered, a late credit is an
    atomic one.
 */
module LedgerSerial {
  import opened Numeric
  import opened LedgerModel
  import opened LedgerMachine
  import opened LedgerRefinement

  // ---- Calls one at a time ----

  function Fold(l: Ledger, calls: seq<Call>): Ledger
    decreases |calls|
  {
    if calls == [] then l else Step(Fold(l, calls[..|calls| - 1]), calls[|calls| - 1]).ledger
  }

  /** Every call succeeds. */
  ghost predicate AllDone(l: Ledger, calls: seq<Call>)
    decreases |calls|
  {
    calls == []
    || (AllDone(l, calls[..|calls| - 1])
        && Step(Fold(l, calls[..|calls| - 1]), calls[|calls| - 1]).outcome == Done)
  }

  function Bal(l: Ledger, u: UserId): int {
    if u < |l.balances| then l.balances[u] else 0
  }

  function Gain(before: Ledger, after: Ledger, u: UserId): nat {
    if Bal(before, u) < Bal(after, u) then Bal(after, u) - Bal(before, u) else 0
  }

  /** All that the calls pay into the wallet. */
  function Gains(l: Ledger, calls: seq<Call>, u: UserId): nat
    decreases |calls|
  {
    if calls == [] then 0
    else
      var before := calls[..|calls| - 1];
      Gains(l, before, u) + Gain(Fold(l, before), Fold(l, calls), u)
  }

  function LogGains(l: Ledger, log: seq<Entry>, u: UserId): nat
    decreases |log|
  {
    if log == [] then 0
    else
      var before := log[..|log| - 1];
      LogGains(l, before, u) + Gain(Replay(l, before), Replay(l, log), u)
  }

  /** No wallet is negative and no row's amount is. */
  ghost predicate Plain(l: Ledger) {
    && (forall u :: 0 <= u < |l.balances| ==> 0 <= l.balances[u])
    && (forall i :: 0 <= i < |l.rows| ==> 0 < l.rows[i].amount)
  }

  lemma StepKeepsPlain(l: Ledger, c: Call)
    requires Plain(l)
    ensures Plain(Step(l, c).ledger)
  {
  }

  lemma {:induction false} FoldKeepsPlain(l: Ledger, calls: seq<Call>)
    requires Plain(l)
    ensures Plain(Fold(l, calls))
    decreases |calls|
  {
    hide Step, Plain;
    if calls != [] {
      FoldKeepsPlain(l, calls[..|calls| - 1]);
      StepKeepsPlain(Fold(l, calls[..|calls| - 1]), calls[|calls| - 1]);
    }
  }

  lemma {:induction false} BalanceBelow(l: Ledger, calls: seq<Call>, u: UserId)
    ensures Bal(Fold(l, calls), u) <= Bal(l, u) + Gains(l, calls, u)
    decreases |calls|
  {
    if calls != [] { BalanceBelow(l, calls[..|calls| - 1], u); }
  }

  lemma FoldOneMore(l: Ledger, calls: seq<Call>, c: Call)
    ensures Fold(l, calls + [c]) == Step(Fold(l, calls), c).ledger
    ensures AllDone(l, calls + [c]) <==> AllDone(l, calls) && Step(Fold(l, calls), c).outcome == Done
    ensures forall u :: Gains(l, calls + [c], u)
                     == Gains(l, calls, u) + Gain(Fold(l, calls), Step(Fold(l, calls), c).ledger, u)
  {
    assert (calls + [c])[..|calls|] == calls;
  }

  // ---- A credit of a row that stores a proof, and the calls that leave that row alone ----

  /** The row is paid. */
  function Bump(l: Ledger, i: nat): Ledger
    requires i < |l.rows|
  {
    var tx := l.rows[i];
    var paid := l.(rows := l.rows[i := tx.(status := Success)]);
    if tx.user < |l.balances| then paid.(balances := l.balances[tx.user := l.balances[tx.user] + tx.amount]) else paid
  }

  predicate Payable(row: Row) {
    (row.status == Pending || row.status == Failed) && row.proof.Some?
  }

  /** The call succeeds, leaves row `i` as it is, and the row's owner could hold the row's amount besides. */
  predicate Passes(l: Ledger, c: Call, i: nat) {
    && i < |l.rows| && Payable(l.rows[i])
    && Step(l, c).outcome == Done && i < |Step(l, c).ledger.rows|
    && Step(l, c).ledger.rows[i] == l.rows[i]
    && (l.rows[i].user < |l.balances| ==> Fits(Bal(Step(l, c).ledger, l.rows[i].user) + l.rows[i].amount))
  }

  ghost predicate Commutes(l: Ledger, c: Call, i: nat)
    requires i < |l.rows| && i < |Step(l, c).ledger.rows|
  {
    Step(Bump(l, i), c) == Effect(Bump(Step(l, c).ledger, i), Done)
  }

  /** Paying the row changes no reference and no proof. */
  lemma BumpKeepsLookups(l: Ledger, i: nat, r: string, provider: Provider, proof: string)
    requires i < |l.rows|
    ensures IndexOf(Bump(l, i).rows, r) == IndexOf(l.rows, r)
    ensures ProofUsed(Bump(l, i).rows, provider, proof) <==> ProofUsed(l.rows, provider, proof)
    ensures ProofUsedElsewhere(Bump(l, i).rows, provider, Some(proof), r)
       <==> ProofUsedElsewhere(l.rows, provider, Some(proof), r)
  {
    IndexOfStable(l.rows, Bump(l, i).rows, r);
    SameProofs(l.rows, Bump(l, i).rows, r, provider, proof);
  }

  lemma SameProofs(rows: seq<Row>, rows2: seq<Row>, r: string, provider: Provider, proof: string)
    requires |rows2| == |rows|
    requires forall j :: 0 <= j < |rows| ==> rows2[j] == rows[j].(status := rows2[j].status)
    ensures ProofUsed(rows2, provider, proof) <==> ProofUsed(rows, provider, proof)
    ensures ProofUsedElsewhere(rows2, provider, Some(proof), r) <==> ProofUsedElsewhere(rows, provider, Some(proof), r)
  {
    forall j | 0 <= j < |rows| ensures Carries(rows2[j], provider, proof) <==> Carries(rows[j], provider, proof) {
    }
  }

  /** Centimes on a balance stay centimes when a decimal is taken off it. */
  lemma StoreShift(b: int, a: nat, x: real)
    requires x <= Francs(b)
    ensures Store(Francs(b + a) - x) == Store(Francs(b) - x) + a
  {
    RoundIsNearest((Francs(b) - x) * 100.0, Store(Francs(b) - x));
    RoundIsNearest((Francs(b + a) - x) * 100.0, Store(Francs(b) - x) + a);
  }

  lemma DeclareCommutes(l: Ledger, c: Call, i: nat)
    requires Plain(l) && Passes(l, c, i) && c.DeclarePayIn?
    ensures Commutes(l, c, i)
  {
    BumpKeepsLookups(l, i, c.reference, c.provider, if c.proof.Some? then c.proof.value else "");
    assert (l.rows + [DeclaredRow(c)])[i := Bump(l, i).rows[i]] == Bump(l, i).rows + [DeclaredRow(c)];
  }

  lemma CreditCommutes(l: Ledger, c: Call, i: nat)
    requires Plain(l) && Passes(l, c, i) && c.CreditPayIn?
    ensures Commutes(l, c, i)
  {
    var j := IndexOf(l.rows, c.reference).value;
    BumpKeepsLookups(l, i, c.reference, l.rows[j].provider, if c.proof.Some? then c.proof.value else "");
    assert j != i;
    var done := Step(l, c).ledger.rows[j];
    assert l.rows[j := done][i := Bump(l, i).rows[i]] == Bump(l, i).rows[j := done];
  }

  lemma RejectCommutes(l: Ledger, c: Call, i: nat)
    requires Plain(l) && Passes(l, c, i) && c.RejectPayIn?
    ensures Commutes(l, c, i)
  {
    assert c.id != i;
    var done := Step(l, c).ledger.rows[c.id];
    assert l.rows[c.id := done][i := Bump(l, i).rows[i]] == Bump(l, i).rows[c.id := done];
  }

  lemma ReserveCommutes(l: Ledger, c: Call, i: nat)
    requires Plain(l) && Passes(l, c, i) && c.RequestPayOut?
    ensures Commutes(l, c, i)
  {
    BumpKeepsLookups(l, i, c.reference, Wave, "");
    StoreShift(l.balances[c.user], l.rows[i].amount, c.amount);
    assert (l.rows + [ReservedRow(c)])[i := Bump(l, i).rows[i]] == Bump(l, i).rows + [ReservedRow(c)];
    assert Step(Bump(l, i), c).ledger.balances == Bump(Step(l, c).ledger, i).balances;
  }

  lemma ApproveCommutes(l: Ledger, c: Call, i: nat)
    requires Plain(l) && Passes(l, c, i) && c.ProcessPayOut? && c.action == Approve
    ensures Commutes(l, c, i)
  {
    assert c.id != i;
    var tx := l.rows[c.id];
    BumpKeepsLookups(l, i, tx.reference, tx.provider, if c.proof.Some? then c.proof.value else "");
    var done := Step(l, c).ledger.rows[c.id];
    assert l.rows[c.id := done][i := Bump(l, i).rows[i]] == Bump(l, i).rows[c.id := done];
  }

  lemma RefundCommutes(l: Ledger, c: Call, i: nat)
    requires Plain(l) && Passes(l, c, i) && c.ProcessPayOut? && c.action == Reject
    ensures Commutes(l, c, i)
  {
    assert c.id != i;
    var done := Step(l, c).ledger.rows[c.id];
    assert l.rows[c.id := done][i := Bump(l, i).rows[i]] == Bump(l, i).rows[c.id := done];
    assert Step(Bump(l, i), c).ledger.balances == Bump(Step(l, c).ledger, i).balances;
  }

  /** What a transfer leaves in the two wallets, paid before or after. */
  lemma MoveBalances(l: Ledger, c: Call, i: nat)
    requires Plain(l) && Passes(l, c, i) && c.Transfer?
    ensures var l1, r, total := Bump(l, i), l.phones[c.phone], TransferTotal(c.amount, c.feePercent);
            && r < |l.balances| && c.sender < |l.balances|
            && total <= l.balances[c.sender] <= l1.balances[c.sender]
            && Holdable(l1.balances[c.sender] - total)
            && Holdable(Store(Francs(l1.balances[r]) + c.amount))
            && l1.balances[c.sender := l1.balances[c.sender] - total][r := Store(Francs(l1.balances[r]) + c.amount)]
               == Bump(Step(l, c).ledger, i).balances
  {
    hide TransferFee, TransferTotal, Store, IndexOf;
    var r := l.phones[c.phone];
    StoreSum(l.balances[r], c.amount);
    StoreSum(Bump(l, i).balances[r], c.amount);
  }

  lemma MoveCommutes(l: Ledger, c: Call, i: nat)
    requires Plain(l) && Passes(l, c, i) && c.Transfer?
    ensures Commutes(l, c, i)
  {
    hide TransferFee, TransferTotal, Store, IndexOf;
    var r := l.phones[c.phone];
    BumpKeepsLookups(l, i, c.senderReference, Wave, "");
    BumpKeepsLookups(l, i, c.recipientReference, Wave, "");
    MoveBalances(l, c, i);
    var added := [SenderRow(c), RecipientRow(c, r)];
    assert (l.rows + added)[i := Bump(l, i).rows[i]] == Bump(l, i).rows + added;
  }

  lemma ManualCommutes(l: Ledger, c: Call, i: nat)
    requires Plain(l) && Passes(l, c, i) && c.ManualCredit?
    ensures Commutes(l, c, i)
  {
    BumpKeepsLookups(l, i, c.reference, Wave, "");
    StoreSum(l.balances[c.user], c.amount);
    StoreSum(Bump(l, i).balances[c.user], c.amount);
    assert (l.rows + [ManualRow(c)])[i := Bump(l, i).rows[i]] == Bump(l, i).rows + [ManualRow(c)];
    assert Step(Bump(l, i), c).ledger.balances == Bump(Step(l, c).ledger, i).balances;
  }

  /** Paying the row first or last makes no difference to such a call, nor the call to the payment. */
  lemma CallCommutes(l: Ledger, c: Call, i: nat)
    requires Plain(l) && Passes(l, c, i)
    ensures Commutes(l, c, i)
  {
    hide Commutes, Plain;
    match c
    case DeclarePayIn(_, _, _, _, _) => DeclareCommutes(l, c, i);
    case CreditPayIn(_, _, _) => CreditCommutes(l, c, i);
    case RejectPayIn(_) => RejectCommutes(l, c, i);
    case RequestPayOut(_, _, _, _) => ReserveCommutes(l, c, i);
    case ProcessPayOut(_, action, _) =>
      if action == Approve { ApproveCommutes(l, c, i); } else { RefundCommutes(l, c, i); }
    case Transfer(_, _, _, _, _, _) => MoveCommutes(l, c, i);
    case ManualCredit(_, _, _) => ManualCommutes(l, c, i);
  }

  // ---- Putting the payment in earlier ----

  function Insert(calls: seq<Call>, p: nat, c: Call): seq<Call>
    requires p <= |calls|
  {
    calls[..p] + [c] + calls[p..]
  }

  predicate RowIs(l: Ledger, i: nat, tx: Row) {
    i < |l.rows| && l.rows[i] == tx
  }

  /** From position `p` on, no call touches row `i`. */
  ghost predicate RowStands(l: Ledger, calls: seq<Call>, p: nat, i: nat, tx: Row) {
    forall k :: p <= k <= |calls| ==> RowIs(Fold(l, calls[..k]), i, tx)
  }

  /** Every wallet could hold all it is ever paid together. */
  ghost predicate Roomy(l: Ledger, calls: seq<Call>, tx: Row) {
    tx.user < |l.balances| ==> l.balances[tx.user] + Gains(l, calls, tx.user) + tx.amount < LIMIT
  }

  lemma {:induction false} GainsGrow(l: Ledger, calls: seq<Call>, k: nat, u: UserId)
    requires k <= |calls|
    ensures Gains(l, calls[..k], u) <= Gains(l, calls, u)
    decreases |calls|
  {
    if k < |calls| {
      GainsGrow(l, calls[..|calls| - 1], k, u);
      assert calls[..|calls| - 1][..k] == calls[..k];
    } else {
      assert calls[..k] == calls;
    }
  }

  lemma {:induction false} PrefixDone(l: Ledger, calls: seq<Call>, k: nat)
    requires AllDone(l, calls) && k <= |calls|
    ensures AllDone(l, calls[..k])
    decreases |calls|
  {
    if k < |calls| {
      PrefixDone(l, calls[..|calls| - 1], k);
      assert calls[..|calls| - 1][..k] == calls[..k];
    } else {
      assert calls[..k] == calls;
    }
  }

  lemma BumpGains(l: Ledger, l2: Ledger, i: nat, u: UserId)
    requires i < |l.rows| && RowIs(l2, i, l.rows[i]) && |l2.balances| == |l.balances|
    ensures Gain(Bump(l, i), Bump(l2, i), u) == Gain(l, l2, u)
  {
  }

  function Share(l: Ledger, tx: Row, u: UserId): int {
    if u == tx.user && u < |l.balances| then tx.amount else 0
  }

  lemma StepKeepsUsers(l: Ledger, c: Call)
    ensures |Step(l, c).ledger.balances| == |l.balances|
  {
  }

  lemma {:induction false} FoldKeepsUsers(l: Ledger, calls: seq<Call>)
    ensures |Fold(l, calls).balances| == |l.balances|
    decreases |calls|
  {
    hide Step;
    if calls != [] {
      FoldKeepsUsers(l, calls[..|calls| - 1]);
      StepKeepsUsers(Fold(l, calls[..|calls| - 1]), calls[|calls| - 1]);
    }
  }

  /** What the payment at position `p` does to the calls up to position `k`. */
  ghost predicate InsertedUpTo(l: Ledger, calls: seq<Call>, p: nat, c: Call, i: nat, tx: Row, k: nat)
    requires p <= k <= |calls|
  {
    var before, after := calls[..k], Insert(calls[..k], p, c);
    && AllDone(l, after) && i < |Fold(l, before).rows| && Fold(l, after) == Bump(Fold(l, before), i)
    && forall u :: Gains(l, after, u) == Gains(l, before, u) + Share(l, tx, u)
  }

  lemma NextPasses(l: Ledger, calls: seq<Call>, p: nat, i: nat, tx: Row, k: nat)
    requires Plain(l) && AllDone(l, calls) && p < k <= |calls|
    requires Payable(tx) && RowStands(l, calls, p, i, tx) && Roomy(l, calls, tx)
    ensures Fold(l, calls[..k]) == Step(Fold(l, calls[..k - 1]), calls[k - 1]).ledger
    ensures Passes(Fold(l, calls[..k - 1]), calls[k - 1], i) && Plain(Fold(l, calls[..k - 1]))
  {
    hide Step;
    assert calls[..k][..k - 1] == calls[..k - 1];
    PrefixDone(l, calls, k);
    FoldKeepsPlain(l, calls[..k - 1]);
    BalanceBelow(l, calls[..k], tx.user);
    FoldKeepsUsers(l, calls[..k - 1]);
    GainsGrow(l, calls, k, tx.user);
    FoldKeepsPlain(l, calls[..k]);
    assert RowIs(Fold(l, calls[..k - 1]), i, tx) && RowIs(Fold(l, calls[..k]), i, tx);
  }

  lemma InsertFirst(l: Ledger, calls: seq<Call>, p: nat, c: Call, i: nat, tx: Row)
    requires AllDone(l, calls) && p <= |calls| && RowIs(Fold(l, calls[..p]), i, tx) && 0 < tx.amount
    requires Step(Fold(l, calls[..p]), c) == Effect(Bump(Fold(l, calls[..p]), i), Done)
    ensures InsertedUpTo(l, calls, p, c, i, tx, p)
  {
    hide Step;
    var before := calls[..p];
    assert Insert(before, p, c) == before + [c];
    PrefixDone(l, calls, p);
    FoldOneMore(l, before, c);
    FoldKeepsUsers(l, before);
  }

  lemma {:induction false} InsertUpTo(l: Ledger, calls: seq<Call>, p: nat, c: Call, i: nat, tx: Row, k: nat)
    requires Plain(l) && AllDone(l, calls) && p <= k <= |calls| && 0 < tx.amount
    requires Payable(tx) && RowStands(l, calls, p, i, tx) && Roomy(l, calls, tx)
    requires Step(Fold(l, calls[..p]), c) == Effect(Bump(Fold(l, calls[..p]), i), Done)
    ensures InsertedUpTo(l, calls, p, c, i, tx, k)
    decreases k
  {
    hide Step, AllDone, Passes;
    if k == p {
      assert RowIs(Fold(l, calls[..p]), i, tx);
      InsertFirst(l, calls, p, c, i, tx);
    } else {
      InsertUpTo(l, calls, p, c, i, tx, k - 1);
      InsertNext(l, calls, p, c, i, tx, k);
    }
  }

  lemma InsertNext(l: Ledger, calls: seq<Call>, p: nat, c: Call, i: nat, tx: Row, k: nat)
    requires Plain(l) && AllDone(l, calls) && p < k <= |calls|
    requires Payable(tx) && RowStands(l, calls, p, i, tx) && Roomy(l, calls, tx)
    requires InsertedUpTo(l, calls, p, c, i, tx, k - 1)
    ensures InsertedUpTo(l, calls, p, c, i, tx, k)
  {
    hide Step, AllDone, Bump;
    var b, before := calls[k - 1], calls[..k - 1];
    var after := Insert(before, p, c);
    NextPasses(l, calls, p, i, tx, k);
    CallCommutes(Fold(l, before), b, i);
    assert calls[..k] == before + [b];
    assert Insert(calls[..k], p, c) == after + [b];
    FoldOneMore(l, before, b);
    FoldOneMore(l, after, b);
    StepKeepsUsers(Fold(l, before), b);
    assert RowIs(Fold(l, before), i, tx) && RowIs(Fold(l, calls[..k]), i, tx);
    forall u: UserId {
      BumpGains(Fold(l, before), Fold(l, calls[..k]), i, u);
    }
  }

  // ---- The machine ----

  /** The calls that took effect. */
  function Committed(log: seq<Entry>, replies: seq<Reply>): seq<Call>
    requires |replies| == |log|
    decreases |log|
  {
    if log == [] then []
    else
      var n := |log| - 1;
      Committed(log[..n], replies[..n]) + if replies[n].outcome == Done then [log[n].call] else []
  }

  /** A credit that has had its proof found free, to a row that stores one of its own. */
  predicate Waiting(m: Machine, t: CallId) {
    && t in m.txns && m.txns[t].call.CreditPayIn?
    && (m.txns[t].stage.ProofChecked? || m.txns[t].stage.WalletPaid?
        || (m.txns[t].stage.Ended? && m.txns[t].stage.outcome == Done))
    && var i := IndexOf(m.db.rows, m.txns[t].call.reference);
       i.Some? && Payable(m.db.rows[i.value])
  }

  /** At position `p` of the calls the credit finds its row as it is now and the proof free, and the calls from there on
      leave the row alone. */
  ghost predicate Placed(l: Ledger, calls: seq<Call>, p: nat, c: Call, i: nat, tx: Row) {
    && c.CreditPayIn? && p <= |calls|
    && IndexOf(Fold(l, calls[..p]).rows, c.reference) == Some(i)
    && !ProofTaken(Fold(l, calls[..p]), c.reference, c.proof)
    && RowStands(l, calls, p, i, tx)
  }

  ghost predicate PlacedIn(l: Ledger, calls: seq<Call>, p: nat, m: Machine, t: CallId)
    requires Waiting(m, t)
  {
    var i := IndexOf(m.db.rows, m.txns[t].call.reference).value;
    Placed(l, calls, p, m.txns[t].call, i, m.db.rows[i])
  }

  /** The calls that took effect, put in an order in which each succeeds and together they make the committed ledger,
      with a place for each waiting credit. */
  datatype Order = Order(calls: seq<Call>, places: map<CallId, nat>)

  ghost predicate InOrder(l: Ledger, m: Machine, o: Order) {
    && AllDone(l, o.calls) && Fold(l, o.calls) == m.db
    && |m.replies| == |m.log| && multiset(o.calls) == multiset(Committed(m.log, m.replies))
    && (forall u :: Gains(l, o.calls, u) == LogGains(l, m.log, u))
    && forall t :: Waiting(m, t) ==> t in o.places && PlacedIn(l, o.calls, o.places[t], m, t)
  }

  /** The wallets could hold their opening balances and all they were ever paid together. */
  ghost predicate Ample(l: Ledger, log: seq<Entry>) {
    forall u :: 0 <= u < |l.balances| ==> l.balances[u] + LogGains(l, log, u) < LIMIT
  }

  // ---- The log ----

  lemma LogOneMore(l: Ledger, log: seq<Entry>, replies: seq<Reply>, e: Entry, r: Reply)
    requires |replies| == |log|
    ensures Committed(log + [e], replies + [r]) == Committed(log, replies) + if r.outcome == Done then [e.call] else []
    ensures forall u :: LogGains(l, log + [e], u)
                     == LogGains(l, log, u) + Gain(Replay(l, log), EntryStep(Replay(l, log), e).ledger, u)
  {
    assert (log + [e])[..|log|] == log && (replies + [r])[..|log|] == replies;
  }

  // ---- Events that commit nothing ----

  lemma RefusedInOrder(l: Ledger, m: Machine, m': Machine, o: Order, c: Call, r: Reply)
    requires InOrder(l, m, o) && Replay(l, m.log) == m.db && m'.db == m.db
    requires m'.log == m.log + [Entry(c, false)] && m'.replies == m.replies + [r]
    requires r.outcome != Done && Step(m.db, c).outcome != Done
    requires forall t :: Waiting(m', t) ==> Waiting(m, t) && m'.txns[t].call == m.txns[t].call
    ensures InOrder(l, m', o)
  {
    LogOneMore(l, m.log, m.replies, Entry(c, false), r);
    OnlyDoneChanges(m.db, c);
    assert Committed(m.log, m.replies) + [] == Committed(m.log, m.replies);
  }

  lemma QuietInOrder(l: Ledger, m: Machine, m': Machine, o: Order)
    requires InOrder(l, m, o) && m'.db == m.db && m'.log == m.log && m'.replies == m.replies
    requires forall t :: Waiting(m', t) ==> Waiting(m, t) && m'.txns[t].call == m.txns[t].call
    ensures InOrder(l, m', o)
  {
  }

  /** What a credit knows once its EXISTS query has found the proof free. */
  lemma CheckFindsFree(l: Ledger, x: Txn)
    requires StageOk(l, x) && x.call.CreditPayIn? && x.stage.RowRead? && Micro(l, x).ProofChecked?
    ensures var i := IndexOf(l.rows, x.call.reference);
            i == Some(x.stage.id) && l.rows[i.value] == x.stage.tx && !ProofTaken(l, x.call.reference, x.call.proof)
  {
  }

  lemma PlacedLast(l: Ledger, calls: seq<Call>, c: Call, i: nat)
    requires c.CreditPayIn? && IndexOf(Fold(l, calls).rows, c.reference) == Some(i)
    requires !ProofTaken(Fold(l, calls), c.reference, c.proof)
    ensures Placed(l, calls, |calls|, c, i, Fold(l, calls).rows[i])
  {
    assert calls[..|calls|] == calls;
  }

  /** A credit's EXISTS query finds the proof free: its place is after all that has taken effect. */
  lemma CheckedInOrder(l: Ledger, m: Machine, t: CallId, o: Order)
    requires InOrder(l, m, o) && Coherent(m) && t in m.txns && m.txns[t].call.CreditPayIn?
    requires m.txns[t].stage.RowRead? && Micro(m.db, m.txns[t]).ProofChecked?
    ensures InOrder(l, Moved(m, t), o.(places := o.places[t := |o.calls|]))
  {
    hide Placed, Wants;
    var m', o' := Moved(m, t), o.(places := o.places[t := |o.calls|]);
    CheckFindsFree(m.db, m.txns[t]);
    PlacedLast(l, o.calls, m.txns[t].call, m.txns[t].stage.id);
    forall s | Waiting(m', s) ensures s in o'.places && PlacedIn(l, o'.calls, o'.places[s], m', s) {
      if s != t { assert Waiting(m, s); }
    }
  }

  // ---- Events that commit ----

  /** A commit leaves the rows of the other waiting credits alone. */
  lemma WaitingBefore(m: Machine, t: CallId, s: CallId)
    requires Coherent(m) && Committing(m, t) && Waiting(Moved(m, t), s)
    ensures s != t && Waiting(m, s) && m.txns[s] == Moved(m, t).txns[s]
    ensures var i := IndexOf(m.db.rows, m.txns[s].call.reference);
            && IndexOf(Moved(m, t).db.rows, m.txns[s].call.reference) == i
            && Moved(m, t).db.rows[i.value] == m.db.rows[i.value] && RowKey(i.value) in m.txns[s].held
  {
    hide Wants, Micro, Apply, WritesOf;
    var x, y := m.txns[t], m.txns[s];
    CommitAgrees(m.db, x, x.stage.writes, y);
    WaitingHoldsRow(m.db, y);
    AgreeOnReference(m.db, Moved(m, t).db, y, y.call.reference);
  }

  lemma WaitingHoldsRow(l: Ledger, y: Txn)
    requires StageOk(l, y) && y.call.CreditPayIn?
    requires y.stage.ProofChecked? || y.stage.WalletPaid? || (y.stage.Ended? && y.stage.outcome == Done)
    ensures var i := IndexOf(l.rows, y.call.reference); i.Some? && RowKey(i.value) in y.held
  {
  }

  lemma PlacedAppend(l: Ledger, calls: seq<Call>, b: Call, p: nat, c: Call, i: nat, tx: Row)
    requires Placed(l, calls, p, c, i, tx) && RowIs(Fold(l, calls + [b]), i, tx)
    ensures Placed(l, calls + [b], p, c, i, tx)
  {
    var more := calls + [b];
    forall k | 0 <= k <= |calls| ensures more[..k] == calls[..k] {
    }
    assert more[..|more|] == more;
    forall k | p <= k <= |more| ensures RowIs(Fold(l, more[..k]), i, tx) {
      if k <= |calls| { assert RowIs(Fold(l, calls[..k]), i, tx); }
    }
  }

  lemma AddCommitted(a: seq<Call>, b: seq<Call>, c: Call)
    requires multiset(a) == multiset(b)
    ensures multiset(a + [c]) == multiset(b + [c])
  {
  }

  lemma OnTimeIsAtomic(l: Ledger, c: Call)
    requires !Late(l, c)
    ensures Unhindered(l, c) == Step(l, c)
  {
  }

  /** The committed ledger after the commit, and the log with the call at its end. */
  lemma CommitAddsCall(l: Ledger, m: Machine, t: CallId)
    requires Coherent(m) && Committing(m, t) && Replay(l, m.log) == m.db && |m.replies| == |m.log|
    ensures var c, m' := m.txns[t].call, Moved(m, t);
            && m'.db == Unhindered(m.db, c).ledger && Unhindered(m.db, c).outcome == Done
            && |m'.replies| == |m'.log|
            && Committed(m'.log, m'.replies) == Committed(m.log, m.replies) + [c]
            && forall u :: LogGains(l, m'.log, u) == LogGains(l, m.log, u) + Gain(m.db, m'.db, u)
  {
    hide Wants, Micro, WritesOf, Apply, ProofTaken, Step, CreditGiven;
    var c := m.txns[t].call;
    var e := Entry(c, Late(m.db, c));
    ApplyWrites(m.db, c);
    LogOneMore(l, m.log, m.replies, e, Reply(t, Done));
    if !e.late { OnTimeIsAtomic(m.db, c); }
    assert EntryStep(m.db, e).ledger == Moved(m, t).db;
  }

  lemma OnTimePlaces(l: Ledger, m: Machine, t: CallId, o: Order, s: CallId)
    requires InOrder(l, m, o) && Coherent(m) && Committing(m, t) && Waiting(Moved(m, t), s)
    requires Fold(l, o.calls + [m.txns[t].call]) == Moved(m, t).db
    ensures s in o.places && PlacedIn(l, o.calls + [m.txns[t].call], o.places[s], Moved(m, t), s)
  {
    hide Placed, Moved, AllDone, Gains, LogGains, Committed;
    WaitingBefore(m, t, s);
    var i := IndexOf(m.db.rows, m.txns[s].call.reference).value;
    PlacedAppend(l, o.calls, m.txns[t].call, o.places[s], m.txns[s].call, i, m.db.rows[i]);
  }

  /** A commit on time goes last. */
  lemma OnTimeInOrder(l: Ledger, m: Machine, t: CallId, o: Order)
    requires InOrder(l, m, o) && Coherent(m) && Committing(m, t) && Replay(l, m.log) == m.db
    requires !Late(m.db, m.txns[t].call)
    ensures InOrder(l, Moved(m, t), o.(calls := o.calls + [m.txns[t].call]))
  {
    hide PlacedIn, Moved, Step, Waiting;
    var c, m' := m.txns[t].call, Moved(m, t);
    CommitAddsCall(l, m, t);
    OnTimeIsAtomic(m.db, c);
    FoldOneMore(l, o.calls, c);
    AddCommitted(o.calls, Committed(m.log, m.replies), c);
    forall s | Waiting(m', s) ensures s in o.places && PlacedIn(l, o.calls + [c], o.places[s], m', s) {
      OnTimePlaces(l, m, t, o, s);
    }
  }

  lemma InsertPrefix(calls: seq<Call>, p: nat, c: Call, k: nat)
    requires p <= |calls| && k <= |calls| + 1
    ensures Insert(calls, p, c)[..k] == if k <= p then calls[..k] else Insert(calls[..k - 1], p, c)
  {
  }

  function Shifted(p: nat, q: nat): nat {
    if q <= p then q else q + 1
  }

  /** Putting a payment of another row in moves a place at most one on. */
  lemma PlacedInsert(l: Ledger, calls: seq<Call>, p: nat, c: Call, i: nat, tx: Row, q: nat, d: Call, j: nat, ty: Row)
    requires p <= |calls| && i != j && Placed(l, calls, q, d, j, ty)
    requires forall k :: p <= k <= |calls| ==> InsertedUpTo(l, calls, p, c, i, tx, k)
    ensures Placed(l, Insert(calls, p, c), Shifted(p, q), d, j, ty)
  {
    hide AllDone, Gains, Insert;
    var more, q' := Insert(calls, p, c), Shifted(p, q);
    InsertedLength(calls, p, c);
    forall k | q' <= k <= |more| ensures RowIs(Fold(l, more[..k]), j, ty) {
      InsertPrefix(calls, p, c, k);
      if k <= p {
        assert RowIs(Fold(l, calls[..k]), j, ty);
      } else {
        assert RowIs(Fold(l, calls[..k - 1]), j, ty) && InsertedUpTo(l, calls, p, c, i, tx, k - 1);
      }
    }
    InsertPrefix(calls, p, c, q');
    if q > p {
      assert InsertedUpTo(l, calls, p, c, i, tx, q);
      var la := Fold(l, calls[..q]);
      BumpKeepsLookups(la, i, d.reference, la.rows[j].provider, if d.proof.Some? then d.proof.value else "");
      assert RowIs(la, j, ty);
    }
  }

  lemma InsertedLength(calls: seq<Call>, p: nat, c: Call)
    requires p <= |calls|
    ensures |Insert(calls, p, c)| == |calls| + 1 && multiset(Insert(calls, p, c)) == multiset(calls + [c])
  {
    assert calls == calls[..p] + calls[p..];
  }

  lemma PaysRow(l: Ledger, c: Call, i: nat)
    requires c.CreditPayIn? && IndexOf(l.rows, c.reference) == Some(i) && !ProofTaken(l, c.reference, c.proof)
    requires Payable(l.rows[i]) && (c.confirmed.Some? ==> c.confirmed.value == Francs(l.rows[i].amount))
    requires var tx := l.rows[i]; tx.user < |l.balances| ==> Holdable(l.balances[tx.user] + tx.amount)
    ensures Step(l, c) == Effect(Bump(l, i), Done)
  {
  }

  /** The credit as it was placed: it pays the row, and nothing else. */
  lemma PlacedPays(l: Ledger, calls: seq<Call>, p: nat, c: Call, i: nat, tx: Row)
    requires Plain(l) && Placed(l, calls, p, c, i, tx) && Payable(tx) && Roomy(l, calls, tx) && 0 < tx.amount
    requires c.confirmed.Some? ==> c.confirmed.value == Francs(tx.amount)
    ensures Step(Fold(l, calls[..p]), c) == Effect(Bump(Fold(l, calls[..p]), i), Done)
  {
    hide Step, ProofTaken, Bump;
    var la := Fold(l, calls[..p]);
    FoldKeepsPlain(l, calls[..p]);
    FoldKeepsUsers(l, calls[..p]);
    BalanceBelow(l, calls[..p], tx.user);
    GainsGrow(l, calls, p, tx.user);
    assert RowIs(la, i, tx);
    PaysRow(la, c, i);
  }

  // ---- A late commit ----

  /** What is known of a credit that commits late: it is waiting, and its effect is to pay its row. */
  lemma LateIsWaiting(m: Machine, t: CallId)
    requires Coherent(m) && Indexed(m.db) && Committing(m, t) && Late(m.db, m.txns[t].call) && Plain(m.db)
    ensures Waiting(m, t)
    ensures var c := m.txns[t].call;
            var i := IndexOf(m.db.rows, c.reference).value;
            && Unhindered(m.db, c).ledger == Bump(m.db, i) && 0 < m.db.rows[i].amount
            && (c.confirmed.Some? ==> c.confirmed.value == Francs(m.db.rows[i].amount))
            && RowKey(i) in m.txns[t].held
  {
    hide Wants, Micro, Apply, WritesOf;
    var x := m.txns[t];
    LateHasOtherProof(m.db, x, x.stage.writes);
    WaitingHoldsRow(m.db, x);
  }

  /** The order with the late credit at its place. */
  function Reordered(o: Order, p: nat, c: Call): Order
    requires p <= |o.calls|
  {
    Order(Insert(o.calls, p, c), map s | s in o.places :: Shifted(p, o.places[s]))
  }

  lemma InsertEverywhere(l: Ledger, calls: seq<Call>, p: nat, c: Call, i: nat, tx: Row)
    requires Plain(l) && AllDone(l, calls) && Placed(l, calls, p, c, i, tx)
    requires Payable(tx) && Roomy(l, calls, tx) && 0 < tx.amount
    requires c.confirmed.Some? ==> c.confirmed.value == Francs(tx.amount)
    ensures forall k :: p <= k <= |calls| ==> InsertedUpTo(l, calls, p, c, i, tx, k)
  {
    hide InsertedUpTo, AllDone, Roomy;
    PlacedPays(l, calls, p, c, i, tx);
    forall k | p <= k <= |calls| ensures InsertedUpTo(l, calls, p, c, i, tx, k) {
      InsertUpTo(l, calls, p, c, i, tx, k);
    }
  }

  lemma LatePlaces(l: Ledger, m: Machine, t: CallId, o: Order, i: nat, tx: Row, s: CallId)
    requires InOrder(l, m, o) && Coherent(m) && Committing(m, t) && Waiting(Moved(m, t), s)
    requires Waiting(m, t) && IndexOf(m.db.rows, m.txns[t].call.reference) == Some(i) && RowKey(i) in m.txns[t].held
    requires o.places[t] <= |o.calls|
    requires forall k :: o.places[t] <= k <= |o.calls| ==>
               InsertedUpTo(l, o.calls, o.places[t], m.txns[t].call, i, tx, k)
    ensures var o' := Reordered(o, o.places[t], m.txns[t].call);
            s in o'.places && PlacedIn(l, o'.calls, o'.places[s], Moved(m, t), s)
  {
    hide Placed, Moved, AllDone, Gains, LogGains, Committed, InsertedUpTo, Insert;
    WaitingBefore(m, t, s);
    var j := IndexOf(m.db.rows, m.txns[s].call.reference).value;
    assert m.txns[s].held !! m.txns[t].held;
    PlacedInsert(l, o.calls, o.places[t], m.txns[t].call, i, tx, o.places[s], m.txns[s].call, j, m.db.rows[j]);
  }

  /** There is room for the payment if there is for all that the log has paid once it is made. */
  lemma AmpleIsRoomy(l: Ledger, m: Machine, t: CallId, o: Order, i: nat)
    requires InOrder(l, m, o) && Coherent(m) && Committing(m, t) && Replay(l, m.log) == m.db
    requires i < |m.db.rows| && Unhindered(m.db, m.txns[t].call).ledger == Bump(m.db, i)
    requires Ample(l, Moved(m, t).log) && 0 < m.db.rows[i].amount
    ensures Roomy(l, o.calls, m.db.rows[i])
    ensures forall u :: LogGains(l, Moved(m, t).log, u) == Gains(l, o.calls, u) + Share(l, m.db.rows[i], u)
  {
    hide Moved, AllDone, Committed, Waiting, PlacedIn;
    CommitAddsCall(l, m, t);
    FoldKeepsUsers(l, o.calls);
  }

  /** A late commit goes to its place. */
  lemma LateInOrder(l: Ledger, m: Machine, t: CallId, o: Order)
    requires Plain(l) && InOrder(l, m, o) && Coherent(m) && Indexed(m.db) && Committing(m, t)
    requires Replay(l, m.log) == m.db && Late(m.db, m.txns[t].call) && Ample(l, Moved(m, t).log)
    ensures Waiting(m, t) && t in o.places && o.places[t] <= |o.calls|
    ensures InOrder(l, Moved(m, t), Reordered(o, o.places[t], m.txns[t].call))
  {
    hide Placed, Moved, Insert, InsertedUpTo, Roomy, Ample, Gains, LogGains, Committed, Unhindered, Step;
    var c, m' := m.txns[t].call, Moved(m, t);
    FoldKeepsPlain(l, o.calls);
    LateIsWaiting(m, t);
    var i := IndexOf(m.db.rows, c.reference).value;
    var tx := m.db.rows[i];
    PlaceExists(l, o.calls, o.places[t], c, i, tx);
    AmpleIsRoomy(l, m, t, o, i);
    InsertEverywhere(l, o.calls, o.places[t], c, i, tx);
    InsertedLength(o.calls, o.places[t], c);
    CommitAddsCall(l, m, t);
    AddCommitted(o.calls, Committed(m.log, m.replies), c);
    InsertedWhole(l, o.calls, o.places[t], c, i, tx);
    forall s | Waiting(m', s) ensures var o' := Reordered(o, o.places[t], c);
                                      s in o'.places && PlacedIn(l, o'.calls, o'.places[s], m', s)
    {
      LatePlaces(l, m, t, o, i, tx, s);
    }
  }

  lemma PlaceExists(l: Ledger, calls: seq<Call>, p: nat, c: Call, i: nat, tx: Row)
    requires Placed(l, calls, p, c, i, tx)
    ensures p <= |calls|
  {
  }

  lemma InsertedWhole(l: Ledger, calls: seq<Call>, p: nat, c: Call, i: nat, tx: Row)
    requires p <= |calls| && forall k :: p <= k <= |calls| ==> InsertedUpTo(l, calls, p, c, i, tx, k)
    ensures AllDone(l, Insert(calls, p, c)) && i < |Fold(l, calls).rows|
    ensures Fold(l, Insert(calls, p, c)) == Bump(Fold(l, calls), i)
    ensures forall u :: Gains(l, Insert(calls, p, c), u) == Gains(l, calls, u) + Share(l, tx, u)
  {
    assert calls[..|calls|] == calls;
    assert InsertedUpTo(l, calls, p, c, i, tx, |calls|);
  }

  // ---- Every schedule ----

  predicate Checks(m: Machine, t: CallId)
    requires t in m.txns
  {
    m.txns[t].call.CreditPayIn? && m.txns[t].stage.RowRead? && Micro(m.db, m.txns[t]).ProofChecked?
  }

  /** Only the answer of its EXISTS query makes a credit one that waits. */
  lemma WaitingStays(m: Machine, t: CallId, s: CallId)
    requires Coherent(m) && t in m.txns && !m.txns[t].stage.Ended? && !Checks(m, t) && Waiting(Moved(m, t), s)
    ensures Waiting(m, s) && Moved(m, t).txns[s].call == m.txns[s].call
  {
    hide Wants;
  }

  lemma StepInOrder(l: Ledger, m: Machine, t: CallId, o: Order)
    requires Refines(l, m) && InOrder(l, m, o) && t in m.txns && !m.txns[t].stage.Ended? && !Checks(m, t)
    ensures InOrder(l, Moved(m, t), o)
  {
    hide InOrder, Wants, Coherent, Step, Micro;
    var m', x := Moved(m, t), m.txns[t];
    var stage := Micro(m.db, x);
    forall s | Waiting(m', s) ensures Waiting(m, s) && m'.txns[s].call == m.txns[s].call {
      WaitingStays(m, t, s);
    }
    if stage.Ended? && stage.outcome != Done {
      RefusalIsAtomic(m, t);
      RefusedInOrder(l, m, m', o, x.call, Reply(t, stage.outcome));
    } else {
      QuietInOrder(l, m, m', o);
    }
  }

  lemma RefusalIsAtomic(m: Machine, t: CallId)
    requires Coherent(m) && t in m.txns && !m.txns[t].stage.Ended?
    requires Micro(m.db, m.txns[t]).Ended? && Micro(m.db, m.txns[t]).outcome != Done
    ensures Step(m.db, m.txns[t].call).outcome != Done
  {
    hide Step, Micro;
    MicroStep(m.db, m.txns[t]);
  }

  lemma AdvanceInOrder(l: Ledger, m: Machine, t: CallId, o: Order) returns (o': Order)
    requires Plain(l) && Refines(l, m) && InOrder(l, m, o) && t in m.txns && Ample(l, Moved(m, t).log)
    ensures InOrder(l, Moved(m, t), o')
  {
    hide InOrder, Wants, Micro, Waiting, Ample, Coherent;
    if Committing(m, t) {
      if Late(m.db, m.txns[t].call) {
        LateInOrder(l, m, t, o);
        o' := Reordered(o, o.places[t], m.txns[t].call);
      } else {
        OnTimeInOrder(l, m, t, o);
        o' := o.(calls := o.calls + [m.txns[t].call]);
      }
    } else if m.txns[t].stage.Ended? {
      EndInOrder(l, m, t, o);
      o' := o;
    } else if Checks(m, t) {
      CheckedInOrder(l, m, t, o);
      o' := o.(places := o.places[t := |o.calls|]);
    } else {
      StepInOrder(l, m, t, o);
      o' := o;
    }
  }

  lemma EndInOrder(l: Ledger, m: Machine, t: CallId, o: Order)
    requires InOrder(l, m, o) && t in m.txns && m.txns[t].stage.Ended? && m.txns[t].stage.outcome != Done
    ensures InOrder(l, Moved(m, t), o)
  {
    hide InOrder;
    QuietInOrder(l, m, Moved(m, t), o);
  }

  lemma BeginInOrder(l: Ledger, m: Machine, t: CallId, c: Call, o: Order)
    requires InOrder(l, m, o)
    ensures InOrder(l, After(m, Begin(t, c)), o)
  {
    hide InOrder;
    QuietInOrder(l, m, After(m, Begin(t, c)), o);
  }

  /** The log only grows, and so does what it has paid. */
  lemma AmpleBefore(l: Ledger, m: Machine, e: Event)
    requires |m.replies| == |m.log| && Ample(l, After(m, e).log)
    ensures Ample(l, m.log)
  {
    hide Wants, Micro, LogGains, EntryStep, Apply;
    var m' := After(m, e);
    if m'.log != m.log {
      var n := |m.log|;
      assert m'.log == m.log + [m'.log[n]];
      LogOneMore(l, m.log, m.replies, m'.log[n], m'.replies[n]);
    }
  }

  lemma {:induction false} ScheduleInOrder(l: Ledger, events: seq<Event>) returns (o: Order)
    requires Indexed(l) && Plain(l) && Ample(l, Run(Idle(l), events).log)
    ensures InOrder(l, Run(Idle(l), events), o)
    decreases |events|
  {
    hide InOrder, Ample, Moved, Indexed, Plain, Enabled;
    if events == [] {
      o := Order([], map[]);
      IdleInOrder(l);
    } else {
      var before, e := events[..|events| - 1], events[|events| - 1];
      var m := Run(Idle(l), before);
      EveryInterleavingRefines(l, before);
      AmpleBefore(l, m, e);
      o := ScheduleInOrder(l, before);
      match e
      case Begin(t, c) => BeginInOrder(l, m, t, c, o);
      case Advance(t) => if Enabled(m, t) { EnabledInFlight(m, t); o := AdvanceInOrder(l, m, t, o); }
    }
  }

  lemma EnabledInFlight(m: Machine, t: CallId)
    requires Enabled(m, t)
    ensures t in m.txns
  {
  }

  lemma IdleInOrder(l: Ledger)
    ensures InOrder(l, Idle(l), Order([], map[]))
  {
  }

  /** Serializability: after every schedule the committed ledger is what the calls that took effect make of the first
      one when they run one at a time, in some order, and succeed. Wallets must have room for all they are ever paid
      together, for a payment put in earlier stands on the balances after it. */
  lemma EveryScheduleHasAnOrder(l: Ledger, events: seq<Event>) returns (calls: seq<Call>)
    requires Indexed(l) && Plain(l) && Ample(l, Run(Idle(l), events).log)
    ensures var m := Run(Idle(l), events);
            && |m.replies| == |m.log| && multiset(calls) == multiset(Committed(m.log, m.replies))
            && AllDone(l, calls) && Fold(l, calls) == m.db
  {
    var o := ScheduleInOrder(l, events);
    calls := o.calls;
  }
}
