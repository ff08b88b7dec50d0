/** What JEKO holds against what the wallets were given: over all runs every re-credit is covered. */
module SagaAccounts {
  import opened Numeric
  import opened FeeRules
  import opened SagaModel
  import opened SagaLaws

  /** JEKO's own records: the legs it has settled, which of them came through, and the fee it kept of each
      collection. */
  datatype Books = Books(settled: set<(string, Leg)>, cameThrough: set<(string, Leg)>, kept: string -> real)

  predicate Through(books: Books, reference: string, leg: Leg) {
    (reference, leg) in books.settled && (reference, leg) in books.cameThrough
  }

  /** JEKO answers truthfully and acts only on what it accepted: an event reports the outcome of a settled leg; a
      collection refused at once is never settled, nor is a payout that was not accepted. */
  predicate Honest(w: World, e: Event, books: Books) {
    match e
    case Create(reference, _, _, _, start) =>
      start == RefusedAtOnce && reference !in w.txs ==> (reference, In) !in books.settled
    case Forget(_) => true
    case Webhook(_, d) => HonestReport(w, d, books)
    case Reconciled(d) => HonestReport(w, d, books)
  }

  predicate HonestReport(w: World, d: LegEvent, books: Books) {
    && LegKey(d) in books.settled
    && (d.success <==> LegKey(d) in books.cameThrough)
    && (AsksPayOut(w, d) && d.answer == NotAccepted ==> (d.reference, Out) !in books.settled)
  }

  /** The event makes the handler ask JEKO for a payout. */
  predicate AsksPayOut(w: World, d: LegEvent) {
    && d.reference in w.txs && w.txs[d.reference].kind != Deposit
    && d.leg == In && w.txs[d.reference].payin == Some(Pending) && d.success
  }

  ghost predicate HonestRun(w0: World, events: seq<Event>, books: Books)
    decreases |events|
  {
    events == []
    || (HonestRun(w0, events[..|events| - 1], books)
        && Honest(Run(w0, events[..|events| - 1]), events[|events| - 1], books))
  }

  /** A leg recorded as succeeded or failed did so at JEKO. */
  predicate LegMatches(books: Books, reference: string, leg: Leg, status: Option<Status>) {
    && (status == Some(Success) ==> Through(books, reference, leg))
    && (status == Some(Failed) ==> !Through(books, reference, leg))
  }

  ghost predicate Matches(w: World, books: Books) {
    forall r :: r in w.txs ==>
      LegMatches(books, r, In, w.txs[r].payin) && LegMatches(books, r, Out, w.txs[r].payout)
  }

  lemma DeliverMatches(w: World, d: LegEvent, books: Books)
    requires d.reference in w.txs && JointOk(w.txs[d.reference]) && LegStatus(w.txs[d.reference], d.leg).Some?
    requires HonestReport(w, d, books) && Matches(w, books)
    ensures Matches(Deliver(w, d), books)
  {
  }

  lemma NextMatches(w0: World, w: World, e: Event, books: Books)
    requires WorldOk(w0, w) && Requested(w, e) && Honest(w, e, books) && Matches(w, books)
    ensures Matches(Next(w, e), books)
  {
    match e
    case Create(_, _, _, _, _) =>
    case Webhook(id, d) =>
      DeliverMatches(w, d, books);
      DeliverSame(w.(seen := w.seen + {id}), w, d);
    case Reconciled(d) => DeliverMatches(w, d, books);
    case Forget(_) =>
  }

  lemma {:induction false} RunMatches(w0: World, events: seq<Event>, books: Books)
    requires Opening(w0) && RequestedRun(w0, events) && HonestRun(w0, events, books) && Matches(w0, books)
    ensures Matches(Run(w0, events), books)
    decreases |events|
  {
    if events != [] {
      var before := events[..|events| - 1];
      RunMatches(w0, before, books);
      RunKeeps(w0, before);
      NextMatches(w0, Run(w0, before), events[|events| - 1], books);
    }
  }

  function Paid(reference: string, tx: Tx, amount: real): seq<Payment> {
    [Payment(reference, tx.owner, amount)]
  }

  /** What a finished transaction's legs came to at JEKO decides its status and what its owner was paid: a deposit is
      paid if its collection came through, a withdrawal is paid back if its payout did not, and a transfer is
      re-credited if the collection did and the payout did not. Until then nothing is paid. */
  ghost predicate Truthful(w: World, reference: string, books: Books)
    requires reference in w.txs
  {
    var tx, paid := w.txs[reference], PaymentsFor(w.payments, reference);
    var collected, sent := Through(books, reference, In), Through(books, reference, Out);
    if tx.payin == Some(Pending) || tx.payout == Some(Pending) then tx.status == Pending && paid == []
    else match tx.kind
      case Deposit =>
        && tx.status == (if collected then Success else Failed)
        && paid == if collected then Paid(reference, tx, tx.amount) else []
      case Withdrawal =>
        && tx.status == (if sent then Success else Failed)
        && paid == if sent then [] else Paid(reference, tx, tx.amount)
      case Transfer =>
        && tx.status == (if !collected then Failed else if sent then Success else FailedPayOut)
        && paid == if collected && !sent
                   then Paid(reference, tx, CreditOnPayOutFailure(tx.total, tx.source)) else []
  }

  /** Over every run, for every kind of transaction. */
  lemma OutcomesAreTrue(w0: World, events: seq<Event>, books: Books, reference: string)
    requires Opening(w0) && RequestedRun(w0, events) && HonestRun(w0, events, books) && Matches(w0, books)
    requires reference in Run(w0, events).txs
    ensures Truthful(Run(w0, events), reference, books)
  {
    RunKeeps(w0, events);
    RunMatches(w0, events, books);
    var w := Run(w0, events);
    assert TxOk(w, reference) && LegMatches(books, reference, In, w.txs[reference].payin)
                              && LegMatches(books, reference, Out, w.txs[reference].payout);
  }

  /** What a collection brings in, net of what JEKO keeps of it. */
  function NetReceipt(tx: Tx, reference: string, books: Books): real {
    tx.total - books.kept(reference)
  }

  /** What JEKO holds for a transfer: its net collection, less its payout. */
  function Held(tx: Tx, reference: string, books: Books): real {
    (if Through(books, reference, In) then NetReceipt(tx, reference, books) else 0.0)
    - (if Through(books, reference, Out) then tx.amount else 0.0)
  }

  ghost function SumOf(payments: seq<Payment>): real {
    if payments == [] then 0.0 else SumOf(payments[..|payments| - 1]) + payments[|payments| - 1].amount
  }

  ghost function Recredited(w: World, reference: string): real {
    SumOf(PaymentsFor(w.payments, reference))
  }

  /** The fee rule's estimate of what JEKO keeps. */
  function RuleFee(tx: Tx): real {
    JekoDepositFee(tx.total, tx.source) as real
  }

  lemma RecreditedOfState(w: World, reference: string)
    requires reference in w.txs && TxOk(w, reference) && w.txs[reference].kind == Transfer
    ensures var tx := w.txs[reference];
            Recredited(w, reference) == if tx.status == FailedPayOut then tx.total - RuleFee(tx) else 0.0
  {
    SumOfCredit(reference, w.txs[reference]);
  }

  lemma SumOfCredit(reference: string, tx: Tx)
    ensures SumOf(CreditOf(reference, tx)) == if Credited(tx).Some? then Credited(tx).value else 0.0
  {
    if Credited(tx).Some? {
      var p := Payment(reference, tx.owner, Credited(tx).value);
      assert CreditOf(reference, tx) == [p] && [p][..0] == [];
    }
  }

  /** What a transfer leaves: a success the platform fee less what JEKO kept, a failed payout what the rule expected
      JEKO to keep less what it kept, a failed collection nothing; before it is over, all that JEKO holds for it. */
  function Margin(tx: Tx, reference: string, books: Books): real {
    match tx.status
    case Success => PlatformFee(tx.amount) as real - books.kept(reference)
    case FailedPayOut => RuleFee(tx) - books.kept(reference)
    case Failed => 0.0
    case Pending => Held(tx, reference, books)
  }

  predicate KeptByRule(w: World, reference: string, books: Books) {
    reference in w.txs && books.kept(reference) <= RuleFee(w.txs[reference])
  }

  /** What JEKO holds is what the owner was re-credited plus the margin. Where JEKO keeps no more than the rule says,
      the margin is never negative, and above JEKO's payout fee after a success of at least the minimum amount. */
  ghost predicate Balanced(w: World, reference: string, books: Books)
    requires reference in w.txs
  {
    var tx := w.txs[reference];
    var margin := Margin(tx, reference, books);
    && Held(tx, reference, books) == Recredited(w, reference) + margin
    && (KeptByRule(w, reference, books) ==> margin >= 0.0)
    && (KeptByRule(w, reference, books) && tx.status == Success && tx.amount >= 250.0 ==>
          margin > Ceiling(0.015 * tx.amount) as real)
  }

  /** A transfer of a non-negative amount; JEKO settles no payout that it was not asked for. */
  predicate Accountable(w: World, reference: string, books: Books) {
    && reference in w.txs && w.txs[reference].kind == Transfer && w.txs[reference].amount >= 0.0
    && (w.txs[reference].payout.None? ==> (reference, Out) !in books.settled)
  }

  lemma AccountOfWorld(w: World, books: Books, reference: string)
    requires Accountable(w, reference, books) && TxOk(w, reference)
    requires LegMatches(books, reference, In, w.txs[reference].payin)
    requires LegMatches(books, reference, Out, w.txs[reference].payout)
    ensures Balanced(w, reference, books)
  {
    var tx := w.txs[reference];
    RecreditedOfState(w, reference);
    FailureCreditCoversAmount(tx.amount, tx.source);
    if tx.amount >= 250.0 { MarginCoversPayOutFee(tx.amount, tx.source); }
  }

  /** In every reachable state, every transfer's account balances. */
  lemma TransferAccount(w0: World, events: seq<Event>, books: Books, reference: string)
    requires Opening(w0) && RequestedRun(w0, events) && HonestRun(w0, events, books) && Matches(w0, books)
    requires Accountable(Run(w0, events), reference, books)
    ensures Balanced(Run(w0, events), reference, books)
  {
    RunKeeps(w0, events);
    RunMatches(w0, events, books);
    AccountOfWorld(Run(w0, events), books, reference);
  }

  /** A re-credit is covered by what JEKO holds for its transfer if and only if JEKO kept no more than the rule. */
  lemma RecreditCoveredIffRuleHolds(w0: World, events: seq<Event>, books: Books, reference: string)
    requires Opening(w0) && RequestedRun(w0, events) && HonestRun(w0, events, books) && Matches(w0, books)
    requires Accountable(Run(w0, events), reference, books)
    requires Run(w0, events).txs[reference].status == FailedPayOut
    ensures var w := Run(w0, events);
            Recredited(w, reference) <= Held(w.txs[reference], reference, books)
            <==> KeptByRule(w, reference, books)
  {
    TransferAccount(w0, events, books, reference);
  }

  ghost function Sum(references: seq<string>, f: string -> real): real {
    if references == [] then 0.0 else Sum(references[..|references| - 1], f) + f(references[|references| - 1])
  }

  ghost function HeldFor(w: World, books: Books): string -> real {
    r => if r in w.txs then Held(w.txs[r], r, books) else 0.0
  }

  ghost function RecreditedFor(w: World): string -> real {
    r => Recredited(w, r)
  }

  ghost function MarginFor(w: World, books: Books): string -> real {
    r => if r in w.txs then Margin(w.txs[r], r, books) else 0.0
  }

  /** Solvency: over any collection of transfers, what JEKO holds (collections, net, less payouts) is what their
      owners were re-credited plus the margins; where JEKO keeps no more than the rule, it covers the re-credits. */
  lemma {:induction false} RecreditsAreCovered(w0: World, events: seq<Event>, books: Books, references: seq<string>)
    requires Opening(w0) && RequestedRun(w0, events) && HonestRun(w0, events, books) && Matches(w0, books)
    requires forall r :: r in references ==> Accountable(Run(w0, events), r, books)
    ensures var w := Run(w0, events);
            && Sum(references, HeldFor(w, books))
               == Sum(references, RecreditedFor(w)) + Sum(references, MarginFor(w, books))
            && ((forall r :: r in references ==> KeptByRule(w, r, books)) ==>
                  Sum(references, RecreditedFor(w)) <= Sum(references, HeldFor(w, books)))
  {
    if references != [] {
      var r := references[|references| - 1];
      assert Accountable(Run(w0, events), r, books);
      TransferAccount(w0, events, books, r);
      RecreditsAreCovered(w0, events, books, references[..|references| - 1]);
    }
  }
}
