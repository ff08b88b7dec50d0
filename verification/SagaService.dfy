/** The saga's handlers as they run: a transaction row is an object whose fields they update in place. */
module SagaService {
  import opened Numeric
  import opened FeeRules
  import opened SagaModel
  import opened SagaProgress

  class TransactionRow {
    const kind: Kind
    const owner: UserId
    const amount: real
    const total: real
    const source: Operator
    var status: Status
    var payin: Option<Status>
    var payout: Option<Status>
    var payinId: Option<string>
    var payoutId: Option<string>

    ghost function Value(): Tx
      reads this
    {
      Tx(kind, status, payin, payout, owner, amount, total, source, payinId, payoutId)
    }

    constructor (tx: Tx)
      ensures Value() == tx
    {
      kind, owner, amount, total, source := tx.kind, tx.owner, tx.amount, tx.total, tx.source;
      status, payin, payout := tx.status, tx.payin, tx.payout;
      payinId, payoutId := tx.payinId, tx.payoutId;
    }

    /** _handle_payin_webhook; `credit` is what the caller must pay into the owner's wallet. */
    method HandlePayInWebhook(success: bool, answer: Answer) returns (credit: Option<real>)
      modifies this
      ensures Handled(Value(), credit) == HandlePayIn(old(Value()), success, answer)
    {
      credit := None;
      if payin == Some(Success) || payin == Some(Failed) { return; }
      payin := Some(if success then Success else Failed);
      if !success {
        status := Failed;
        return;
      }
      if kind == Deposit {
        status := Success;
        return Some(amount);
      }
      match answer
      case Accepted(id) =>
        payoutId := Some(id);
        payout := Some(Pending);
      case NotAccepted =>
        payout := Some(Failed);
        status := FailedPayOut;
        credit := Some(CreditOnPayOutFailure(total, source));
    }

    /** _handle_payout_webhook. */
    method HandlePayOutWebhook(success: bool) returns (credit: Option<real>)
      modifies this
      ensures Handled(Value(), credit) == HandlePayOut(old(Value()), success)
    {
      credit := None;
      if payout == Some(Success) || payout == Some(Failed) { return; }
      payout := Some(if success then Success else Failed);
      if success {
        status := Success;
        return;
      }
      if kind == Transfer {
        credit := Some(CreditOnPayOutFailure(total, source));
        status := FailedPayOut;
      } else {
        credit := Some(amount);
        status := Failed;
      }
    }
  }

  /** The report of a reconciliation: the transaction as it was found, what was seen and done, and the status after. */
  datatype Report = Report(applied: bool, before: Tx, actions: seq<Action>, statusAfter: Status)

  class Session {
    var rows: map<string, TransactionRow>
    var wallets: map<UserId, real>
    var payments: seq<Payment>
    var seen: set<string>

    /** Each reference has a row object of its own. */
    ghost predicate Valid()
      reads this
    {
      forall r, s :: r in rows && s in rows && r != s ==> rows[r] != rows[s]
    }

    ghost function Txs(): map<string, Tx>
      reads this`rows, rows.Values
    {
      map r | r in rows :: rows[r].Value()
    }

    ghost function Value(): World
      reads this, rows.Values
    {
      World(Txs(), wallets, payments, seen)
    }

    constructor ()
      ensures Valid() && Value() == World(map[], map[], [], {})
    {
      rows, wallets, payments, seen := map[], map[], [], {};
    }

    method CreateTransfer(reference: string, owner: UserId, amount: real, source: Operator, start: Start)
      requires Valid()
      modifies this`rows
      ensures Valid() && fresh(rows.Values - old(rows.Values))
      ensures Value() == Next(old(Value()), Create(reference, owner, amount, source, start))
    {
      if reference in rows { return; }
      ghost var before := rows;
      var row := new TransactionRow(NewTransfer(owner, amount, source, start));
      rows := rows[reference := row];
      assert rows.Values <= before.Values + {row};
      assert Txs() == old(Txs())[reference := row.Value()];
    }

    /** Runs the leg's handler on the row object. */
    method RunHandler(e: LegEvent) returns (credit: Option<real>)
      requires Valid() && e.reference in rows
      modifies rows[e.reference]
      ensures var h := Handle(old(Txs())[e.reference], e);
              credit == h.credit && Txs() == old(Txs())[e.reference := h.tx]
    {
      var row := rows[e.reference];
      if e.leg == In {
        credit := row.HandlePayInWebhook(e.success, e.answer);
      } else {
        credit := row.HandlePayOutWebhook(e.success);
      }
      assert row.Value() == Handle(old(Txs())[e.reference], e).tx;
    }

    /** credit_wallet. */
    method CreditWallet(p: Payment)
      modifies this`wallets, this`payments
      ensures World(Txs(), wallets, payments, seen) == Pay(old(World(Txs(), wallets, payments, seen)), p)
    {
      var balance := if p.owner in wallets then wallets[p.owner] else 0.0;
      wallets := wallets[p.owner := balance + p.amount];
      payments := payments + [p];
    }

    /** The handler, and credit_wallet if it asks for it. */
    method DeliverToLeg(e: LegEvent)
      requires Valid() && e.reference in rows
      modifies this`wallets, this`payments, rows[e.reference]
      ensures Valid()
      ensures Value() == Deliver(old(Value()), e)
    {
      var owner := rows[e.reference].owner;
      var credit := RunHandler(e);
      assert Value() == old(Value()).(txs := Txs());
      if credit.Some? {
        CreditWallet(Payment(e.reference, owner, credit.value));
      }
    }

    method ProcessJekoWebhook(id: string, reference: Option<string>, raw: string, answer: Answer)
      returns (result: WebhookResult)
      requires Valid()
      modifies this, rows.Values
      ensures Valid() && rows == old(rows)
      ensures (Value(), result) == ProcessWebhook(old(Value()), id, reference, raw, answer)
    {
      if id in seen { return AlreadyProcessed; }
      seen := seen + {id};
      if reference.None? || reference.value == "" { return NotFound; }
      var (base, leg) := SplitReference(reference.value);
      if base !in rows { return NotFound; }
      DeliverToLeg(LegEvent(base, leg, WebhookSuccess(raw), answer));
      result := Processed(base);
    }

    /** The pay-in step: what it reports, the outcome if JEKO has one, and whether the pass stops here. */
    method CheckPayIn(row: TransactionRow, query: Query) returns (finding: Finding, stop: bool)
      requires row.kind == Transfer && row.payin == Some(Pending)
      ensures (finding, stop) == FindPayIn(row.Value(), query)
    {
      if row.payinId.None? || row.payinId.value == "" { return Finding([NoId(In)], None), false; }
      if query.QueryFailed? { return Finding([CheckFailed(In)], None), true; }
      var outcome := MapJekoStatus(query.status);
      if outcome.None? { return Finding([StillPending(In)], None), false; }
      return Finding([Really(In, outcome.value)], Some((In, outcome.value))), true;
    }

    method CheckPayOut(row: TransactionRow, actions: seq<Action>, query: Query) returns (finding: Finding)
      ensures finding == FindPayOut(row.Value(), actions, query)
    {
      if row.payout != Some(Pending) {
        return Finding(if actions == [] then [NothingToDo] else actions, None);
      }
      if row.payoutId.None? || row.payoutId.value == "" { return Finding(actions + [NoId(Out)], None); }
      if query.QueryFailed? { return Finding(actions + [CheckFailed(Out)], None); }
      var outcome := MapJekoStatus(query.status);
      if outcome.None? { return Finding(actions + [StillPending(Out)], None); }
      return Finding(actions + [Really(Out, outcome.value)], Some((Out, outcome.value)));
    }

    method FindSettled(reference: string, payinQuery: Query, payoutQuery: Query) returns (finding: Finding)
      requires reference in rows
      ensures finding == Find(Txs()[reference], payinQuery, payoutQuery)
    {
      var row := rows[reference];
      var stop := false;
      finding := Finding([], None);
      if row.kind == Transfer && row.payin == Some(Pending) {
        finding, stop := CheckPayIn(row, payinQuery);
      }
      if !stop {
        finding := CheckPayOut(row, finding.actions, payoutQuery);
      }
    }

    /** Applies a settled leg and commits; what the report calls the new global status. */
    method ApplyLeg(e: LegEvent) returns (status: Status)
      requires Valid() && e.reference in rows
      modifies this`wallets, this`payments, rows[e.reference]
      ensures Valid() && Value() == Deliver(old(Value()), e)
      ensures status == Txs()[e.reference].status
    {
      DeliverToLeg(e);
      status := rows[e.reference].status;
    }

    /** reconcile_transaction_by_reference; None if there is no such transaction. */
    method ReconcileTransaction(reference: string, apply: bool, payinQuery: Query, payoutQuery: Query, answer: Answer)
      returns (report: Option<Report>)
      requires Valid()
      modifies this, rows.Values
      ensures Valid() && rows == old(rows)
      ensures var r := Reconcile(old(Value()), reference, apply, payinQuery, payoutQuery, answer);
              if r.None? then report.None? && Value() == old(Value())
              else && Value() == r.value.0 && reference in rows
                   && report == Some(Report(apply, old(Txs()[reference]), r.value.1, Txs()[reference].status))
    {
      if reference !in rows { return None; }
      var row := rows[reference];
      var before := Tx(row.kind, row.status, row.payin, row.payout, row.owner, row.amount, row.total, row.source,
                       row.payinId, row.payoutId);
      var finding := FindSettled(reference, payinQuery, payoutQuery);
      if finding.settled.None? || !apply { return Some(Report(apply, before, finding.actions, row.status)); }
      var (leg, outcome) := finding.settled.value;
      var status := ApplyLeg(LegEvent(reference, leg, outcome, answer));
      report := Some(Report(apply, before, finding.actions + [Applied(leg, status)], status));
    }

    /** What other calls do to the rows while this one sleeps. */
    method Happen(e: Event)
      requires Valid()
      modifies this, rows.Values
      ensures Valid() && fresh(rows.Values - old(rows.Values))
      ensures Value() == Next(old(Value()), e)
    {
      match e
      case Create(reference, owner, amount, source, start) => CreateTransfer(reference, owner, amount, source, start);
      case Webhook(id, d) =>
        if id !in seen {
          seen := seen + {id};
          if d.reference in rows { DeliverToLeg(d); }
        }
      case Reconciled(d) => if d.reference in rows { DeliverToLeg(d); }
      case Forget(id) => seen := seen - {id};
    }

    method Sleep(meanwhile: seq<Event>)
      requires Valid()
      modifies this, rows.Values
      ensures Valid() && fresh(rows.Values - old(rows.Values))
      ensures Value() == Run(old(Value()), meanwhile)
    {
      for i := 0 to |meanwhile|
        invariant Valid() && fresh(rows.Values - old(rows.Values))
        invariant Value() == Run(old(Value()), meanwhile[..i])
      {
        assert meanwhile[..i + 1][..i] == meanwhile[..i];
        Happen(meanwhile[i]);
      }
      assert meanwhile[..|meanwhile|] == meanwhile;
    }

    /** A delay and the round after it; true if the transaction is over. */
    method Spend(reference: string, slot: Slot) returns (stop: bool)
      requires Valid()
      modifies this, rows.Values
      ensures Valid() && fresh(rows.Values - old(rows.Values))
      ensures (Value(), stop) == SagaProgress.Spend(old(Value()), reference, slot)
    {
      Sleep(slot.meanwhile);
      if slot.round.None? { return false; }
      if reference !in rows || Terminal(rows[reference].status) { return true; }
      ghost var w := Value();
      var round := slot.round.value;
      var report := ReconcileTransaction(reference, true, round.payin, round.payout, round.answer);
      assert Value() == Pass(w, reference, round);
      stop := false;
    }

    /** _auto_reconcile_loop: after each delay one pass, until the transaction is over; a round that raises is logged
        and the next one tries again. */
    method AutoReconcile(reference: string, slots: seq<Slot>) returns (used: nat)
      requires Valid()
      modifies this, rows.Values
      ensures Valid() && fresh(rows.Values - old(rows.Values))
      ensures (Value(), used) == Loop(old(Value()), reference, slots)
    {
      ghost var whole := Loop(Value(), reference, slots);
      used := 0;
      while used < |slots|
        invariant used <= |slots| && Valid() && fresh(rows.Values - old(rows.Values))
        invariant var rest := Loop(Value(), reference, slots[used..]); whole == (rest.0, used + rest.1)
      {
        assert slots[used..][0] == slots[used] && slots[used..][1..] == slots[used + 1..];
        var stop := Spend(reference, slots[used]);
        if stop { return; }
        used := used + 1;
      }
    }
  }
}
