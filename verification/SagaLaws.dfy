/** Laws of the transfer saga over every run of creations, webhooks and reconciliations, duplicated and reordered
    as they may be.
 */
module SagaLaws {
  import opened Numeric
  import opened FeeRules
  import opened SagaModel

  // ---- The joint state of the two legs ----

  predicate JointOk(tx: Tx) {
    match tx.kind
    case Transfer =>
      (tx.status, tx.payin, tx.payout) in {
        (Pending, Some(Pending), None), (Failed, Some(Failed), None), (Pending, Some(Success), Some(Pending)),
        (Success, Some(Success), Some(Success)), (FailedPayOut, Some(Success), Some(Failed))}
    case Deposit =>
      (tx.status, tx.payin, tx.payout) in {
        (Pending, Some(Pending), None), (Failed, Some(Failed), None), (Success, Some(Success), None)}
    case Withdrawal =>
      (tx.status, tx.payin, tx.payout) in {
        (Pending, None, Some(Pending)), (Failed, None, Some(Failed)), (Success, None, Some(Success))}
  }

  function LegStatus(tx: Tx, leg: Leg): Option<Status> {
    if leg == In then tx.payin else tx.payout
  }

  /** Auto-reconciliation stops exactly when no leg is pending. */
  lemma TerminalIffNoLegPending(tx: Tx)
    requires JointOk(tx)
    ensures Terminal(tx.status) <==> tx.payin != Some(Pending) && tx.payout != Some(Pending)
  {
  }

  /** A handler keeps the joint state if and only if its leg had been started; a webhook for a leg that was never
      asked of JEKO breaks it. */
  lemma HandlerKeepsJointIffStarted(tx: Tx, e: LegEvent)
    requires JointOk(tx)
    ensures JointOk(Handle(tx, e).tx) <==> LegStatus(tx, e.leg).Some?
  {
  }

  /** A second event for a leg, whatever it says, changes nothing and credits nothing. */
  lemma SettledLegAbsorbs(tx: Tx, e: LegEvent)
    requires TerminalLeg(LegStatus(tx, e.leg))
    ensures Handle(tx, e) == Handled(tx, None)
  {
  }

  /** An event settles its leg, for good as long as events only concern started legs. */
  lemma EventSettlesLeg(tx: Tx, e: LegEvent, leg: Leg)
    requires JointOk(tx) && LegStatus(tx, e.leg).Some?
    ensures TerminalLeg(LegStatus(Handle(tx, e).tx, e.leg))
    ensures TerminalLeg(LegStatus(tx, leg)) ==> TerminalLeg(LegStatus(Handle(tx, e).tx, leg))
  {
  }

  // ---- Payments ----

  function PaymentsFor(payments: seq<Payment>, reference: string): seq<Payment> {
    if payments == [] then []
    else
      var rest, p := PaymentsFor(payments[..|payments| - 1], reference), payments[|payments| - 1];
      if p.reference == reference then rest + [p] else rest
  }

  ghost function PaidTo(payments: seq<Payment>, u: UserId): real {
    if payments == [] then 0.0
    else
      var p := payments[|payments| - 1];
      PaidTo(payments[..|payments| - 1], u) + if p.owner == u then p.amount else 0.0
  }

  /** What a transaction in this state has credited to its owner's wallet. */
  function Credited(tx: Tx): Option<real> {
    match tx.kind
    case Transfer =>
      if tx.status == FailedPayOut then Some(CreditOnPayOutFailure(tx.total, tx.source)) else None
    case Deposit => if tx.status == Success then Some(tx.amount) else None
    case Withdrawal => if tx.status == Failed then Some(tx.amount) else None
  }

  function CreditOf(reference: string, tx: Tx): seq<Payment> {
    var c := Credited(tx);
    if c.Some? then [Payment(reference, tx.owner, c.value)] else []
  }

  ghost predicate TxOk(w: World, reference: string)
    requires reference in w.txs
  {
    var tx := w.txs[reference];
    && JointOk(tx)
    && (tx.kind == Transfer ==> tx.total == TotalToCollect(tx.amount))
    && PaymentsFor(w.payments, reference) == CreditOf(reference, tx)
  }

  ghost predicate WorldOk(w0: World, w: World) {
    && (forall r :: r in w.txs ==> TxOk(w, r))
    && (forall r :: r !in w.txs ==> PaymentsFor(w.payments, r) == [])
    && (forall u :: Balance(w, u) == Balance(w0, u) + PaidTo(w.payments, u))
  }

  /** Nothing has been paid yet; every transaction is new. */
  ghost predicate Opening(w0: World) {
    && w0.payments == [] && w0.seen == {}
    && forall r :: r in w0.txs ==> TxOk(w0, r)
  }

  function LegEventOf(e: Event): Option<LegEvent> {
    match e
    case Webhook(_, d) => Some(d)
    case Reconciled(d) => Some(d)
    case _ => None
  }

  /** JEKO's part: events concern known transactions, and legs JEKO was asked to carry out. */
  predicate Requested(w: World, e: Event) {
    var d := LegEventOf(e);
    d.Some? ==> d.value.reference in w.txs && LegStatus(w.txs[d.value.reference], d.value.leg).Some?
  }

  ghost predicate RequestedRun(w0: World, events: seq<Event>)
    decreases |events|
  {
    events == []
    || (RequestedRun(w0, events[..|events| - 1]) && Requested(Run(w0, events[..|events| - 1]), events[|events| - 1]))
  }

  /** A handler asks for a payment exactly when the state it reaches is one that has paid. */
  lemma HandlerPaysOnce(tx: Tx, d: LegEvent)
    requires JointOk(tx) && LegStatus(tx, d.leg).Some?
    ensures var h := Handle(tx, d);
            && JointOk(h.tx)
            && h.tx == tx.(status := h.tx.status, payin := h.tx.payin, payout := h.tx.payout, payoutId := h.tx.payoutId)
            && Credited(h.tx) == (if h.credit.Some? then h.credit else Credited(tx))
            && (h.credit.Some? ==> Credited(tx).None?)
  {
    HandlerKeepsJointIffStarted(tx, d);
  }

  lemma DeliverKeeps(w0: World, w: World, d: LegEvent)
    requires WorldOk(w0, w)
    requires d.reference in w.txs && LegStatus(w.txs[d.reference], d.leg).Some?
    ensures WorldOk(w0, Deliver(w, d))
  {
    var w' := Deliver(w, d);
    HandlerPaysOnce(w.txs[d.reference], d);
    if w'.payments != w.payments {
      assert w'.payments[..|w.payments|] == w.payments;
    }
    assert forall r :: r in w.txs ==> TxOk(w, r);
  }

  lemma NextKeeps(w0: World, w: World, e: Event)
    requires WorldOk(w0, w) && Requested(w, e)
    ensures WorldOk(w0, Next(w, e))
  {
    match e
    case Create(_, _, _, _, _) =>
    case Webhook(id, d) =>
      if id !in w.seen { DeliverKeeps(w0, w.(seen := w.seen + {id}), d); }
    case Reconciled(d) => DeliverKeeps(w0, w, d);
    case Forget(_) =>
  }

  /** In every reachable state the legs and the status of each transaction agree, it has paid its owner exactly
      what its state says, and each wallet has received exactly those payments. */
  lemma {:induction false} RunKeeps(w0: World, events: seq<Event>)
    requires Opening(w0) && RequestedRun(w0, events)
    ensures WorldOk(w0, Run(w0, events))
    decreases |events|
  {
    if events != [] {
      var before := events[..|events| - 1];
      RunKeeps(w0, before);
      NextKeeps(w0, Run(w0, before), events[|events| - 1]);
    }
  }

  /** Along every run a transfer re-credits its owner at most once, exactly when it ends FAILED_PAYOUT, and by the
      fee rule, whether the payout failed at initiation or later. */
  lemma SingleRecredit(w0: World, events: seq<Event>, reference: string)
    requires Opening(w0) && RequestedRun(w0, events)
    requires var w := Run(w0, events); reference in w.txs && w.txs[reference].kind == Transfer
    ensures var w := Run(w0, events);
            var tx := w.txs[reference];
            PaymentsFor(w.payments, reference)
            == if tx.status == FailedPayOut
               then [Payment(reference, tx.owner, CreditOnPayOutFailure(TotalToCollect(tx.amount), tx.source))]
               else []
  {
    RunKeeps(w0, events);
    assert TxOk(Run(w0, events), reference);
  }

  // ---- Replay absorption ----

  function LegKey(d: LegEvent): (string, Leg) {
    (d.reference, d.leg)
  }

  function LegKeyOf(e: Event): set<(string, Leg)> {
    var d := LegEventOf(e);
    if d.Some? then {LegKey(d.value)} else {}
  }

  /** The legs that had an event. */
  function LegsOf(events: seq<Event>): set<(string, Leg)> {
    if events == [] then {} else LegsOf(events[..|events| - 1]) + LegKeyOf(events[|events| - 1])
  }

  /** The creations and the first event of each leg, delivered without any dedup key. */
  function FirstPerLeg(events: seq<Event>): seq<Event> {
    if events == [] then []
    else
      var before, e := events[..|events| - 1], events[|events| - 1];
      var d := LegEventOf(e);
      if e.Create? then FirstPerLeg(before) + [e]
      else if d.Some? && LegKey(d.value) !in LegsOf(before) then FirstPerLeg(before) + [Reconciled(d.value)]
      else FirstPerLeg(before)
  }

  /** A webhook id always announces the same leg of the same transaction. */
  ghost predicate IdsNameLegs(events: seq<Event>, names: string -> (string, Leg)) {
    forall k :: 0 <= k < |events| && events[k].Webhook? ==> LegKey(events[k].e) == names(events[k].id)
  }

  predicate Same(a: World, b: World) {
    a.txs == b.txs && a.wallets == b.wallets && a.payments == b.payments
  }

  /** Legs that had an event are settled, and a live dedup key names one of them. */
  ghost predicate Absorbing(w: World, legs: set<(string, Leg)>, names: string -> (string, Leg)) {
    && (forall key :: key in legs ==> key.0 in w.txs && TerminalLeg(LegStatus(w.txs[key.0], key.1)))
    && (forall id :: id in w.seen ==> names(id) in legs)
  }

  lemma DeliverAbsorbs(w: World, d: LegEvent, legs: set<(string, Leg)>, names: string -> (string, Leg))
    requires d.reference in w.txs && JointOk(w.txs[d.reference]) && LegStatus(w.txs[d.reference], d.leg).Some?
    requires Absorbing(w, legs, names)
    ensures Absorbing(Deliver(w, d), legs + {LegKey(d)}, names)
    ensures LegKey(d) in legs ==> Same(Deliver(w, d), w)
  {
    EventSettlesLeg(w.txs[d.reference], d, In);
    EventSettlesLeg(w.txs[d.reference], d, Out);
    if LegKey(d) in legs {
      SettledLegAbsorbs(w.txs[d.reference], d);
    }
  }

  lemma NextAbsorbs(w: World, e: Event, legs: set<(string, Leg)>, names: string -> (string, Leg))
    requires (forall r :: r in w.txs ==> JointOk(w.txs[r])) && Requested(w, e) && Absorbing(w, legs, names)
    requires e.Webhook? ==> LegKey(e.e) == names(e.id)
    ensures Absorbing(Next(w, e), legs + LegKeyOf(e), names)
    ensures var d := LegEventOf(e);
            d.Some? ==> Same(Next(w, e), if LegKey(d.value) in legs then w else Deliver(w, d.value))
  {
    match e
    case Create(_, _, _, _, _) =>
    case Webhook(id, d) =>
      if id in w.seen {
        assert legs + {LegKey(d)} == legs;
      } else {
        var marked := w.(seen := w.seen + {id});
        DeliverAbsorbs(w, d, legs, names);
        DeliverSame(marked, w, d);
      }
    case Reconciled(d) => DeliverAbsorbs(w, d, legs, names);
    case Forget(_) =>
  }

  lemma DeliverSame(a: World, b: World, d: LegEvent)
    requires Same(a, b)
    ensures Same(Deliver(a, d), Deliver(b, d)) && Deliver(a, d).seen == a.seen
  {
  }

  lemma CreateSame(a: World, b: World, e: Event)
    requires Same(a, b) && e.Create?
    ensures Same(Next(a, e), Next(b, e))
  {
  }

  lemma RunOneMore(w0: World, events: seq<Event>, e: Event)
    ensures Run(w0, events + [e]) == Next(Run(w0, events), e)
  {
    assert (events + [e])[..|events|] == events;
  }

  lemma {:induction false} Absorption(w0: World, events: seq<Event>, names: string -> (string, Leg))
    requires Opening(w0) && RequestedRun(w0, events) && IdsNameLegs(events, names)
    ensures Absorbing(Run(w0, events), LegsOf(events), names)
    ensures Same(Run(w0, events), Run(w0, FirstPerLeg(events)))
    decreases |events|
  {
    if events != [] {
      var before, e := events[..|events| - 1], events[|events| - 1];
      Absorption(w0, before, names);
      RunKeeps(w0, before);
      var w, kept := Run(w0, before), FirstPerLeg(before);
      NextAbsorbs(w, e, LegsOf(before), names);
      if e.Create? {
        CreateSame(w, Run(w0, kept), e);
        RunOneMore(w0, kept, e);
      } else if LegEventOf(e).Some? {
        DeliverSame(w, Run(w0, kept), LegEventOf(e).value);
        RunOneMore(w0, kept, Reconciled(LegEventOf(e).value));
      }
    }
  }

  /** Whatever is duplicated, replayed or reconciled, and whenever dedup keys expire, transactions, wallets and
      payments end as if only the first event of each leg had been delivered, without any dedup key. So two runs
      that agree on creations and first events end alike. */
  lemma ReplaysAreAbsorbed(w0: World, events: seq<Event>, others: seq<Event>, names: string -> (string, Leg))
    requires Opening(w0)
    requires RequestedRun(w0, events) && IdsNameLegs(events, names)
    requires RequestedRun(w0, others) && IdsNameLegs(others, names)
    ensures Same(Run(w0, events), Run(w0, FirstPerLeg(events)))
    ensures FirstPerLeg(events) == FirstPerLeg(others) ==> Same(Run(w0, events), Run(w0, others))
  {
    Absorption(w0, events, names);
    Absorption(w0, others, names);
  }

  // ---- The dedup key of a webhook that comes too early ----

  /** A webhook came under this id, and its dedup key has not expired since. */
  predicate Remembered(events: seq<Event>, id: string) {
    if events == [] then false
    else
      var e := events[|events| - 1];
      if e == Forget(id) then false
      else (e.Webhook? && e.id == id) || Remembered(events[..|events| - 1], id)
  }

  lemma {:induction false} SeenIffRemembered(w: World, events: seq<Event>, id: string)
    requires id !in w.seen
    ensures id in Run(w, events).seen <==> Remembered(events, id)
    decreases |events|
  {
    if events != [] { SeenIffRemembered(w, events[..|events| - 1], id); }
  }

  /** Every expiry of the key was followed by another webhook under the id. */
  ghost predicate KeyKept(between: seq<Event>, id: string) {
    forall k :: 0 <= k < |between| && between[k] == Forget(id) ==> Renewed(between, k, id)
  }

  ghost predicate Renewed(between: seq<Event>, k: nat, id: string) {
    exists j :: k < j < |between| && between[j].Webhook? && between[j].id == id
  }

  lemma {:induction false} RememberedIffKept(first: Event, between: seq<Event>, id: string)
    requires first.Webhook? && first.id == id
    ensures Remembered([first] + between, id) <==> KeyKept(between, id)
  {
    var events := [first] + between;
    if between != [] {
      var before, last := between[..|between| - 1], between[|between| - 1];
      assert events[..|events| - 1] == [first] + before;
      RememberedIffKept(first, before, id);
      if last == Forget(id) {
        assert !Renewed(between, |between| - 1, id);
      } else if last.Webhook? && last.id == id {
        forall k | 0 <= k < |between| && between[k] == Forget(id) ensures Renewed(between, k, id) {
          assert k < |between| - 1;
        }
      } else {
        forall k | 0 <= k < |before| ensures Renewed(before, k, id) <==> Renewed(between, k, id) {
        }
        forall k | 0 <= k < |before| ensures before[k] == between[k] {
        }
      }
    }
  }

  /** A webhook that comes before its transaction is known has no effect. Delivered again under its id, whatever
      happened in between, it is swallowed if and only if the dedup key is still there; otherwise it is delivered as
      if it came for the first time. So for an unknown transaction the key is more than an optimisation. */
  lemma EarlyWebhookIsLostIffKeyKept(w: World, id: string, d: LegEvent, between: seq<Event>)
    requires d.reference !in w.txs && id !in w.seen
    ensures var first := Webhook(id, d);
            var early, late := Run(w, [first]), Run(w, [first] + between);
            && Same(early, w)
            && (Next(late, first) == late <==> KeyKept(between, id))
            && (!KeyKept(between, id) ==> Same(Next(late, first), Deliver(late, d)))
  {
    var first := Webhook(id, d);
    var late := Run(w, [first] + between);
    RunOneMore(w, [], first);
    assert [] + [first] == [first];
    SeenIffRemembered(w, [first] + between, id);
    RememberedIffKept(first, between, id);
    DeliverSame(late.(seen := late.seen + {id}), late, d);
  }

  /** A webhook lost that way leaves its leg pending, though JEKO has settled it: the transfer was created in between,
      and nothing else reported on that leg. */
  lemma LostWebhookLeavesLegPending(w: World, id: string, d: LegEvent, owner: UserId, amount: real, source: Operator,
                                    payinId: string)
    requires d.reference !in w.txs && id !in w.seen && d.leg == In
    ensures var first, create := Webhook(id, d), Create(d.reference, owner, amount, source, Started(payinId));
            var lost, seen := Run(w, [first] + [create] + [first]), Run(w, [create] + [first]);
            && d.reference in lost.txs && lost.txs[d.reference].payin == Some(Pending)
            && d.reference in seen.txs && TerminalLeg(seen.txs[d.reference].payin)
  {
    var first, create := Webhook(id, d), Create(d.reference, owner, amount, source, Started(payinId));
    RunOneMore(w, [first] + [create], first);
    RunOneMore(w, [first], create);
    RunOneMore(w, [create], first);
    RunOneMore(w, [], create);
    RunOneMore(w, [], first);
    assert [] + [create] == [create] && [] + [first] == [first];
  }
}
