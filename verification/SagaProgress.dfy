/** References and raw statuses, webhooks and reconciliations as events of the saga, and how many reconciliation
    passes a transaction needs.
 */
module SagaProgress {
  import opened Numeric
  import opened SagaModel
  import opened SagaLaws

  // ---- The service calls are events ----

  /** The suffix that is added when a leg is requested is removed when it comes back. */
  lemma SplitUndoesSuffix(reference: string, leg: Leg)
    ensures SplitReference(reference + Suffix(leg)) == (reference, leg)
  {
    var s := reference + Suffix(leg);
    assert s[|reference|..] == Suffix(leg) && s[..|reference|] == reference;
    if leg == Out {
      assert s[|s| - 3..][2] == 'T' && "-IN"[2] == 'N';
    }
  }

  /** A webhook for a leg we requested is one delivery to that leg, under its dedup id. */
  lemma WebhookIsDelivery(w: World, id: string, reference: string, leg: Leg, raw: string, answer: Answer)
    ensures var d := LegEvent(reference, leg, WebhookSuccess(raw), answer);
            var (w', result) := ProcessWebhook(w, id, Some(reference + Suffix(leg)), raw, answer);
            && w' == Next(w, Webhook(id, d))
            && result == if id in w.seen then AlreadyProcessed
                         else if reference in w.txs then Processed(reference) else NotFound
  {
    SplitUndoesSuffix(reference, leg);
  }

  /** A reconciliation pass changes nothing, or it is one delivery to a leg that is pending. A dry run finds the
      same and changes nothing. */
  lemma ReconcileIsDelivery(w: World, reference: string, payinQuery: Query, payoutQuery: Query, answer: Answer)
    requires reference in w.txs
    ensures var r := Reconcile(w, reference, true, payinQuery, payoutQuery, answer);
            var dry := Reconcile(w, reference, false, payinQuery, payoutQuery, answer);
            var f := Find(w.txs[reference], payinQuery, payoutQuery);
            && r.Some? && dry == Some((w, f.actions))
            && f.actions != [] && f.actions <= r.value.1
            && if f.settled.None? then r == dry
               else var (leg, success) := f.settled.value;
                    && LegStatus(w.txs[reference], leg) == Some(Pending)
                    && r.value.0 == Next(w, Reconciled(LegEvent(reference, leg, success, answer)))
  {
  }

  /** The webhook's reading of a raw status and reconciliation's agree exactly on these words. On "completed" and
      "successful" they contradict each other, and on anything else only the webhook has an answer. */
  lemma StatusMapsAgree(raw: string)
    ensures MapJekoStatus(Some(raw)) == Some(WebhookSuccess(raw))
       <==> LowerCase(raw) in {"success", "error", "failed", "cancelled", "canceled", "rejected"}
  {
    assert |"success"| == 7 && |"completed"| == 9 && |"successful"| == 10;
    assert |"error"| == 5 && |"failed"| == 6 && |"cancelled"| == 9 && |"canceled"| == 8 && |"rejected"| == 8;
    assert "cancelled"[1] == 'a' && "completed"[1] == 'o';
  }

  // ---- Bounded progress ----

  /** How many more legs reconciliation has to settle. */
  function LegsLeft(tx: Tx): nat {
    if tx.payin == Some(Pending) then 2 else if tx.payout == Some(Pending) then 1 else 0
  }

  /** A pending leg carries the id JEKO gave for it. */
  predicate IdsKnown(tx: Tx) {
    && (tx.payin == Some(Pending) ==> tx.payinId.Some? && tx.payinId.value != "")
    && (tx.payout == Some(Pending) ==> tx.payoutId.Some? && tx.payoutId.value != "")
  }

  predicate Definitive(query: Query) {
    query.Raw? && MapJekoStatus(query.status).Some?
  }

  /** The three queries of one pass; JEKO answers each with a status it recognises, and gives a payout an id. */
  datatype Round = Round(payin: Query, payout: Query, answer: Answer)

  predicate Answered(r: Round) {
    Definitive(r.payin) && Definitive(r.payout) && IdGiven(r.answer)
  }

  predicate IdGiven(answer: Answer) {
    answer.Accepted? ==> answer.id != ""
  }

  predicate Watched(w: World, reference: string) {
    && reference in w.txs
    && var tx := w.txs[reference];
    tx.kind != Deposit && JointOk(tx) && IdsKnown(tx)
  }

  function Pass(w: World, reference: string, r: Round): World {
    var result := Reconcile(w, reference, true, r.payin, r.payout, r.answer);
    if result.None? then w else result.value.0
  }

  /** A pass with definitive answers settles a leg of every unfinished transaction. */
  lemma PassMakesProgress(w: World, reference: string, r: Round)
    requires Watched(w, reference) && Answered(r)
    ensures var w' := Pass(w, reference, r);
            && Watched(w', reference)
            && (if LegsLeft(w.txs[reference]) == 0 then w' == w
                else LegsLeft(w'.txs[reference]) < LegsLeft(w.txs[reference]))
            && (forall s :: s in w.txs && s != reference ==> s in w'.txs && w'.txs[s] == w.txs[s])
  {
    var tx := w.txs[reference];
    var f := Find(tx, r.payin, r.payout);
    if f.settled.Some? {
      HandlerKeepsJointIffStarted(tx, LegEvent(reference, f.settled.value.0, f.settled.value.1, r.answer));
    }
  }

  /** No event sets a transaction back. */
  lemma EventNeverSetsBack(w: World, reference: string, e: Event)
    requires Watched(w, reference) && Requested(w, e)
    requires LegEventOf(e).Some? ==> IdGiven(LegEventOf(e).value.answer)
    ensures Watched(Next(w, e), reference)
    ensures LegsLeft(Next(w, e).txs[reference]) <= LegsLeft(w.txs[reference])
  {
    var d := LegEventOf(e);
    if d.Some? && d.value.reference == reference {
      HandlerKeepsJointIffStarted(w.txs[reference], d.value);
    }
  }

  /** Nor does any pass, whatever JEKO answers. */
  lemma PassNeverSetsBack(w: World, reference: string, r: Round)
    requires Watched(w, reference) && IdGiven(r.answer)
    ensures var w' := Pass(w, reference, r);
            Watched(w', reference) && LegsLeft(w'.txs[reference]) <= LegsLeft(w.txs[reference])
  {
    ReconcileIsDelivery(w, reference, r.payin, r.payout, r.answer);
    var f := Find(w.txs[reference], r.payin, r.payout);
    if f.settled.Some? {
      EventNeverSetsBack(w, reference, Reconciled(LegEvent(reference, f.settled.value.0, f.settled.value.1, r.answer)));
    }
  }

  ghost predicate Ordinary(w: World, events: seq<Event>) {
    && RequestedRun(w, events)
    && forall e :: e in events && LegEventOf(e).Some? ==> IdGiven(LegEventOf(e).value.answer)
  }

  lemma {:induction false} EventsNeverSetBack(w: World, reference: string, events: seq<Event>)
    requires Watched(w, reference) && Ordinary(w, events)
    ensures Watched(Run(w, events), reference)
    ensures LegsLeft(Run(w, events).txs[reference]) <= LegsLeft(w.txs[reference])
    decreases |events|
  {
    if events != [] {
      var before := events[..|events| - 1];
      EventsNeverSetBack(w, reference, before);
      EventNeverSetsBack(Run(w, before), reference, events[|events| - 1]);
    }
  }

  /** Two passes with definitive answers finish any transaction, whatever webhooks and other passes come before,
      between and after them. */
  lemma TwoPassesFinish(w: World, reference: string, first: Round, between: seq<Event>, second: Round,
                        after: seq<Event>)
    requires Watched(w, reference) && Answered(first) && Answered(second)
    requires Ordinary(Pass(w, reference, first), between)
    requires Ordinary(Pass(Run(Pass(w, reference, first), between), reference, second), after)
    ensures var end := Run(Pass(Run(Pass(w, reference, first), between), reference, second), after);
            && reference in end.txs && Terminal(end.txs[reference].status)
  {
    var w1 := Pass(w, reference, first);
    PassMakesProgress(w, reference, first);
    EventsNeverSetBack(w1, reference, between);
    var w2 := Run(w1, between);
    PassMakesProgress(w2, reference, second);
    var w3 := Pass(w2, reference, second);
    EventsNeverSetBack(w3, reference, after);
    TerminalIffNoLegPending(Run(w3, after).txs[reference]);
  }

  // ---- The loop of auto-reconciliation ----

  /** A delay, what happens in it, and the round after it; None is a round that raised an error and changed nothing. */
  datatype Slot = Slot(meanwhile: seq<Event>, round: Option<Round>)

  predicate Over(w: World, reference: string) {
    reference !in w.txs || Terminal(w.txs[reference].status)
  }

  /** The world after a slot, and whether the loop stops there. */
  function Spend(w: World, reference: string, slot: Slot): (World, bool) {
    var w1 := Run(w, slot.meanwhile);
    if slot.round.None? then (w1, false)
    else if Over(w1, reference) then (w1, true)
    else (Pass(w1, reference, slot.round.value), false)
  }

  /** _auto_reconcile_loop: the world it leaves, and how many rounds it used. */
  function Loop(w: World, reference: string, slots: seq<Slot>): (World, nat)
    decreases |slots|
  {
    if slots == [] then (w, 0)
    else
      var (w1, stop) := Spend(w, reference, slots[0]);
      if stop then (w1, 0)
      else
        var (end, used) := Loop(w1, reference, slots[1..]);
        (end, used + 1)
  }

  /** What happens in the delays, and every answer, keeps to JEKO's part. */
  ghost predicate OrdinaryLoop(w: World, reference: string, slots: seq<Slot>)
    decreases |slots|
  {
    slots == []
    || (Ordinary(w, slots[0].meanwhile)
        && (slots[0].round.Some? ==> IdGiven(slots[0].round.value.answer))
        && OrdinaryLoop(Spend(w, reference, slots[0]).0, reference, slots[1..]))
  }

  /** How many rounds raise or get no definitive answer. */
  function Wasted(slots: seq<Slot>): nat {
    if slots == [] then 0 else Wasted(slots[1..]) + WastedIn(slots[0])
  }

  function WastedIn(slot: Slot): nat {
    if slot.round.Some? && Answered(slot.round.value) then 0 else 1
  }

  /** The loop ends with a terminal transaction if it has as many rounds as legs are left, besides those wasted, and it
      uses no more, whatever webhooks come in its delays. So the three scheduled rounds bear one that is wasted. */
  lemma {:induction false} LoopFinishes(w: World, reference: string, slots: seq<Slot>)
    requires Watched(w, reference) && OrdinaryLoop(w, reference, slots)
    ensures var (end, used) := Loop(w, reference, slots);
            && Watched(end, reference) && used <= |slots|
            && used <= LegsLeft(w.txs[reference]) + Wasted(slots)
            && (|slots| >= LegsLeft(w.txs[reference]) + Wasted(slots) ==> Terminal(end.txs[reference].status))
    decreases |slots|
  {
    if slots == [] {
      TerminalIffNoLegPending(w.txs[reference]);
    } else {
      var (w1, stop) := Spend(w, reference, slots[0]);
      SpendAdvances(w, reference, slots[0]);
      LoopFinishes(w1, reference, slots[1..]);
    }
  }

  /** A slot in which the loop does not stop settles a leg or is wasted. */
  lemma SpendAdvances(w: World, reference: string, slot: Slot)
    requires Watched(w, reference) && Ordinary(w, slot.meanwhile)
    requires slot.round.Some? ==> IdGiven(slot.round.value.answer)
    ensures var (w1, stop) := Spend(w, reference, slot);
            && Watched(w1, reference)
            && (stop ==> Terminal(w1.txs[reference].status))
            && (!stop ==> LegsLeft(w1.txs[reference]) + 1 <= LegsLeft(w.txs[reference]) + WastedIn(slot))
  {
    var w1 := Run(w, slot.meanwhile);
    EventsNeverSetBack(w, reference, slot.meanwhile);
    TerminalIffNoLegPending(w1.txs[reference]);
    if slot.round.Some? && !Over(w1, reference) {
      PassNeverSetsBack(w1, reference, slot.round.value);
      if Answered(slot.round.value) { PassMakesProgress(w1, reference, slot.round.value); }
    }
  }
}
