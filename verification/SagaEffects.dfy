/** What each saga call leaves behind, in the statuses, payments and reports that a caller sees. */
module SagaEffects {
  import opened Numeric
  import opened FeeRules
  import opened SagaModel
  import opened SagaProgress

  // ---- Creation ----

  /** A new transfer of `amount`, with 8 percent of it as `fee`. */
  lemma CreateExactly(w: World, reference: string, owner: UserId, amount: real, source: Operator, start: Start,
                      fee: int)
    requires NearestTo(fee, amount * 8.0 / 100.0)
    ensures var w' := Next(w, Create(reference, owner, amount, source, start));
            var status := if start == RefusedAtOnce then Failed else Pending;
            if reference in w.txs then w' == w
            else w' == World(w.txs[reference := Tx(Transfer, status, Some(status), None, owner, amount,
                                                   amount + fee as real, source,
                                                   if start.Started? then Some(start.id) else None, None)],
                             w.wallets, w.payments, w.seen)
  {
    TotalAddsEightPercent(amount, fee);
  }

  // ---- The outcome of a leg ----

  /** The transaction becomes `tx`, and its owner is paid `amount`, if any. */
  ghost predicate Becomes(w: World, w': World, reference: string, tx: Tx, amount: Option<real>) {
    && w'.txs == w.txs[reference := tx] && w'.seen == w.seen
    && (amount.None? ==> w'.wallets == w.wallets && w'.payments == w.payments)
    && (amount.Some? ==>
          && w'.payments == w.payments + [Payment(reference, tx.owner, amount.value)]
          && w'.wallets == w.wallets[tx.owner := amount.value
                                                 + if tx.owner in w.wallets then w.wallets[tx.owner] else 0.0])
  }

  ghost predicate Settled(leg: Option<Status>) {
    leg == Some(Success) || leg == Some(Failed)
  }

  /** The first report on a collection: FAILED ends the transaction. SUCCESS pays a deposit; otherwise a payout is asked
      for, and if JEKO does not accept it the owner is paid the total less JEKO's deposit fee. */
  lemma CollectionExactly(w: World, d: LegEvent, fee: int)
    requires d.reference in w.txs && d.leg == In
    requires var tx := w.txs[d.reference];
             NearestTo(fee, tx.total * (if tx.source == Wave then 1.5 else 1.0) / 100.0)
    ensures var tx, w' := w.txs[d.reference], Next(w, Reconciled(d));
            if Settled(tx.payin) then w' == w
            else if !d.success then
              Becomes(w, w', d.reference, tx.(payin := Some(Failed), status := Failed), None)
            else if tx.kind == Deposit then
              Becomes(w, w', d.reference, tx.(payin := Some(Success), status := Success), Some(tx.amount))
            else if d.answer.Accepted? then
              Becomes(w, w', d.reference,
                      tx.(payin := Some(Success), payout := Some(Pending), payoutId := Some(d.answer.id)), None)
            else
              Becomes(w, w', d.reference,
                      tx.(payin := Some(Success), payout := Some(Failed), status := FailedPayOut),
                      Some(tx.total - fee as real))
  {
    CreditTakesOffDepositFee(w.txs[d.reference].total, w.txs[d.reference].source, fee);
    assert w.txs[d.reference := w.txs[d.reference]] == w.txs;
  }

  /** The first report on a payout: SUCCESS ends the transaction; FAILED pays a transfer's owner the total less JEKO's
      deposit fee, and any other the amount. */
  lemma PayoutExactly(w: World, d: LegEvent, fee: int)
    requires d.reference in w.txs && d.leg == Out
    requires var tx := w.txs[d.reference];
             NearestTo(fee, tx.total * (if tx.source == Wave then 1.5 else 1.0) / 100.0)
    ensures var tx, w' := w.txs[d.reference], Next(w, Reconciled(d));
            if Settled(tx.payout) then w' == w
            else if d.success then
              Becomes(w, w', d.reference, tx.(payout := Some(Success), status := Success), None)
            else if tx.kind == Transfer then
              Becomes(w, w', d.reference, tx.(payout := Some(Failed), status := FailedPayOut),
                      Some(tx.total - fee as real))
            else
              Becomes(w, w', d.reference, tx.(payout := Some(Failed), status := Failed), Some(tx.amount))
  {
    CreditTakesOffDepositFee(w.txs[d.reference].total, w.txs[d.reference].source, fee);
    assert w.txs[d.reference := w.txs[d.reference]] == w.txs;
  }

  /** Whatever the kind, an event on a pending leg leaves that leg SUCCESS exactly if it reports success, and FAILED
      otherwise. */
  lemma EventDecidesLeg(w: World, d: LegEvent)
    requires d.reference in w.txs
    requires (if d.leg == In then w.txs[d.reference].payin else w.txs[d.reference].payout) == Some(Pending)
    ensures var tx := Next(w, Reconciled(d)).txs[d.reference];
            (if d.leg == In then tx.payin else tx.payout) == Some(if d.success then Success else Failed)
  {
  }

  // ---- Webhooks ----

  lemma LowerCaseLetters(s: string, i: nat)
    requires i < |s|
    ensures |LowerCase(s)| == |s|
    ensures LowerCase(s)[i] == if 'A' <= s[i] <= 'Z' then (s[i] as int + 32) as char else s[i]
  {
  }

  /** No suffix says which leg; then it is taken for the payout's. */
  predicate Bare(base: string) {
    && base != "" && (|base| >= 3 ==> base[|base| - 3..] != "-IN")
    && (|base| >= 4 ==> base[|base| - 4..] != "-OUT")
  }

  lemma SplitsTo(base: string, suffix: string)
    requires suffix == "-IN" || suffix == "-OUT" || (suffix == "" && Bare(base))
    ensures SplitReference(base + suffix) == (base, if suffix == "-IN" then In else Out) && base + suffix != ""
  {
    if suffix == "-IN" { SplitUndoesSuffix(base, In); }
    else if suffix == "-OUT" { SplitUndoesSuffix(base, Out); }
    else { assert base + suffix == base; }
  }

  /** The dedup id comes first, then the reference with its suffix, then the transaction. The leg came through if the
      status, in lower case, is "success". */
  lemma WebhookExactly(w: World, id: string, base: string, suffix: string, raw: string, answer: Answer)
    requires suffix == "-IN" || suffix == "-OUT" || (suffix == "" && Bare(base))
    ensures var (w', result) := ProcessWebhook(w, id, Some(base + suffix), raw, answer);
            var marked := w.(seen := w.seen + {id});
            var leg := if suffix == "-IN" then In else Out;
            if id in w.seen then w' == w && result == AlreadyProcessed
            else if base !in w.txs then w' == marked && result == NotFound
            else && w' == Next(marked, Reconciled(LegEvent(base, leg, LowerCase(raw) == "success", answer)))
                 && result == Processed(base)
  {
    hide SplitReference, LowerCase, Deliver;
    SplitsTo(base, suffix);
  }

  /** A webhook without a reference only marks its id. */
  lemma WebhookWithoutReference(w: World, id: string, raw: string, answer: Answer)
    ensures forall r :: r == None || r == Some("") ==>
              ProcessWebhook(w, id, r, raw, answer)
              == if id in w.seen then (w, AlreadyProcessed) else (w.(seen := w.seen + {id}), NotFound)
  {
  }

  // ---- Reconciliation ----

  predicate SaysYes(q: Query) {
    q.Raw? && q.status.Some? && LowerCase(q.status.value) in {"success", "completed", "successful"}
  }

  predicate SaysNo(q: Query) {
    q.Raw? && q.status.Some? && LowerCase(q.status.value) in {"error", "failed", "cancelled", "canceled", "rejected"}
  }

  lemma NotBoth(q: Query)
    ensures !(SaysYes(q) && SaysNo(q))
  {
    assert |"success"| == 7 && |"completed"| == 9 && |"successful"| == 10;
    assert |"error"| == 5 && |"failed"| == 6 && |"cancelled"| == 9 && |"canceled"| == 8 && |"rejected"| == 8;
    assert "cancelled"[1] == 'a' && "completed"[1] == 'o';
  }

  /** What a pass that finds a leg settled reports, after what it has reported `before`, and what it leaves. */
  ghost predicate Settles(w: World, r: Option<(World, seq<Action>)>, reference: string, leg: Leg, success: bool,
                          apply: bool, answer: Answer, before: seq<Action>)
  {
    var w1 := Next(w, Reconciled(LegEvent(reference, leg, success, answer)));
    var found := before + [Really(leg, success)];
    if !apply then r == Some((w, found))
    else reference in w1.txs && r == Some((w1, found + [Applied(leg, w1.txs[reference].status)]))
  }

  predicate HasId(id: Option<string>) {
    id.Some? && id.value != ""
  }

  /** A pass that has come to the payout looks at it if it is pending, and applies what JEKO says of it. */
  ghost predicate PayoutSeen(w: World, r: Option<(World, seq<Action>)>, reference: string, apply: bool, query: Query,
                             answer: Answer, before: seq<Action>)
    requires reference in w.txs
  {
    if w.txs[reference].payout != Some(Pending) then r == Some((w, if before == [] then [NothingToDo] else before))
    else if !HasId(w.txs[reference].payoutId) then r == Some((w, before + [NoId(Out)]))
    else if query == QueryFailed then r == Some((w, before + [CheckFailed(Out)]))
    else if SaysYes(query) then Settles(w, r, reference, Out, true, apply, answer, before)
    else if SaysNo(query) then Settles(w, r, reference, Out, false, apply, answer, before)
    else r == Some((w, before + [StillPending(Out)]))
  }

  lemma StillThere(w: World, d: LegEvent)
    requires d.reference in w.txs
    ensures d.reference in Deliver(w, d).txs
  {
  }

  /** A pass over a transfer whose collection is pending looks at the collection. It applies what JEKO says of it and
      stops; it stops if JEKO cannot be asked; and it goes on to the payout if JEKO has no definite answer. */
  lemma PassOverCollection(w: World, reference: string, apply: bool, payinQuery: Query, payoutQuery: Query,
                           answer: Answer)
    requires reference in w.txs && w.txs[reference].kind == Transfer && w.txs[reference].payin == Some(Pending)
    ensures var r := Reconcile(w, reference, apply, payinQuery, payoutQuery, answer);
            if !HasId(w.txs[reference].payinId)
            then PayoutSeen(w, r, reference, apply, payoutQuery, answer, [NoId(In)])
            else if payinQuery == QueryFailed then r == Some((w, [CheckFailed(In)]))
            else if SaysYes(payinQuery) then Settles(w, r, reference, In, true, apply, answer, [])
            else if SaysNo(payinQuery) then Settles(w, r, reference, In, false, apply, answer, [])
            else PayoutSeen(w, r, reference, apply, payoutQuery, answer, [StillPending(In)])
  {
    hide LowerCase, Deliver;
    NotBoth(payinQuery);
    NotBoth(payoutQuery);
    StartsEmpty(Really(In, SaysYes(payinQuery)));
    StillThere(w, LegEvent(reference, In, SaysYes(payinQuery), answer));
    StillThere(w, LegEvent(reference, Out, SaysYes(payoutQuery), answer));
  }

  lemma StartsEmpty(a: Action)
    ensures [] + [a] == [a]
  {
  }

  /** A pass over any other transaction looks at the payout. */
  lemma PassOverPayout(w: World, reference: string, apply: bool, payinQuery: Query, payoutQuery: Query, answer: Answer)
    requires reference in w.txs && !(w.txs[reference].kind == Transfer && w.txs[reference].payin == Some(Pending))
    ensures var r := Reconcile(w, reference, apply, payinQuery, payoutQuery, answer);
            PayoutSeen(w, r, reference, apply, payoutQuery, answer, [])
  {
    hide LowerCase, Deliver;
    NotBoth(payoutQuery);
    StillThere(w, LegEvent(reference, Out, SaysYes(payoutQuery), answer));
  }

  lemma PassOverNothing(w: World, reference: string, apply: bool, payinQuery: Query, payoutQuery: Query, answer: Answer)
    requires reference !in w.txs
    ensures Reconcile(w, reference, apply, payinQuery, payoutQuery, answer) == None
  {
  }

  function Said(q: Query): Status {
    if SaysYes(q) then Success else if SaysNo(q) then Failed else Pending
  }

  /** So an applied pass leaves a pending leg as JEKO says, by the three words for success and the five for failure, and
      pending otherwise. */
  lemma PassLeavesWhatJekoSays(w: World, reference: string, payinQuery: Query, payoutQuery: Query, answer: Answer)
    requires reference in w.txs
    ensures var tx, r := w.txs[reference], Reconcile(w, reference, true, payinQuery, payoutQuery, answer);
            && r.Some? && reference in r.value.0.txs
            && var tx' := r.value.0.txs[reference];
            && (tx.kind == Transfer && tx.payin == Some(Pending) && HasId(tx.payinId) ==>
                  tx'.payin == Some(Said(payinQuery)))
            && (!(tx.kind == Transfer && tx.payin == Some(Pending)) && tx.payout == Some(Pending)
                && HasId(tx.payoutId) ==>
                  tx'.payout == Some(Said(payoutQuery)))
  {
    NotBoth(payinQuery);
    NotBoth(payoutQuery);
  }

  // ---- The loop ----

  /** What happens in each delay, and what the loop delivers after it. */
  function Interleaved(slots: seq<Slot>, passes: seq<seq<Event>>): seq<Event>
    requires |passes| <= |slots|
    decreases |passes|
  {
    if passes == [] then [] else slots[0].meanwhile + passes[0] + Interleaved(slots[1..], passes[1..])
  }

  lemma {:induction false} RunOn(w: World, a: seq<Event>, b: seq<Event>)
    ensures Run(w, a + b) == Run(Run(w, a), b)
    decreases |b|
  {
    if b == [] {
      assert a + b == a;
    } else {
      assert (a + b)[..|a + b| - 1] == a + b[..|b| - 1];
      RunOn(w, a, b[..|b| - 1]);
    }
  }

  /** A slot is a run: what happens in the delay, and at most one delivery to a pending leg of the transaction; none if
      the round raises or the transaction is over. */
  lemma SpendIsRun(w: World, reference: string, slot: Slot) returns (pass: seq<Event>)
    ensures var (w1, stop) := Spend(w, reference, slot);
            var met := Run(w, slot.meanwhile);
            && w1 == Run(w, slot.meanwhile + pass)
            && (stop <==> slot.round.Some?
                          && (reference in met.txs ==> met.txs[reference].status in {Success, Failed, FailedPayOut}))
            && (stop || slot.round.None? ==> pass == [])
            && |pass| <= 1 && forall e :: e in pass ==> e.Reconciled? && e.e.reference == reference
  {
    var met := Run(w, slot.meanwhile);
    pass := [];
    if slot.round.Some? && !Over(met, reference) {
      var round := slot.round.value;
      ReconcileIsDelivery(met, reference, round.payin, round.payout, round.answer);
      var f := Find(met.txs[reference], round.payin, round.payout);
      if f.settled.Some? {
        pass := [Reconciled(LegEvent(reference, f.settled.value.0, f.settled.value.1, round.answer))];
        assert pass[..0] == [];
      }
    }
    RunOn(w, slot.meanwhile, pass);
  }

  /** So the loop is a run, and keeps what runs keep: it lets everything happen that happens in its delays, up to the
      one in which it finds the transaction over, and delivers at most once after each. */
  lemma {:induction false} LoopIsRun(w: World, reference: string, slots: seq<Slot>) returns (passes: seq<seq<Event>>)
    ensures var (end, used) := Loop(w, reference, slots);
            && used <= |passes| <= |slots| && |passes| <= used + 1
            && end == Run(w, Interleaved(slots, passes))
    ensures forall i :: 0 <= i < |passes| ==>
              |passes[i]| <= 1 && forall e :: e in passes[i] ==> e.Reconciled? && e.e.reference == reference
    decreases |slots|
  {
    if slots == [] {
      passes := [];
    } else {
      var (w1, stop) := Spend(w, reference, slots[0]);
      var pass := SpendIsRun(w, reference, slots[0]);
      if stop {
        passes := [pass];
        assert slots[0].meanwhile + pass + [] == slots[0].meanwhile + pass;
      } else {
        var rest := LoopIsRun(w1, reference, slots[1..]);
        passes := [pass] + rest;
        RunOn(w, slots[0].meanwhile + pass, Interleaved(slots[1..], rest));
        assert passes[1..] == rest;
      }
    }
  }
}
