/** Transfers through JEKO: a collection leg (-IN) whose success starts a payout leg (-OUT), driven by webhooks and
    by reconciliation. One handler and its commit are one atomic step.
 */
module SagaModel {
  import opened Numeric
  import opened FeeRules

  type UserId = nat

  datatype Kind = Transfer | Deposit | Withdrawal
  datatype Status = Pending | Success | Failed | FailedPayOut
  datatype Leg = In | Out

  /** A transaction row. `payin` and `payout` are the two leg statuses; a leg that was never started is None. */
  datatype Tx = Tx(kind: Kind, status: Status, payin: Option<Status>, payout: Option<Status>, owner: UserId,
                   amount: real, total: real, source: Operator, payinId: Option<string>, payoutId: Option<string>)

  /** JEKO's answer to a request for a payout: accepted under an id, or an error. */
  datatype Answer = Accepted(id: string) | NotAccepted

  /** JEKO's answer to a request for a collection: accepted, refused (4xx), or no answer. */
  datatype Start = Started(id: string) | RefusedAtOnce | Unreachable

  /** One call to credit_wallet. */
  datatype Payment = Payment(reference: string, owner: UserId, amount: real)

  /** The transactions by internal reference, the wallets, the payments made into them, and the webhook ids
      whose dedup key is alive. */
  datatype World = World(txs: map<string, Tx>, wallets: map<UserId, real>, payments: seq<Payment>, seen: set<string>)

  predicate TerminalLeg(leg: Option<Status>) {
    leg == Some(Success) || leg == Some(Failed)
  }

  /** The statuses at which auto-reconciliation stops. */
  predicate Terminal(s: Status) {
    s == Success || s == Failed || s == FailedPayOut
  }

  function NewTransfer(owner: UserId, amount: real, source: Operator, start: Start): Tx {
    var tx := Tx(Transfer, Pending, Some(Pending), None, owner, amount, TotalToCollect(amount), source, None, None);
    match start
    case Started(id) => tx.(payinId := Some(id))
    case RefusedAtOnce => tx.(status := Failed, payin := Some(Failed))
    case Unreachable => tx
  }

  // ---- The handlers ----

  /** A handler's new transaction, and what it credits to the owner's wallet. */
  datatype Handled = Handled(tx: Tx, credit: Option<real>)

  function HandlePayIn(tx: Tx, success: bool, answer: Answer): Handled {
    if TerminalLeg(tx.payin) then Handled(tx, None)
    else if !success then Handled(tx.(payin := Some(Failed), status := Failed), None)
    else
      var paid := tx.(payin := Some(Success));
      if tx.kind == Deposit then Handled(paid.(status := Success), Some(tx.amount))
      else match answer
        case Accepted(id) => Handled(paid.(payoutId := Some(id), payout := Some(Pending)), None)
        case NotAccepted =>
          Handled(paid.(payout := Some(Failed), status := FailedPayOut),
                  Some(CreditOnPayOutFailure(tx.total, tx.source)))
  }

  function HandlePayOut(tx: Tx, success: bool): Handled {
    if TerminalLeg(tx.payout) then Handled(tx, None)
    else if success then Handled(tx.(payout := Some(Success), status := Success), None)
    else if tx.kind == Transfer then
      Handled(tx.(payout := Some(Failed), status := FailedPayOut), Some(CreditOnPayOutFailure(tx.total, tx.source)))
    else Handled(tx.(payout := Some(Failed), status := Failed), Some(tx.amount))
  }

  /** What a leg of a transaction came to, and JEKO's answer should a payout be requested now. */
  datatype LegEvent = LegEvent(reference: string, leg: Leg, success: bool, answer: Answer)

  function Handle(tx: Tx, e: LegEvent): Handled {
    if e.leg == In then HandlePayIn(tx, e.success, e.answer) else HandlePayOut(tx, e.success)
  }

  function Balance(w: World, u: UserId): real {
    if u in w.wallets then w.wallets[u] else 0.0
  }

  function Pay(w: World, p: Payment): World {
    w.(wallets := w.wallets[p.owner := Balance(w, p.owner) + p.amount], payments := w.payments + [p])
  }

  /** The handler runs on the transaction of that reference; an unknown reference changes nothing. */
  function Deliver(w: World, e: LegEvent): World {
    if e.reference !in w.txs then w
    else
      var h := Handle(w.txs[e.reference], e);
      var w1 := w.(txs := w.txs[e.reference := h.tx]);
      if h.credit.Some? then Pay(w1, Payment(e.reference, h.tx.owner, h.credit.value)) else w1
  }

  // ---- References and raw statuses ----

  predicate EndsWith(s: string, suffix: string) {
    |suffix| <= |s| && s[|s| - |suffix|..] == suffix
  }

  function SplitReference(reference: string): (string, Leg) {
    if EndsWith(reference, "-IN") then (reference[..|reference| - 3], In)
    else if EndsWith(reference, "-OUT") then (reference[..|reference| - 4], Out)
    else (reference, Out)
  }

  function Suffix(leg: Leg): string {
    if leg == In then "-IN" else "-OUT"
  }

  function LowerChar(c: char): char {
    if 'A' <= c <= 'Z' then c - 'A' + 'a' else c
  }

  function LowerCase(s: string): string {
    seq(|s|, i requires 0 <= i < |s| => LowerChar(s[i]))
  }

  /** process_jeko_webhook: every status but "success" is a failure. */
  predicate WebhookSuccess(raw: string) {
    LowerCase(raw) == "success"
  }

  /** map_jeko_status: None is not a definitive answer. */
  function MapJekoStatus(raw: Option<string>): Option<bool> {
    if raw.None? then None
    else
      var value := LowerCase(raw.value);
      if value in {"success", "completed", "successful"} then Some(true)
      else if value in {"error", "failed", "cancelled", "canceled", "rejected"} then Some(false)
      else None
  }

  // ---- Webhooks ----

  datatype WebhookResult = AlreadyProcessed | NotFound | Processed(reference: string)

  function ProcessWebhook(w: World, id: string, reference: Option<string>, raw: string, answer: Answer)
    : (World, WebhookResult)
  {
    if id in w.seen then (w, AlreadyProcessed)
    else
      var w1 := w.(seen := w.seen + {id});
      if reference.None? || reference.value == "" then (w1, NotFound)
      else
        var (base, leg) := SplitReference(reference.value);
        if base !in w.txs then (w1, NotFound)
        else (Deliver(w1, LegEvent(base, leg, WebhookSuccess(raw), answer)), Processed(base))
  }

  // ---- Reconciliation ----

  /** JEKO's answer to a status query: a raw status, or an API or network error. */
  datatype Query = Raw(status: Option<string>) | QueryFailed

  datatype Action =
    | NoId(leg: Leg) | CheckFailed(leg: Leg) | StillPending(leg: Leg) | Really(leg: Leg, success: bool)
    | Applied(leg: Leg, status: Status) | NothingToDo

  /** What a reconciliation pass decides before it applies anything: the actions it reports, and the leg it found
      settled. */
  datatype Finding = Finding(actions: seq<Action>, settled: Option<(Leg, bool)>)

  function FindPayIn(tx: Tx, query: Query): (Finding, bool)
    requires tx.kind == Transfer && tx.payin == Some(Pending)
  {
    if tx.payinId.None? || tx.payinId.value == "" then (Finding([NoId(In)], None), false)
    else match query
      case QueryFailed => (Finding([CheckFailed(In)], None), true)
      case Raw(status) =>
        var outcome := MapJekoStatus(status);
        if outcome.None? then (Finding([StillPending(In)], None), false)
        else (Finding([Really(In, outcome.value)], Some((In, outcome.value))), true)
  }

  function FindPayOut(tx: Tx, actions: seq<Action>, query: Query): Finding {
    if tx.payout == Some(Pending) then
      if tx.payoutId.None? || tx.payoutId.value == "" then Finding(actions + [NoId(Out)], None)
      else match query
        case QueryFailed => Finding(actions + [CheckFailed(Out)], None)
        case Raw(status) =>
          var outcome := MapJekoStatus(status);
          if outcome.None? then Finding(actions + [StillPending(Out)], None)
          else Finding(actions + [Really(Out, outcome.value)], Some((Out, outcome.value)))
    else if actions == [] then Finding([NothingToDo], None)
    else Finding(actions, None)
  }

  function Find(tx: Tx, payinQuery: Query, payoutQuery: Query): Finding {
    if tx.kind == Transfer && tx.payin == Some(Pending) then
      var (finding, stop) := FindPayIn(tx, payinQuery);
      if stop then finding else FindPayOut(tx, finding.actions, payoutQuery)
    else FindPayOut(tx, [], payoutQuery)
  }

  /** reconcile_transaction_by_reference: the new world and the reported actions; None if there is no such
      transaction. */
  function Reconcile(w: World, reference: string, apply: bool, payinQuery: Query, payoutQuery: Query,
                     answer: Answer): Option<(World, seq<Action>)> {
    if reference !in w.txs then None
    else
      var f := Find(w.txs[reference], payinQuery, payoutQuery);
      if f.settled.None? || !apply then Some((w, f.actions))
      else
        var w1 := Deliver(w, LegEvent(reference, f.settled.value.0, f.settled.value.1, answer));
        Some((w1, f.actions + [Applied(f.settled.value.0, w1.txs[reference].status)]))
  }

  // ---- Runs ----

  datatype Event =
    | Create(reference: string, owner: UserId, amount: real, source: Operator, start: Start)
    | Webhook(id: string, e: LegEvent)
    | Reconciled(e: LegEvent)
    | Forget(id: string)

  /** Create inserts a row unless its reference is taken. Webhook is a delivery under a dedup id, Reconciled a
      reconciliation that found its leg settled and applied it, Forget the expiry of a dedup key. */
  function Next(w: World, e: Event): World {
    match e
    case Create(reference, owner, amount, source, start) =>
      if reference in w.txs then w else w.(txs := w.txs[reference := NewTransfer(owner, amount, source, start)])
    case Webhook(id, d) => if id in w.seen then w else Deliver(w.(seen := w.seen + {id}), d)
    case Reconciled(d) => Deliver(w, d)
    case Forget(id) => w.(seen := w.seen - {id})
  }

  function Run(w: World, events: seq<Event>): World
    decreases |events|
  {
    if events == [] then w else Next(Run(w, events[..|events| - 1]), events[|events| - 1])
  }
}
