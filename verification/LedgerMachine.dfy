/** The ledger under concurrency: each call is a database transaction that runs as a sequence of micro-steps,
    and any interleaving of the in-flight calls may happen.

    A micro-step locks one key or none, reads the committed ledger, and computes writes that nobody else sees
    until the call ends. A row lock, a wallet lock and the entry of a proof or a reference in its unique index are
    keys; all are kept until the call ends. A call whose next key is held by another call waits.
 */
module LedgerMachine {
  import opened Numeric
  import opened LedgerModel

  type CallId = nat

  datatype Key =
    | RowKey(id: nat) | WalletKey(user: UserId) | ProofKey(provider: Provider, proof: string)
    | ReferenceKey(reference: string)

  /** Uncommitted changes: new balances, one changed row, and new rows. */
  datatype Writes = Writes(balances: map<UserId, int>, row: Option<(nat, Row)>, inserts: seq<Row>)

  datatype Stage =
    | Begun
      /** The row is locked, `tx` is what was read, and its status passed. */
    | RowRead(id: nat, tx: Row)
      /** declare_payin_pending: no row carries the proof. */
    | ProofFree
      /** process_payin_credit: no other row carries the proof, and the amount matches. */
    | ProofChecked(id: nat, tx: Row)
      /** process_payin_credit: the wallet is locked, read and updated. */
    | WalletPaid(id: nat, tx: Row, paid: Writes)
      /** process_internal_transfer: the wallet with the lower user_id is locked. */
    | FirstLocked
      /** The wallets are locked, read and updated; the rows are not inserted yet. */
    | WalletsUpdated(booked: Writes)
      /** process_internal_transfer: the sender's row is inserted. */
    | SenderInserted(booked: Writes)
      /** The outcome is settled; locks are still held. */
    | Ended(outcome: Outcome, writes: Writes)

  datatype Txn = Txn(call: Call, held: set<Key>, stage: Stage)

  /** What a call answered. */
  datatype Reply = Reply(t: CallId, outcome: Outcome)

  /** The committed ledger, the calls in flight, and the settled calls, with their replies, in the order they took
      effect or were refused. */
  datatype Machine = Machine(db: Ledger, txns: map<CallId, Txn>, log: seq<Entry>, replies: seq<Reply>)

  datatype Event = Begin(t: CallId, call: Call) | Advance(t: CallId)

  const NOTHING := Writes(map[], None, [])

  function Apply(l: Ledger, w: Writes): Ledger {
    var rows := if w.row.Some? && w.row.value.0 < |l.rows| then l.rows[w.row.value.0 := w.row.value.1] else l.rows;
    l.(balances := seq(|l.balances|, u requires 0 <= u < |l.balances| =>
                         if u in w.balances then w.balances[u] else l.balances[u]),
       rows := rows + w.inserts)
  }

  /** The references a call generates for the rows it inserts. */
  function NewReferences(c: Call): set<string> {
    match c
    case DeclarePayIn(_, _, _, _, reference) => {reference}
    case RequestPayOut(_, _, reference, _) => {reference}
    case Transfer(_, _, _, senderReference, recipientReference, _) => {senderReference, recipientReference}
    case ManualCredit(_, _, reference) => {reference}
    case _ => {}
  }

  predicate Rejectable(l: Ledger, id: nat) {
    id < |l.rows| && l.rows[id].status == Pending && l.rows[id].kind == PayIn
  }

  function WalletOf(l: Ledger, u: UserId): Option<Key> {
    if u < |l.balances| then Some(WalletKey(u)) else None
  }

  function Lower(a: nat, b: nat): nat { if a < b then a else b }
  function Higher(a: nat, b: nat): nat { if a < b then b else a }

  /** The key the next micro-step locks; None if it locks nothing. */
  function Wants(l: Ledger, x: Txn): Option<Key> {
    match x.stage
    case Begun =>
      (match x.call
       case DeclarePayIn(_, _, provider, proof, _) =>
         if Storable(l, DeclaredRow(x.call)) && proof.Some? then Some(ProofKey(provider, proof.value)) else None
       case CreditPayIn(reference, _, _) =>
         var i := IndexOf(l.rows, reference);
         if i.Some? then Some(RowKey(i.value)) else None
       case RejectPayIn(id) => if Rejectable(l, id) then Some(RowKey(id)) else None
       case RequestPayOut(user, _, _, _) => WalletOf(l, user)
       case ProcessPayOut(id, _, _) => if id < |l.rows| then Some(RowKey(id)) else None
       case Transfer(sender, _, phone, _, _, _) =>
         if TransferRefusal(l.phones, x.call).Some? then None
         else WalletOf(l, Lower(sender, l.phones[phone]))
       case ManualCredit(user, amount, _) => if amount <= 0.0 then None else WalletOf(l, user))
    case RowRead(id, tx) =>
      if !x.call.ProcessPayOut? then None
      else if x.call.action == Reject then WalletOf(l, tx.user)
      else if x.call.action == Approve && x.call.proof.Some? && x.call.proof != tx.proof
      then Some(ProofKey(tx.provider, x.call.proof.value))
      else None
    case ProofChecked(id, tx) => WalletOf(l, tx.user)
    case WalletPaid(id, tx, _) =>
      if x.call.CreditPayIn? && tx.proof.None? && x.call.proof.Some?
      then Some(ProofKey(tx.provider, x.call.proof.value))
      else None
    case FirstLocked =>
      if x.call.Transfer? && x.call.phone in l.phones
      then WalletOf(l, Higher(x.call.sender, l.phones[x.call.phone]))
      else None
    case ProofFree => if x.call.DeclarePayIn? then Some(ReferenceKey(x.call.reference)) else None
    case WalletsUpdated(_) =>
      (match x.call
       case RequestPayOut(_, _, reference, _) => Some(ReferenceKey(reference))
       case ManualCredit(_, _, reference) => Some(ReferenceKey(reference))
       case Transfer(_, _, _, senderReference, _, _) => Some(ReferenceKey(senderReference))
       case _ => None)
    case SenderInserted(_) => if x.call.Transfer? then Some(ReferenceKey(x.call.recipientReference)) else None
    case Ended(_, _) => None
  }

  function Refuse(why: Refusal): Stage { Ended(Refused(why), NOTHING) }
  function Raise(): Stage { Ended(Raised, NOTHING) }

  /** The stage after the next micro-step, which reads the committed ledger `l`. */
  function Micro(l: Ledger, x: Txn): Stage {
    match x.call
    case DeclarePayIn(_, _, _, _, _) => MicroDeclare(l, x)
    case CreditPayIn(_, _, _) => MicroCredit(l, x)
    case RejectPayIn(id) =>
      if Rejectable(l, id) then Ended(Done, NOTHING.(row := Some((id, l.rows[id].(status := Failed)))))
      else Refuse(UnknownTransaction)
    case RequestPayOut(_, _, _, _) => MicroReserve(l, x)
    case ProcessPayOut(_, _, _) => MicroProcess(l, x)
    case Transfer(_, _, _, _, _, _) => MicroTransfer(l, x)
    case ManualCredit(_, _, _) => MicroManual(l, x)
  }

  function MicroDeclare(l: Ledger, x: Txn): Stage
    requires x.call.DeclarePayIn?
  {
    var row := DeclaredRow(x.call);
    match x.stage
    case ProofFree => if ReferenceUsed(l.rows, row.reference) then Raise() else Ended(Done, NOTHING.(inserts := [row]))
    case _ =>
      if !Storable(l, row) then Raise()
      else if row.proof.Some? && ProofUsed(l.rows, row.provider, row.proof.value)
      then Refuse(if ReferenceUsed(l.rows, row.reference) then OtherDeclaration else DuplicateProof)
      else ProofFree
  }

  function MicroCredit(l: Ledger, x: Txn): Stage
    requires x.call.CreditPayIn?
  {
    var proof := x.call.proof;
    match x.stage
    case RowRead(id, tx) =>
      if ProofUsedElsewhere(l.rows, tx.provider, proof, x.call.reference) then Refuse(DuplicateProof)
      else if x.call.confirmed.Some? && x.call.confirmed.value != Francs(tx.amount) then Refuse(AmountMismatch)
      else ProofChecked(id, tx)
    case ProofChecked(id, tx) =>
      if tx.user >= |l.balances| then WalletPaid(id, tx, NOTHING)
      else if !Holdable(l.balances[tx.user] + tx.amount) then Raise()
      else WalletPaid(id, tx, NOTHING.(balances := map[tx.user := l.balances[tx.user] + tx.amount]))
    case WalletPaid(id, tx, paid) =>
      if tx.proof.None? && ProofUsedElsewhere(l.rows, tx.provider, proof, x.call.reference) then Raise()
      else Ended(Done, paid.(row := Some((id, tx.(status := Success,
                                                  proof := if tx.proof.Some? then tx.proof else proof)))))
    case _ =>
      var i := IndexOf(l.rows, x.call.reference);
      if i.None? then Refuse(UnknownTransaction)
      else if l.rows[i.value].status == Success then Refuse(AlreadyCredited)
      else if l.rows[i.value].status != Pending && l.rows[i.value].status != Failed then Refuse(NotCreditable)
      else RowRead(i.value, l.rows[i.value])
  }

  function MicroReserve(l: Ledger, x: Txn): Stage
    requires x.call.RequestPayOut?
  {
    match x.stage
    case WalletsUpdated(booked) =>
      var row := ReservedRow(x.call);
      if !Storable(l, row) || ReferenceUsed(l.rows, row.reference) then Raise()
      else Ended(Done, booked.(inserts := [row]))
    case _ =>
      var u := x.call.user;
      if u >= |l.balances| then Refuse(NoWallet)
      else if Francs(l.balances[u]) < x.call.amount then Refuse(InsufficientFunds)
      else
        var left := Store(Francs(l.balances[u]) - x.call.amount);
        if !Holdable(left) then Raise() else WalletsUpdated(NOTHING.(balances := map[u := left]))
  }

  function MicroProcess(l: Ledger, x: Txn): Stage
    requires x.call.ProcessPayOut?
  {
    match x.stage
    case RowRead(id, tx) =>
      if x.call.action == Approve then
        if x.call.proof != tx.proof && ProofUsedElsewhere(l.rows, tx.provider, x.call.proof, tx.reference)
        then Raise()
        else
          var proof := if x.call.proof.Some? then x.call.proof else tx.proof;
          Ended(Done, NOTHING.(row := Some((id, tx.(status := Success, proof := proof)))))
      else
        var cancelled := NOTHING.(row := Some((id, tx.(status := Cancelled))));
        if tx.user >= |l.balances| then Ended(Done, cancelled)
        else if !Holdable(l.balances[tx.user] + tx.amount) then Raise()
        else Ended(Done, cancelled.(balances := map[tx.user := l.balances[tx.user] + tx.amount]))
    case _ =>
      var id := x.call.id;
      if id >= |l.rows| then Refuse(UnknownTransaction)
      else if l.rows[id].status != Pending then Refuse(AlreadyProcessed)
      else if x.call.action == OtherAction then Refuse(UnknownAction)
      else RowRead(id, l.rows[id])
  }

  function MicroTransfer(l: Ledger, x: Txn): Stage
    requires x.call.Transfer?
  {
    var c := x.call;
    var refusal := TransferRefusal(l.phones, c);
    if refusal.Some? then Ended(refusal.value, NOTHING)
    else
      var recipient := l.phones[c.phone];
      match x.stage
      case FirstLocked =>
        var total := TransferTotal(c.amount, c.feePercent);
        if c.sender >= |l.balances| then Refuse(NoWallet)
        else if l.balances[c.sender] < total then Refuse(InsufficientFunds)
        else if recipient >= |l.balances| then Refuse(NoWallet)
        else
          var debited := l.balances[c.sender] - total;
          var credited := Store(Francs(l.balances[recipient]) + c.amount);
          if !Holdable(debited) || !Holdable(credited) then Raise()
          else WalletsUpdated(NOTHING.(balances := map[c.sender := debited, recipient := credited]))
      case WalletsUpdated(booked) =>
        if !Storable(l, SenderRow(c)) || ReferenceUsed(l.rows, c.senderReference) then Raise()
        else SenderInserted(booked)
      case SenderInserted(booked) =>
        if !Storable(l, RecipientRow(c, recipient)) || ReferenceUsed(l.rows, c.recipientReference)
           || c.senderReference == c.recipientReference
        then Raise()
        else Ended(Done, booked.(inserts := [SenderRow(c), RecipientRow(c, recipient)]))
      case _ => FirstLocked
  }

  function MicroManual(l: Ledger, x: Txn): Stage
    requires x.call.ManualCredit?
  {
    match x.stage
    case WalletsUpdated(booked) =>
      var row := ManualRow(x.call);
      if !Storable(l, row) || ReferenceUsed(l.rows, row.reference) then Raise()
      else Ended(Done, booked.(inserts := [row]))
    case _ =>
      var u := x.call.user;
      if x.call.amount <= 0.0 then Refuse(InvalidAmount)
      else if u >= |l.balances| then Refuse(NoWallet)
      else
        var raised := Store(Francs(l.balances[u]) + x.call.amount);
        if !Holdable(raised) then Raise() else WalletsUpdated(NOTHING.(balances := map[u := raised]))
  }

  // ---- Scheduling ----

  predicate Blocks(m: Machine, t: CallId, k: Key, holder: CallId) {
    holder in m.txns && holder != t && k in m.txns[holder].held
  }

  predicate Enabled(m: Machine, t: CallId) {
    && t in m.txns
    && var k := Wants(m.db, m.txns[t]);
    (k.Some? ==> forall holder | holder in m.txns :: !Blocks(m, t, k.value, holder))
  }

  predicate Late(l: Ledger, c: Call) {
    c.CreditPayIn? && ProofTaken(l, c.reference, c.proof)
  }

  /** The call is logged with its reply. */
  function Settled(m: Machine, t: CallId, outcome: Outcome): Machine
    requires t in m.txns
  {
    var c := m.txns[t].call;
    m.(log := m.log + [Entry(c, outcome == Done && Late(m.db, c))], replies := m.replies + [Reply(t, outcome)])
  }

  function Moved(m: Machine, t: CallId): Machine
    requires t in m.txns
  {
    var x := m.txns[t];
    if x.stage.Ended? then
      if x.stage.outcome == Done
      then Settled(m, t, Done).(db := Apply(m.db, x.stage.writes), txns := m.txns - {t})
      else m.(txns := m.txns - {t})
    else
      var key := Wants(m.db, x);
      var stage := Micro(m.db, x);
      var m1 := if stage.Ended? && stage.outcome != Done then Settled(m, t, stage.outcome) else m;
      m1.(txns := m.txns[t := x.(held := if key.Some? then x.held + {key.value} else x.held, stage := stage)])
  }

  /** An event that is not possible leaves the machine as it is. */
  function After(m: Machine, e: Event): Machine {
    match e
    case Begin(t, c) => if t !in m.txns then m.(txns := m.txns[t := Txn(c, {}, Begun)]) else m
    case Advance(t) => if Enabled(m, t) then Moved(m, t) else m
  }

  function Run(m: Machine, events: seq<Event>): Machine
    decreases |events|
  {
    if events == [] then m else After(Run(m, events[..|events| - 1]), events[|events| - 1])
  }

  function Idle(l: Ledger): Machine {
    Machine(l, map[], [], [])
  }
}
