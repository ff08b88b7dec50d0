/** The virtual ledger: wallets, ledger rows, and what each stored procedure or service call does to them
    when it runs alone.

    Users are numbered in the order of their user_id, so `balances[u]` is the wallet of user `u`. A row's id
    is its position in `rows`. Amounts arrive as decimals and are stored as centimes.
 */
module LedgerModel {
  import opened Numeric

  type UserId = nat

  datatype Kind = PayIn | PayOut | InternalTransfer
  datatype Status = Pending | Success | Failed | Cancelled | Reversed
  datatype Provider = Wave | Orange | Mtn | Moov | Internal | AdminManual | OrangeMoney
  datatype Role = NoRole | Sender | Recipient
  datatype Action = Approve | Reject | OtherAction

  /** A row of ledger_transactions. `role` is the part of its metadata that tells a transfer's two legs apart. */
  datatype Row = Row(reference: string, user: UserId, kind: Kind, provider: Provider, amount: int, fee: int,
                     status: Status, proof: Option<string>, role: Role)

  datatype Ledger = Ledger(phones: map<string, UserId>, balances: seq<int>, rows: seq<Row>)

  /** Why a call answers without touching anything. */
  datatype Refusal =
    | InvalidAmount | UnknownRecipient | SelfTransfer | NoWallet | InsufficientFunds
    | UnknownTransaction | AlreadyCredited | NotCreditable | DuplicateProof | AmountMismatch
    | AlreadyProcessed | UnknownAction
      /** declare_payin_pending inserted nothing, and found another row under the reference it had generated. */
    | OtherDeclaration

  /** A call succeeds, answers with a refusal, or raises a database error that rolls it back. */
  datatype Outcome = Done | Refused(why: Refusal) | Raised

  datatype Effect = Effect(ledger: Ledger, outcome: Outcome)

  datatype Call =
    | DeclarePayIn(user: UserId, amount: real, provider: Provider, proof: Option<string>, reference: string)
    | CreditPayIn(reference: string, proof: Option<string>, confirmed: Option<real>)
    | RejectPayIn(id: nat)
    | RequestPayOut(user: UserId, amount: real, reference: string, provider: Provider)
    | ProcessPayOut(id: nat, action: Action, proof: Option<string>)
    | Transfer(sender: UserId, amount: real, phone: string, senderReference: string,
               recipientReference: string, feePercent: real)
    | ManualCredit(user: UserId, amount: real, reference: string)

  // ---- Lookups and constraints ----

  /** SELECT ... WHERE reference = r. */
  function IndexOf(rows: seq<Row>, reference: string): (r: Option<nat>)
    ensures r.Some? ==> r.value < |rows| && rows[r.value].reference == reference
    ensures r.None? ==> forall i :: 0 <= i < |rows| ==> rows[i].reference != reference
  {
    if rows == [] then None
    else if rows[|rows| - 1].reference == reference then Some(|rows| - 1)
    else IndexOf(rows[..|rows| - 1], reference)
  }

  predicate ReferenceUsed(rows: seq<Row>, reference: string) {
    IndexOf(rows, reference).Some?
  }

  predicate Carries(row: Row, provider: Provider, proof: string) {
    row.provider == provider && row.proof == Some(proof)
  }

  predicate ProofUsed(rows: seq<Row>, provider: Provider, proof: string) {
    exists i :: 0 <= i < |rows| && Carries(rows[i], provider, proof)
  }

  /** SELECT ... WHERE provider = p AND proof_ref = q. */
  function RowWithProof(rows: seq<Row>, provider: Provider, proof: string): (r: Option<nat>)
    ensures r.Some? <==> ProofUsed(rows, provider, proof)
    ensures r.Some? ==> r.value < |rows| && Carries(rows[r.value], provider, proof)
  {
    if rows == [] then None
    else if Carries(rows[|rows| - 1], provider, proof) then Some(|rows| - 1)
    else RowWithProof(rows[..|rows| - 1], provider, proof)
  }

  /** The EXISTS query of process_payin_credit: some row other than `reference` carries the proof. */
  predicate ProofUsedElsewhere(rows: seq<Row>, provider: Provider, proof: Option<string>, reference: string) {
    proof.Some? &&
    exists i :: 0 <= i < |rows| && Carries(rows[i], provider, proof.value) && rows[i].reference != reference
  }

  /** The table's CHECK, the widths of its amounts and the foreign key to users. */
  predicate Storable(l: Ledger, row: Row) {
    0 < row.amount && Fits(row.amount) && Fits(row.fee) && row.user < |l.balances|
  }

  /** A new balance passes the wallet's CHECK and its column width. */
  predicate Holdable(balance: int) {
    0 <= balance && Fits(balance)
  }

  function NewRow(reference: string, user: UserId, kind: Kind, provider: Provider, amount: real, fee: int,
                  status: Status, proof: Option<string>, role: Role): Row {
    Row(reference, user, kind, provider, Store(amount), fee, status, proof, role)
  }

  // ---- The operations ----

  function DeclaredRow(c: Call): Row
    requires c.DeclarePayIn?
  {
    NewRow(c.reference, c.user, PayIn, c.provider, c.amount, 0, Pending, c.proof, NoRole)
  }

  function Declare(l: Ledger, c: Call): Effect
    requires c.DeclarePayIn?
  {
    var row := DeclaredRow(c);
    if !Storable(l, row) then Effect(l, Raised)
    else if row.proof.Some? && ProofUsed(l.rows, row.provider, row.proof.value)
    then Effect(l, Refused(if ReferenceUsed(l.rows, row.reference) then OtherDeclaration else DuplicateProof))
    else if ReferenceUsed(l.rows, row.reference) then Effect(l, Raised)
    else Effect(l.(rows := l.rows + [row]), Done)
  }

  /** process_payin_credit, given the answer its EXISTS query had on the proof. */
  function CreditGiven(l: Ledger, reference: string, proof: Option<string>, confirmed: Option<real>,
                       proofUsed: bool): Effect {
    match IndexOf(l.rows, reference)
    case None => Effect(l, Refused(UnknownTransaction))
    case Some(i) =>
      var tx := l.rows[i];
      if tx.status == Success then Effect(l, Refused(AlreadyCredited))
      else if tx.status != Pending && tx.status != Failed then Effect(l, Refused(NotCreditable))
      else if proofUsed then Effect(l, Refused(DuplicateProof))
      else if confirmed.Some? && confirmed.value != Francs(tx.amount) then Effect(l, Refused(AmountMismatch))
      else
        var credited := tx.(status := Success, proof := if tx.proof.Some? then tx.proof else proof);
        var paid := l.(rows := l.rows[i := credited]);
        if tx.user >= |l.balances| then Effect(paid, Done)
        else if !Holdable(l.balances[tx.user] + tx.amount) then Effect(l, Raised)
        else Effect(paid.(balances := l.balances[tx.user := l.balances[tx.user] + tx.amount]), Done)
  }

  /** What the EXISTS query answers on the rows of `l`. */
  predicate ProofTaken(l: Ledger, reference: string, proof: Option<string>) {
    var i := IndexOf(l.rows, reference);
    i.Some? && ProofUsedElsewhere(l.rows, l.rows[i.value].provider, proof, reference)
  }

  function Credit(l: Ledger, reference: string, proof: Option<string>, confirmed: Option<real>): Effect {
    CreditGiven(l, reference, proof, confirmed, ProofTaken(l, reference, proof))
  }

  function RejectDeclared(l: Ledger, id: nat): Effect {
    if id < |l.rows| && l.rows[id].status == Pending && l.rows[id].kind == PayIn
    then Effect(l.(rows := l.rows[id := l.rows[id].(status := Failed)]), Done)
    else Effect(l, Refused(UnknownTransaction))
  }

  function ReservedRow(c: Call): Row
    requires c.RequestPayOut?
  {
    NewRow(c.reference, c.user, PayOut, c.provider, c.amount, 0, Pending, None, NoRole)
  }

  function Reserve(l: Ledger, c: Call): Effect
    requires c.RequestPayOut?
  {
    if c.user >= |l.balances| then Effect(l, Refused(NoWallet))
    else if Francs(l.balances[c.user]) < c.amount then Effect(l, Refused(InsufficientFunds))
    else
      var left := Store(Francs(l.balances[c.user]) - c.amount);
      if !Holdable(left) || !Storable(l, ReservedRow(c)) || ReferenceUsed(l.rows, c.reference) then Effect(l, Raised)
      else Effect(l.(balances := l.balances[c.user := left], rows := l.rows + [ReservedRow(c)]), Done)
  }

  function Process(l: Ledger, id: nat, action: Action, proof: Option<string>): Effect {
    if id >= |l.rows| then Effect(l, Refused(UnknownTransaction))
    else
      var tx := l.rows[id];
      if tx.status != Pending then Effect(l, Refused(AlreadyProcessed))
      else match action
        case Approve =>
          if proof != tx.proof && ProofUsedElsewhere(l.rows, tx.provider, proof, tx.reference)
          then Effect(l, Raised)
          else
            var paid := tx.(status := Success, proof := if proof.Some? then proof else tx.proof);
            Effect(l.(rows := l.rows[id := paid]), Done)
        case Reject =>
          var cancelled := l.(rows := l.rows[id := tx.(status := Cancelled)]);
          if tx.user >= |l.balances| then Effect(cancelled, Done)
          else if !Holdable(l.balances[tx.user] + tx.amount) then Effect(l, Raised)
          else Effect(cancelled.(balances := l.balances[tx.user := l.balances[tx.user] + tx.amount]), Done)
        case OtherAction => Effect(l, Refused(UnknownAction))
  }

  function TransferFee(amount: real, feePercent: real): int {
    Store(amount * feePercent / 100.0)
  }

  function TransferTotal(amount: real, feePercent: real): int {
    Store(amount + Francs(TransferFee(amount, feePercent)))
  }

  function SenderRow(c: Call): Row
    requires c.Transfer?
  {
    NewRow(c.senderReference, c.sender, InternalTransfer, Internal, c.amount,
           TransferFee(c.amount, c.feePercent), Success, None, Sender)
  }

  function RecipientRow(c: Call, recipient: UserId): Row
    requires c.Transfer?
  {
    NewRow(c.recipientReference, recipient, InternalTransfer, Internal, c.amount, 0, Success, None, Recipient)
  }

  /** The guards of process_internal_transfer before it locks anything. */
  function TransferRefusal(phones: map<string, UserId>, c: Call): Option<Outcome>
    requires c.Transfer?
  {
    if c.amount <= 0.0 then Some(Refused(InvalidAmount))
    else if !Fits(TransferFee(c.amount, c.feePercent)) || !Fits(TransferTotal(c.amount, c.feePercent))
    then Some(Raised)
    else if c.phone !in phones then Some(Refused(UnknownRecipient))
    else if phones[c.phone] == c.sender then Some(Refused(SelfTransfer))
    else None
  }

  function Move(l: Ledger, c: Call): Effect
    requires c.Transfer?
  {
    var refusal := TransferRefusal(l.phones, c);
    if refusal.Some? then Effect(l, refusal.value)
    else
      var recipient := l.phones[c.phone];
      var total := TransferTotal(c.amount, c.feePercent);
      if c.sender >= |l.balances| then Effect(l, Refused(NoWallet))
      else if l.balances[c.sender] < total then Effect(l, Refused(InsufficientFunds))
      else if recipient >= |l.balances| then Effect(l, Refused(NoWallet))
      else
        var debited := l.balances[c.sender] - total;
        var credited := Store(Francs(l.balances[recipient]) + c.amount);
        if !Holdable(debited) || !Holdable(credited)
           || !Storable(l, SenderRow(c)) || !Storable(l, RecipientRow(c, recipient))
           || ReferenceUsed(l.rows, c.senderReference) || ReferenceUsed(l.rows, c.recipientReference)
           || c.senderReference == c.recipientReference
        then Effect(l, Raised)
        else Effect(l.(balances := l.balances[c.sender := debited][recipient := credited],
                       rows := l.rows + [SenderRow(c), RecipientRow(c, recipient)]), Done)
  }

  function ManualRow(c: Call): Row
    requires c.ManualCredit?
  {
    NewRow(c.reference, c.user, PayIn, AdminManual, c.amount, 0, Success, None, NoRole)
  }

  function CreditByAdmin(l: Ledger, c: Call): Effect
    requires c.ManualCredit?
  {
    if c.amount <= 0.0 then Effect(l, Refused(InvalidAmount))
    else if c.user >= |l.balances| then Effect(l, Refused(NoWallet))
    else
      var raised := Store(Francs(l.balances[c.user]) + c.amount);
      if !Holdable(raised) || !Storable(l, ManualRow(c)) || ReferenceUsed(l.rows, c.reference) then Effect(l, Raised)
      else Effect(l.(balances := l.balances[c.user := raised], rows := l.rows + [ManualRow(c)]), Done)
  }

  /** One call, run alone. */
  function Step(l: Ledger, c: Call): Effect {
    match c
    case DeclarePayIn(_, _, _, _, _) => Declare(l, c)
    case CreditPayIn(reference, proof, confirmed) => Credit(l, reference, proof, confirmed)
    case RejectPayIn(id) => RejectDeclared(l, id)
    case RequestPayOut(_, _, _, _) => Reserve(l, c)
    case ProcessPayOut(id, action, proof) => Process(l, id, action, proof)
    case Transfer(_, _, _, _, _, _) => Move(l, c)
    case ManualCredit(_, _, _) => CreditByAdmin(l, c)
  }

  /** The call run alone, except that a credit's EXISTS query has already found the proof free. */
  function Unhindered(l: Ledger, c: Call): Effect {
    if c.CreditPayIn? then CreditGiven(l, c.reference, c.proof, c.confirmed, false) else Step(l, c)
  }

  /** One call in a run. `late` marks a credit whose EXISTS query was answered before another row took the
      proof; only concurrency makes such an entry. */
  datatype Entry = Entry(call: Call, late: bool)

  function EntryStep(l: Ledger, e: Entry): Effect {
    if e.late then Unhindered(l, e.call) else Step(l, e.call)
  }

  /** A run: calls one at a time. */
  function Replay(l: Ledger, log: seq<Entry>): Ledger
    decreases |log|
  {
    if log == [] then l else EntryStep(Replay(l, log[..|log| - 1]), log[|log| - 1]).ledger
  }

  /** Every registered user has an empty wallet; no row exists. */
  function Opening(users: nat, phones: map<string, UserId>): Ledger {
    Ledger(phones, seq(users, _ => 0), [])
  }
}
