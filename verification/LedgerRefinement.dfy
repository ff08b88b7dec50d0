/** Every interleaving of ledger calls leaves the committed ledger in a state that the atomic ledger reaches by
    running the calls one at a time, in the order they commit or are refused.
 */
module LedgerRefinement {
  import opened Numeric
  import opened LedgerModel
  import opened LedgerLaws
  import opened LedgerMachine

  lemma OnlyDoneChanges(l: Ledger, c: Call)
    ensures Step(l, c).outcome != Done ==> Step(l, c).ledger == l
  {
  }

  // ---- The writes of a call, and the keys that protect what they depend on ----

  function PaidTo(l: Ledger, u: UserId, amount: int): map<UserId, int> {
    if u < |l.balances| then map[u := l.balances[u] + amount] else map[]
  }

  function WritesOf(l: Ledger, c: Call): Writes
    requires Unhindered(l, c).outcome == Done
  {
    match c
    case DeclarePayIn(_, _, _, _, _) => NOTHING.(inserts := [DeclaredRow(c)])
    case CreditPayIn(reference, proof, _) =>
      var i := IndexOf(l.rows, reference).value;
      var tx := l.rows[i];
      Writes(PaidTo(l, tx.user, tx.amount),
             Some((i, tx.(status := Success, proof := if tx.proof.Some? then tx.proof else proof))), [])
    case RejectPayIn(id) => NOTHING.(row := Some((id, l.rows[id].(status := Failed))))
    case RequestPayOut(u, amount, _, _) =>
      Writes(map[u := Store(Francs(l.balances[u]) - amount)], None, [ReservedRow(c)])
    case ProcessPayOut(id, action, proof) =>
      var tx := l.rows[id];
      if action == Approve
      then NOTHING.(row := Some((id, tx.(status := Success, proof := if proof.Some? then proof else tx.proof))))
      else Writes(PaidTo(l, tx.user, tx.amount), Some((id, tx.(status := Cancelled))), [])
    case Transfer(sender, amount, phone, _, _, feePercent) =>
      var r := l.phones[phone];
      Writes(map[sender := l.balances[sender] - TransferTotal(amount, feePercent),
                 r := Store(Francs(l.balances[r]) + amount)],
             None, [SenderRow(c), RecipientRow(c, r)])
    case ManualCredit(u, amount, _) =>
      Writes(map[u := Store(Francs(l.balances[u]) + amount)], None, [ManualRow(c)])
  }

  function WalletKeys(l: Ledger, u: UserId): set<Key> {
    if u < |l.balances| then {WalletKey(u)} else {}
  }

  function ProofKeys(provider: Provider, proof: Option<string>): set<Key> {
    if proof.Some? then {ProofKey(provider, proof.value)} else {}
  }

  /** The index entries of the rows a call inserts. */
  function ReferenceKeys(c: Call): set<Key> {
    set r | r in NewReferences(c) :: ReferenceKey(r)
  }

  function KeysOf(l: Ledger, c: Call): set<Key>
    requires Unhindered(l, c).outcome == Done
  {
    match c
    case DeclarePayIn(_, _, provider, proof, _) => ProofKeys(provider, proof) + ReferenceKeys(c)
    case CreditPayIn(reference, proof, _) =>
      var i := IndexOf(l.rows, reference).value;
      var tx := l.rows[i];
      {RowKey(i)} + WalletKeys(l, tx.user) + if tx.proof.None? then ProofKeys(tx.provider, proof) else {}
    case RejectPayIn(id) => {RowKey(id)}
    case RequestPayOut(u, _, _, _) => {WalletKey(u)} + ReferenceKeys(c)
    case ProcessPayOut(id, action, proof) =>
      var tx := l.rows[id];
      {RowKey(id)} + if action == Reject then WalletKeys(l, tx.user)
                     else if proof != tx.proof then ProofKeys(tx.provider, proof) else {}
    case Transfer(sender, _, phone, _, _, _) => {WalletKey(sender), WalletKey(l.phones[phone])} + ReferenceKeys(c)
    case ManualCredit(u, _, _) => {WalletKey(u)} + ReferenceKeys(c)
  }

  /** The writes settled by `x` are those of its call on the ledger as it is now. */
  ghost predicate Ready(l: Ledger, x: Txn, w: Writes) {
    && Unhindered(l, x.call).outcome == Done
    && w == WritesOf(l, x.call)
    && KeysOf(l, x.call) <= x.held
    && (x.call.CreditPayIn? ==>
          var tx := l.rows[IndexOf(l.rows, x.call.reference).value];
          tx.proof.None? ==> !ProofUsedElsewhere(l.rows, tx.provider, x.call.proof, x.call.reference))
  }

  ghost predicate WritesExact(l: Ledger, c: Call) {
    Unhindered(l, c).outcome == Done ==> Apply(l, WritesOf(l, c)) == Unhindered(l, c).ledger
  }

  /** Applying a call's writes to the ledger they were computed from is the call's atomic step. */
  lemma ApplyWrites(l: Ledger, c: Call)
    ensures WritesExact(l, c)
  {
    match c
    case CreditPayIn(_, _, _) => ApplyCredit(l, c);
    case ProcessPayOut(_, _, _) => ApplyProcess(l, c);
    case Transfer(_, _, _, _, _, _) => ApplyMove(l, c);
    case DeclarePayIn(_, _, _, _, _) => ApplyOneRow(l, c);
    case RejectPayIn(_) => ApplyOneRow(l, c);
    case RequestPayOut(_, _, _, _) => ApplyOneRow(l, c);
    case ManualCredit(_, _, _) => ApplyOneRow(l, c);
  }

  lemma ApplyCredit(l: Ledger, c: Call)
    requires c.CreditPayIn?
    ensures WritesExact(l, c)
  {
    if Unhindered(l, c).outcome == Done {
      assert Apply(l, WritesOf(l, c)).rows == Unhindered(l, c).ledger.rows;
      assert Apply(l, WritesOf(l, c)).balances == Unhindered(l, c).ledger.balances;
    }
  }

  lemma ApplyProcess(l: Ledger, c: Call)
    requires c.ProcessPayOut?
    ensures WritesExact(l, c)
  {
    if Step(l, c).outcome == Done {
      assert Apply(l, WritesOf(l, c)).rows == Step(l, c).ledger.rows;
      assert Apply(l, WritesOf(l, c)).balances == Step(l, c).ledger.balances;
    }
  }

  lemma ApplyMove(l: Ledger, c: Call)
    requires c.Transfer?
    ensures WritesExact(l, c)
  {
    if Step(l, c).outcome == Done {
      assert Apply(l, WritesOf(l, c)).balances == Step(l, c).ledger.balances;
    }
  }

  lemma ApplyOneRow(l: Ledger, c: Call)
    requires c.DeclarePayIn? || c.RejectPayIn? || c.RequestPayOut? || c.ManualCredit?
    ensures WritesExact(l, c)
  {
    if Step(l, c).outcome == Done {
      assert Apply(l, WritesOf(l, c)).rows == Step(l, c).ledger.rows;
      assert Apply(l, WritesOf(l, c)).balances == Step(l, c).ledger.balances;
    }
  }

  // ---- What each stage knows, and keeps knowing while others commit ----

  predicate Creditable(l: Ledger, x: Txn, id: nat, tx: Row) {
    && x.call.CreditPayIn? && IndexOf(l.rows, x.call.reference) == Some(id)
    && l.rows[id] == tx && (tx.status == Pending || tx.status == Failed)
  }

  predicate AmountConfirmed(c: Call, tx: Row) {
    c.CreditPayIn? && (c.confirmed.Some? ==> c.confirmed.value == Francs(tx.amount))
  }

  ghost predicate StageOk(l: Ledger, x: Txn) {
    match x.stage
    case Begun => x.held == {}
    case ProofFree =>
      && x.call.DeclarePayIn? && x.held == ProofKeys(x.call.provider, x.call.proof)
      && Storable(l, DeclaredRow(x.call))
      && (x.call.proof.Some? ==> !ProofUsed(l.rows, x.call.provider, x.call.proof.value))
    case RowRead(id, tx) =>
      && x.held == {RowKey(id)}
      && (Creditable(l, x, id, tx)
          || (x.call.ProcessPayOut? && x.call.id == id < |l.rows| && l.rows[id] == tx
              && tx.status == Pending && x.call.action != OtherAction))
    case ProofChecked(id, tx) =>
      x.held == {RowKey(id)} && Creditable(l, x, id, tx) && AmountConfirmed(x.call, tx)
    case WalletPaid(id, tx, paid) =>
      && x.held == {RowKey(id)} + WalletKeys(l, tx.user)
      && Creditable(l, x, id, tx) && AmountConfirmed(x.call, tx)
      && (tx.user < |l.balances| ==> Holdable(l.balances[tx.user] + tx.amount))
      && paid == NOTHING.(balances := PaidTo(l, tx.user, tx.amount))
    case FirstLocked =>
      && x.call.Transfer? && TransferRefusal(l.phones, x.call).None?
      && x.held == WalletKeys(l, Lower(x.call.sender, l.phones[x.call.phone]))
    case WalletsUpdated(booked) => Updated(l, x, booked) && x.held == WalletsOf(l, x.call)
    case SenderInserted(booked) =>
      && x.call.Transfer? && Updated(l, x, booked)
      && x.held == WalletsOf(l, x.call) + {ReferenceKey(x.call.senderReference)}
      && Storable(l, SenderRow(x.call)) && !ReferenceUsed(l.rows, x.call.senderReference)
    case Ended(outcome, writes) => outcome == Done ==> Ready(l, x, writes)
  }

  function WalletsOf(l: Ledger, c: Call): set<Key> {
    match c
    case RequestPayOut(u, _, _, _) => {WalletKey(u)}
    case ManualCredit(u, _, _) => {WalletKey(u)}
    case Transfer(sender, _, phone, _, _, _) =>
      {WalletKey(sender)} + if phone in l.phones then {WalletKey(l.phones[phone])} else {}
    case _ => {}
  }

  predicate Updated(l: Ledger, x: Txn, booked: Writes) {
    match x.call
    case RequestPayOut(u, amount, _, _) =>
      && u < |l.balances| && WalletKey(u) in x.held && Francs(l.balances[u]) >= amount
      && var left := Store(Francs(l.balances[u]) - amount);
      Holdable(left) && booked == NOTHING.(balances := map[u := left])
    case Transfer(sender, amount, phone, _, _, feePercent) =>
      && TransferRefusal(l.phones, x.call).None?
      && var r := l.phones[phone];
      && sender < |l.balances| && r < |l.balances| && {WalletKey(sender), WalletKey(r)} <= x.held
      && l.balances[sender] >= TransferTotal(amount, feePercent)
      && var debited, credited := l.balances[sender] - TransferTotal(amount, feePercent),
                                  Store(Francs(l.balances[r]) + amount);
      Holdable(debited) && Holdable(credited)
      && booked == NOTHING.(balances := map[sender := debited, r := credited])
    case ManualCredit(u, amount, _) =>
      && amount > 0.0 && u < |l.balances| && WalletKey(u) in x.held
      && var raised := Store(Francs(l.balances[u]) + amount);
      Holdable(raised) && booked == NOTHING.(balances := map[u := raised])
    case _ => false
  }

  predicate SameIdentity(a: Row, b: Row) {
    b == a.(status := b.status, proof := b.proof)
  }

  /** `l2` may differ from `l` only where `x` holds no key. */
  ghost predicate Agree(l: Ledger, l2: Ledger, x: Txn) {
    && l2.phones == l.phones && |l2.balances| == |l.balances| && |l.rows| <= |l2.rows|
    && (forall u :: 0 <= u < |l.balances| && WalletKey(u) in x.held ==> l2.balances[u] == l.balances[u])
    && (forall i :: 0 <= i < |l.rows| ==> SameIdentity(l.rows[i], l2.rows[i]))
    && (forall i :: 0 <= i < |l.rows| && RowKey(i) in x.held ==> l2.rows[i] == l.rows[i])
    && (forall i :: |l.rows| <= i < |l2.rows| ==>
          !ReferenceUsed(l.rows, l2.rows[i].reference) && ReferenceKey(l2.rows[i].reference) !in x.held)
    && (forall i, provider, proof ::
          0 <= i < |l2.rows| && ProofKey(provider, proof) in x.held && Carries(l2.rows[i], provider, proof)
          ==> i < |l.rows| && Carries(l.rows[i], provider, proof))
  }

  lemma {:induction false} IndexOfStable(rows: seq<Row>, rows2: seq<Row>, reference: string)
    requires |rows| <= |rows2|
    requires forall i :: 0 <= i < |rows| ==> rows[i].reference == rows2[i].reference
    requires forall i :: |rows| <= i < |rows2| ==> rows2[i].reference != reference
    ensures IndexOf(rows2, reference) == IndexOf(rows, reference)
    decreases |rows2|
  {
    if |rows2| > |rows| {
      IndexOfStable(rows, rows2[..|rows2| - 1], reference);
    } else if rows != [] {
      IndexOfStable(rows[..|rows| - 1], rows2[..|rows2| - 1], reference);
    }
  }

  lemma AgreeOnReference(l: Ledger, l2: Ledger, x: Txn, reference: string)
    requires Agree(l, l2, x)
    requires ReferenceUsed(l.rows, reference) || ReferenceKey(reference) in x.held
    ensures IndexOf(l2.rows, reference) == IndexOf(l.rows, reference)
  {
    forall i | |l.rows| <= i < |l2.rows| ensures l2.rows[i].reference != reference {
    }
    IndexOfStable(l.rows, l2.rows, reference);
  }

  lemma AgreeOnProof(l: Ledger, l2: Ledger, x: Txn, provider: Provider, proof: string, reference: string)
    requires Agree(l, l2, x) && ProofKey(provider, proof) in x.held
    ensures ProofUsed(l2.rows, provider, proof) ==> ProofUsed(l.rows, provider, proof)
    ensures ProofUsedElsewhere(l2.rows, provider, Some(proof), reference)
        ==> ProofUsedElsewhere(l.rows, provider, Some(proof), reference)
  {
  }

  lemma AgreeKeepsReady(l: Ledger, l2: Ledger, x: Txn, w: Writes)
    requires Agree(l, l2, x) && Ready(l, x, w)
    ensures Ready(l2, x, w)
  {
    match x.call
    case DeclarePayIn(_, _, _, _, _) => AgreeKeepsDeclare(l, l2, x, w);
    case CreditPayIn(_, _, _) => AgreeKeepsCredit(l, l2, x, w);
    case RejectPayIn(id) => assert RowKey(id) in x.held;
    case RequestPayOut(_, _, _, _) => AgreeKeepsInsert(l, l2, x, w);
    case ProcessPayOut(_, _, _) => AgreeKeepsProcess(l, l2, x, w);
    case Transfer(_, _, _, _, _, _) => AgreeKeepsMove(l, l2, x, w);
    case ManualCredit(_, _, _) => AgreeKeepsInsert(l, l2, x, w);
  }

  lemma AgreeKeepsDeclare(l: Ledger, l2: Ledger, x: Txn, w: Writes)
    requires Agree(l, l2, x) && Ready(l, x, w) && x.call.DeclarePayIn?
    ensures Ready(l2, x, w)
  {
    AgreeOnReference(l, l2, x, x.call.reference);
    if x.call.proof.Some? { AgreeOnProof(l, l2, x, x.call.provider, x.call.proof.value, x.call.reference); }
  }

  lemma AgreeKeepsInsert(l: Ledger, l2: Ledger, x: Txn, w: Writes)
    requires Agree(l, l2, x) && Ready(l, x, w) && (x.call.RequestPayOut? || x.call.ManualCredit?)
    ensures Ready(l2, x, w)
  {
    assert WalletKey(x.call.user) in x.held;
    AgreeOnReference(l, l2, x, x.call.reference);
  }

  lemma AgreeKeepsCredit(l: Ledger, l2: Ledger, x: Txn, w: Writes)
    requires Agree(l, l2, x) && Ready(l, x, w) && x.call.CreditPayIn?
    ensures Ready(l2, x, w)
  {
    var reference, proof := x.call.reference, x.call.proof;
    AgreeOnReference(l, l2, x, reference);
    var i := IndexOf(l.rows, reference).value;
    var tx := l.rows[i];
    assert RowKey(i) in x.held;
    if tx.user < |l.balances| { assert WalletKey(tx.user) in x.held; }
    if tx.proof.None? && proof.Some? { AgreeOnProof(l, l2, x, tx.provider, proof.value, reference); }
  }

  lemma AgreeKeepsProcess(l: Ledger, l2: Ledger, x: Txn, w: Writes)
    requires Agree(l, l2, x) && Ready(l, x, w) && x.call.ProcessPayOut?
    ensures Ready(l2, x, w)
  {
    var id, proof := x.call.id, x.call.proof;
    var tx := l.rows[id];
    assert RowKey(id) in x.held;
    if x.call.action == Reject {
      if tx.user < |l.balances| { assert WalletKey(tx.user) in x.held; }
    } else if proof.Some? && proof != tx.proof {
      AgreeOnProof(l, l2, x, tx.provider, proof.value, tx.reference);
    }
  }

  lemma AgreeKeepsMove(l: Ledger, l2: Ledger, x: Txn, w: Writes)
    requires Agree(l, l2, x) && Ready(l, x, w) && x.call.Transfer?
    ensures Ready(l2, x, w)
  {
    assert WalletKey(x.call.sender) in x.held && WalletKey(l.phones[x.call.phone]) in x.held;
    AgreeOnReference(l, l2, x, x.call.senderReference);
    AgreeOnReference(l, l2, x, x.call.recipientReference);
  }

  lemma AgreeKeepsUpdated(l: Ledger, l2: Ledger, x: Txn, booked: Writes)
    requires Agree(l, l2, x) && Updated(l, x, booked) && WalletsOf(l, x.call) <= x.held
    ensures Updated(l2, x, booked) && WalletsOf(l2, x.call) == WalletsOf(l, x.call)
  {
  }

  lemma AgreeKeepsStage(l: Ledger, l2: Ledger, x: Txn)
    requires Agree(l, l2, x) && StageOk(l, x)
    ensures StageOk(l2, x)
  {
    hide Ready, Updated, WalletsOf;
    if x.stage.Ended? && x.stage.outcome == Done {
      AgreeKeepsReady(l, l2, x, x.stage.writes);
    } else if x.stage.WalletsUpdated? || x.stage.SenderInserted? {
      AgreeKeepsUpdated(l, l2, x, x.stage.booked);
      if x.stage.SenderInserted? { AgreeOnReference(l, l2, x, x.call.senderReference); }
    } else if x.call.CreditPayIn? && (x.stage.RowRead? || x.stage.ProofChecked? || x.stage.WalletPaid?) {
      AgreeOnReference(l, l2, x, x.call.reference);
    }
  }

  // ---- One micro-step of a call ----

  /** The call after its next micro-step. */
  function Stepped(l: Ledger, x: Txn): Txn {
    var key := Wants(l, x);
    x.(held := if key.Some? then x.held + {key.value} else x.held, stage := Micro(l, x))
  }

  /** The credit has had its proof found free, and another row has taken it since. */
  predicate Overtaken(l: Ledger, x: Txn) {
    Late(l, x.call) && (x.stage.ProofChecked? || x.stage.WalletPaid?)
  }

  /** A micro-step keeps what the stages know. One that settles the call's answer settles the answer of the atomic
      call, except that the atomic call would refuse an overtaken credit as a duplicate. */
  ghost predicate StepsWell(l: Ledger, x: Txn) {
    var y := Stepped(l, x);
    && StageOk(l, y)
    && (y.stage.Ended? ==>
          Step(l, x.call).outcome == if Overtaken(l, x) then Refused(DuplicateProof) else y.stage.outcome)
  }

  lemma MicroStep(l: Ledger, x: Txn)
    requires StageOk(l, x) && !x.stage.Ended?
    ensures StepsWell(l, x)
  {
    match x.call
    case DeclarePayIn(_, _, _, _, _) => DeclareStepsWell(l, x);
    case CreditPayIn(_, _, _) => CreditStepsWell(l, x);
    case RejectPayIn(_) => RejectStepsWell(l, x);
    case RequestPayOut(_, _, _, _) => ReserveStepsWell(l, x);
    case ProcessPayOut(_, _, _) => ProcessStepsWell(l, x);
    case Transfer(_, _, _, _, _, _) => MoveStepsWell(l, x);
    case ManualCredit(_, _, _) => ManualStepsWell(l, x);
  }

  lemma DeclareStepsWell(l: Ledger, x: Txn)
    requires StageOk(l, x) && !x.stage.Ended? && x.call.DeclarePayIn?
    ensures StepsWell(l, x)
  {
  }

  lemma CreditStepsWell(l: Ledger, x: Txn)
    requires StageOk(l, x) && !x.stage.Ended? && x.call.CreditPayIn?
    ensures StepsWell(l, x)
  {
    if x.stage.WalletPaid? { CreditEndsWell(l, x); } else { CreditGoesOnWell(l, x); }
  }

  lemma CreditGoesOnWell(l: Ledger, x: Txn)
    requires StageOk(l, x) && x.call.CreditPayIn? && (x.stage.Begun? || x.stage.RowRead? || x.stage.ProofChecked?)
    ensures StepsWell(l, x)
  {
    hide Ready;
  }

  lemma CreditEndsWell(l: Ledger, x: Txn)
    requires StageOk(l, x) && x.call.CreditPayIn? && x.stage.WalletPaid?
    ensures StepsWell(l, x)
  {
  }

  lemma RejectStepsWell(l: Ledger, x: Txn)
    requires StageOk(l, x) && !x.stage.Ended? && x.call.RejectPayIn?
    ensures StepsWell(l, x)
  {
  }

  lemma ReserveStepsWell(l: Ledger, x: Txn)
    requires StageOk(l, x) && !x.stage.Ended? && x.call.RequestPayOut?
    ensures StepsWell(l, x)
  {
  }

  lemma ProcessStepsWell(l: Ledger, x: Txn)
    requires StageOk(l, x) && !x.stage.Ended? && x.call.ProcessPayOut?
    ensures StepsWell(l, x)
  {
  }

  lemma MoveStepsWell(l: Ledger, x: Txn)
    requires StageOk(l, x) && !x.stage.Ended? && x.call.Transfer?
    ensures StepsWell(l, x)
  {
    if x.stage.SenderInserted? { MoveEndsWell(l, x); } else { MoveGoesOnWell(l, x); }
  }

  lemma MoveGoesOnWell(l: Ledger, x: Txn)
    requires StageOk(l, x) && x.call.Transfer? && (x.stage.Begun? || x.stage.FirstLocked? || x.stage.WalletsUpdated?)
    ensures StepsWell(l, x)
  {
    hide Ready;
  }

  lemma MoveEndsWell(l: Ledger, x: Txn)
    requires StageOk(l, x) && x.call.Transfer? && x.stage.SenderInserted?
    ensures StepsWell(l, x)
  {
  }

  lemma ManualStepsWell(l: Ledger, x: Txn)
    requires StageOk(l, x) && !x.stage.Ended? && x.call.ManualCredit?
    ensures StepsWell(l, x)
  {
  }

  // ---- The committing call, seen by the others ----

  ghost predicate Indexed(l: Ledger) {
    DistinctReferences(l.rows) && DistinctProofs(l.rows)
  }

  /** What a commit writes is covered by the keys its call holds, and its new rows by references of its own;
      so every other call in flight still knows what it knew. */
  lemma CommitAgrees(l: Ledger, x: Txn, w: Writes, y: Txn)
    requires Ready(l, x, w)
    requires x.held !! y.held
    ensures Agree(l, Apply(l, w), y)
  {
    ApplyWrites(l, x.call);
    match x.call
    case CreditPayIn(_, _, _) => CommitCreditAgrees(l, x, w, y);
    case ProcessPayOut(_, _, _) => CommitProcessAgrees(l, x, w, y);
    case Transfer(_, _, _, _, _, _) => CommitMoveAgrees(l, x, w, y);
    case DeclarePayIn(_, _, provider, proof, _) =>
      if proof.Some? { assert ProofKey(provider, proof.value) in KeysOf(l, x.call); }
    case RejectPayIn(id) => assert RowKey(id) in KeysOf(l, x.call);
    case RequestPayOut(u, _, _, _) => assert WalletKey(u) in KeysOf(l, x.call);
    case ManualCredit(u, _, _) => assert WalletKey(u) in KeysOf(l, x.call);
  }

  lemma CommitCreditAgrees(l: Ledger, x: Txn, w: Writes, y: Txn)
    requires Ready(l, x, w) && x.call.CreditPayIn? && x.held !! y.held
    ensures Agree(l, Unhindered(l, x.call).ledger, y)
  {
    var id := IndexOf(l.rows, x.call.reference).value;
    var tx := l.rows[id];
    assert RowKey(id) in KeysOf(l, x.call);
    if tx.user < |l.balances| { assert WalletKey(tx.user) in KeysOf(l, x.call); }
    if tx.proof.None? && x.call.proof.Some? {
      assert ProofKey(tx.provider, x.call.proof.value) in KeysOf(l, x.call);
    }
  }

  lemma CommitProcessAgrees(l: Ledger, x: Txn, w: Writes, y: Txn)
    requires Ready(l, x, w) && x.call.ProcessPayOut? && x.held !! y.held
    ensures Agree(l, Unhindered(l, x.call).ledger, y)
  {
    var tx := l.rows[x.call.id];
    assert RowKey(x.call.id) in KeysOf(l, x.call);
    if x.call.action == Reject {
      if tx.user < |l.balances| { assert WalletKey(tx.user) in KeysOf(l, x.call); }
    } else if x.call.proof.Some? && x.call.proof != tx.proof {
      assert ProofKey(tx.provider, x.call.proof.value) in KeysOf(l, x.call);
    }
  }

  lemma CommitMoveAgrees(l: Ledger, x: Txn, w: Writes, y: Txn)
    requires Ready(l, x, w) && x.call.Transfer?
    requires x.held !! y.held
    ensures Agree(l, Unhindered(l, x.call).ledger, y)
  {
    var c := x.call;
    assert WalletKey(c.sender) in KeysOf(l, c) && WalletKey(l.phones[c.phone]) in KeysOf(l, c);
    var l2 := Unhindered(l, c).ledger;
    assert l2.rows == l.rows + [SenderRow(c), RecipientRow(c, l.phones[c.phone])];
    forall i | |l.rows| <= i < |l2.rows|
      ensures !ReferenceUsed(l.rows, l2.rows[i].reference) && l2.rows[i].reference in NewReferences(c)
    {
      assert i == |l.rows| || i == |l.rows| + 1;
    }
  }

  /** A commit keeps references and stored proofs unique. */
  lemma CommitKeepsIndexes(l: Ledger, x: Txn, w: Writes)
    requires Ready(l, x, w) && Indexed(l)
    ensures Indexed(Apply(l, w))
  {
    ApplyWrites(l, x.call);
    var c := x.call;
    var l2 := Unhindered(l, c).ledger;
    match c
    case DeclarePayIn(_, _, provider, proof, _) =>
      forall i | 0 <= i < |l.rows| && proof.Some? ensures !Carries(l.rows[i], provider, proof.value) {
      }
    case CreditPayIn(reference, proof, _) =>
      var id := IndexOf(l.rows, reference).value;
      RowChangeKeepsIndexes(l, id, l2.rows[id]);
    case RejectPayIn(id) => RowChangeKeepsIndexes(l, id, l2.rows[id]);
    case ProcessPayOut(id, _, _) => RowChangeKeepsIndexes(l, id, l2.rows[id]);
    case Transfer(_, _, phone, _, _, _) =>
      assert l2.rows == l.rows + [SenderRow(c), RecipientRow(c, l.phones[phone])];
    case _ =>
  }

  lemma RowChangeKeepsIndexes(l: Ledger, id: nat, row: Row)
    requires Indexed(l) && id < |l.rows| && SameIdentity(l.rows[id], row)
    requires row.proof == l.rows[id].proof
             || !ProofUsedElsewhere(l.rows, row.provider, row.proof, row.reference)
    ensures DistinctReferences(l.rows[id := row]) && DistinctProofs(l.rows[id := row])
  {
    if row.proof != l.rows[id].proof && row.proof.Some? {
      forall i | 0 <= i < |l.rows| && i != id ensures !Carries(l.rows[i], row.provider, row.proof.value) {
        assert l.rows[i].reference != row.reference;
      }
    }
  }

  // ---- The invariant of every interleaving ----

  ghost predicate Exclusive(m: Machine) {
    forall s, t :: s in m.txns && t in m.txns && s != t ==>
      m.txns[s].held !! m.txns[t].held
  }

  /** Every call in flight knows the truth about what it has locked, and no key is locked twice. */
  ghost predicate Coherent(m: Machine) {
    (forall t :: t in m.txns ==> StageOk(m.db, m.txns[t])) && Exclusive(m)
  }

  /** The reply to a settled call is the atomic call's outcome; only a credit can be answered otherwise, which the
      atomic call would refuse as a duplicate and which took effect late or raised. */
  predicate ReplyOk(l: Ledger, e: Entry, outcome: Outcome) {
    if outcome == Step(l, e.call).outcome then !e.late
    else && e.call.CreditPayIn? && Step(l, e.call).outcome == Refused(DuplicateProof)
         && (if e.late then outcome == Done else outcome == Raised)
  }

  ghost predicate RepliesOk(l0: Ledger, log: seq<Entry>, replies: seq<Reply>)
    requires |replies| == |log|
    decreases |log|
  {
    log == []
    || var n := |log| - 1;
       RepliesOk(l0, log[..n], replies[..n]) && ReplyOk(Replay(l0, log[..n]), log[n], replies[n].outcome)
  }

  /** The machine is coherent and its committed ledger is what the finished calls make of `l0`, one at a time. */
  ghost predicate Refines(l0: Ledger, m: Machine) {
    && Coherent(m)
    && Indexed(m.db)
    && m.db == Replay(l0, m.log)
    && AdmissibleRun(l0, m.log)
    && |m.replies| == |m.log| && RepliesOk(l0, m.log, m.replies)
  }

  /** A credit is late only if its row stores a proof of its own, other than the one the call brings. */
  lemma LateHasOtherProof(l: Ledger, x: Txn, w: Writes)
    requires Ready(l, x, w) && Indexed(l) && Late(l, x.call)
    ensures var tx := l.rows[IndexOf(l.rows, x.call.reference).value];
            tx.proof.Some? && x.call.proof.Some? && tx.proof != x.call.proof
  {
  }

  lemma LogStep(l0: Ledger, log: seq<Entry>, e: Entry)
    requires AdmissibleRun(l0, log) && LateAdmissible(Replay(l0, log), e)
    ensures Replay(l0, log + [e]) == EntryStep(Replay(l0, log), e).ledger
    ensures AdmissibleRun(l0, log + [e])
  {
    assert (log + [e])[..|log|] == log;
  }

  lemma ReplyStep(l0: Ledger, log: seq<Entry>, replies: seq<Reply>, e: Entry, r: Reply)
    requires |replies| == |log| && RepliesOk(l0, log, replies) && ReplyOk(Replay(l0, log), e, r.outcome)
    ensures RepliesOk(l0, log + [e], replies + [r])
  {
    assert (log + [e])[..|log|] == log && (replies + [r])[..|log|] == replies;
  }

  predicate Committing(m: Machine, t: CallId) {
    t in m.txns && m.txns[t].stage.Ended? && m.txns[t].stage.outcome == Done
  }

  lemma CommitKeepsCoherent(m: Machine, t: CallId)
    requires Coherent(m) && Committing(m, t)
    ensures Coherent(Moved(m, t))
  {
    var x := m.txns[t];
    var m' := Moved(m, t);
    forall s | s in m'.txns ensures StageOk(m'.db, m'.txns[s]) {
      CommitAgrees(m.db, x, x.stage.writes, m.txns[s]);
      AgreeKeepsStage(m.db, m'.db, m.txns[s]);
    }
  }

  lemma StepKeepsExclusive(m: Machine, t: CallId)
    requires Exclusive(m) && Enabled(m, t) && !m.txns[t].stage.Ended?
    ensures Exclusive(Moved(m, t))
  {
    var m' := Moved(m, t);
    var key := Wants(m.db, m.txns[t]);
    forall s | s in m'.txns && s != t ensures m'.txns[s].held !! m'.txns[t].held {
      if key.Some? { assert !Blocks(m, t, key.value, s); }
    }
  }

  lemma StepKeepsCoherent(m: Machine, t: CallId)
    requires Coherent(m) && Enabled(m, t) && !m.txns[t].stage.Ended?
    ensures Coherent(Moved(m, t))
  {
    MicroStep(m.db, m.txns[t]);
    StepKeepsExclusive(m, t);
  }

  /** What every event keeps: beginning a call, a micro-step, a commit, and the end of a refused call. */
  lemma EventKeepsCoherent(m: Machine, e: Event)
    requires Coherent(m)
    ensures Coherent(After(m, e))
  {
    match e
    case Begin(t, c) =>
    case Advance(t) =>
      if Enabled(m, t) {
        if Committing(m, t) {
          CommitKeepsCoherent(m, t);
        } else if !m.txns[t].stage.Ended? {
          StepKeepsCoherent(m, t);
        }
      }
  }

  lemma CommitRefines(l0: Ledger, m: Machine, t: CallId)
    requires Refines(l0, m) && Committing(m, t)
    ensures Refines(l0, Moved(m, t))
  {
    var x := m.txns[t];
    CommitKeepsCoherent(m, t);
    CommitKeepsIndexes(m.db, x, x.stage.writes);
    ApplyWrites(m.db, x.call);
    var e := Entry(x.call, Late(m.db, x.call));
    if e.late { LateHasOtherProof(m.db, x, x.stage.writes); }
    LogStep(l0, m.log, e);
    ReplyStep(l0, m.log, m.replies, e, Reply(t, Done));
  }

  lemma StepRefines(l0: Ledger, m: Machine, t: CallId)
    requires Refines(l0, m) && Enabled(m, t) && !m.txns[t].stage.Ended?
    ensures Refines(l0, Moved(m, t))
  {
    StepKeepsCoherent(m, t);
    MicroStep(m.db, m.txns[t]);
    OnlyDoneChanges(m.db, m.txns[t].call);
    var stage := Micro(m.db, m.txns[t]);
    if stage.Ended? && stage.outcome != Done {
      var e := Entry(m.txns[t].call, false);
      LogStep(l0, m.log, e);
      ReplyStep(l0, m.log, m.replies, e, Reply(t, stage.outcome));
    }
  }

  lemma EventRefines(l0: Ledger, m: Machine, e: Event)
    requires Refines(l0, m)
    ensures Refines(l0, After(m, e))
  {
    match e
    case Begin(_, _) => EventKeepsCoherent(m, e);
    case Advance(t) =>
      if Enabled(m, t) {
        if Committing(m, t) {
          CommitRefines(l0, m, t);
        } else if !m.txns[t].stage.Ended? {
          StepRefines(l0, m, t);
        }
      }
  }

  /** The invariant holds after every schedule of every mix of calls. */
  lemma {:induction false} EveryInterleavingRefines(l0: Ledger, events: seq<Event>)
    requires Indexed(l0)
    ensures Refines(l0, Run(Idle(l0), events))
    decreases |events|
  {
    if events != [] {
      EveryInterleavingRefines(l0, events[..|events| - 1]);
      EventRefines(l0, Run(Idle(l0), events[..|events| - 1]), events[|events| - 1]);
    }
  }
}
