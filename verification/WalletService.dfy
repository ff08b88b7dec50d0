/** The stored procedures and service calls as they run: locals are read, guards return early, and the tables
    are changed step by step. A database error restores what the call had changed.
 */
module WalletService {
  import opened Numeric
  import opened LedgerModel

  class Tables {
    const phones: map<string, UserId>
    var balances: seq<int>
    var rows: seq<Row>

    ghost function Value(): Ledger
      reads this
    {
      Ledger(phones, balances, rows)
    }

    constructor (users: nat, phones: map<string, UserId>)
      ensures Value() == Opening(users, phones)
    {
      this.phones := phones;
      balances := seq(users, _ => 0);
      rows := [];
    }

    /** INSERT INTO ledger_transactions: false, and nothing inserted, if a constraint fails. */
    method Insert(row: Row) returns (ok: bool)
      modifies this`rows
      ensures ok == (Storable(old(Value()), row)
                     && !(row.proof.Some? && ProofUsed(old(rows), row.provider, row.proof.value))
                     && !ReferenceUsed(old(rows), row.reference))
      ensures rows == if ok then old(rows) + [row] else old(rows)
    {
      ok := 0 < row.amount && Fits(row.amount) && Fits(row.fee) && row.user < |balances|;
      if ok && row.proof.Some? && ProofUsed(rows, row.provider, row.proof.value) { ok := false; }
      if ok && ReferenceUsed(rows, row.reference) { ok := false; }
      if ok { rows := rows + [row]; }
    }

    /** UPDATE wallets SET balance = ... WHERE user_id = u: false if the CHECK or the width fails. */
    method SetBalance(u: UserId, balance: int) returns (ok: bool)
      modifies this`balances
      ensures ok == (u < |old(balances)| ==> Holdable(balance))
      ensures balances == if ok && u < |old(balances)| then old(balances)[u := balance] else old(balances)
    {
      ok := true;
      if u < |balances| {
        ok := 0 <= balance && Fits(balance);
        if ok { balances := balances[u := balance]; }
      }
    }

    /** `row` is the row the answer names: the one under the reference, new or not, or the one that has the proof. */
    method DeclarePayInPending(user: UserId, amount: real, provider: Provider, proof: Option<string>,
                               reference: string) returns (outcome: Outcome, row: Option<nat>)
      modifies this
      ensures Effect(Value(), outcome) == Step(old(Value()), DeclarePayIn(user, amount, provider, proof, reference))
      ensures outcome == Done ==> row == Some(|old(rows)|)
      ensures outcome == Refused(DuplicateProof) ==>
                row.Some? && row.value < |rows| && proof.Some? && Carries(rows[row.value], provider, proof.value)
      ensures outcome == Refused(OtherDeclaration) ==> row == IndexOf(rows, reference) && row.Some?
      ensures outcome == Raised ==> row == None
    {
      var declared := NewRow(reference, user, PayIn, provider, amount, 0, Pending, proof, NoRole);
      row := None;
      if Storable(Ledger(phones, balances, rows), declared) && proof.Some? {
        row := RowWithProof(rows, provider, proof.value);
        if row.Some? {
          var found := IndexOf(rows, reference);
          if found.Some? { return Refused(OtherDeclaration), found; }
          return Refused(DuplicateProof), row;
        }
      }
      var ok := Insert(declared);
      if !ok { return Raised, None; }
      return Done, Some(|rows| - 1);
    }

    method ProcessPayInCredit(reference: string, proof: Option<string>, confirmed: Option<real>)
      returns (outcome: Outcome)
      modifies this
      ensures Effect(Value(), outcome) == Credit(old(Value()), reference, proof, confirmed)
    {
      var i := IndexOf(rows, reference);
      if i.None? { return Refused(UnknownTransaction); }
      var tx := rows[i.value];
      if tx.status == Success { return Refused(AlreadyCredited); }
      if tx.status !in {Pending, Failed} { return Refused(NotCreditable); }
      if ProofUsedElsewhere(rows, tx.provider, proof, reference) { return Refused(DuplicateProof); }
      if confirmed.Some? && confirmed.value != Francs(tx.amount) { return Refused(AmountMismatch); }
      var ok := true;
      if tx.user < |balances| {
        ok := SetBalance(tx.user, balances[tx.user] + tx.amount);
      }
      if !ok { return Raised; }
      rows := rows[i.value := tx.(status := Success, proof := if tx.proof.Some? then tx.proof else proof)];
      outcome := Done;
    }

    method RejectPayInRow(id: nat) returns (outcome: Outcome)
      modifies this
      ensures Effect(Value(), outcome) == RejectDeclared(old(Value()), id)
    {
      if id >= |rows| || rows[id].status != Pending || rows[id].kind != PayIn {
        return Refused(UnknownTransaction);
      }
      rows := rows[id := rows[id].(status := Failed)];
      outcome := Done;
    }

    method ProcessPayOutDeduction(user: UserId, amount: real, reference: string, provider: Provider)
      returns (outcome: Outcome)
      modifies this
      ensures Effect(Value(), outcome) == Step(old(Value()), RequestPayOut(user, amount, reference, provider))
    {
      if user >= |balances| { return Refused(NoWallet); }
      var before := balances;
      var balance := balances[user];
      if Francs(balance) < amount { return Refused(InsufficientFunds); }
      var ok := SetBalance(user, Store(Francs(balance) - amount));
      if !ok { return Raised; }
      ok := Insert(NewRow(reference, user, PayOut, provider, amount, 0, Pending, None, NoRole));
      if !ok {
        balances := before;
        return Raised;
      }
      outcome := Done;
    }

    method AdminProcessPayOut(id: nat, action: Action, proof: Option<string>) returns (outcome: Outcome)
      modifies this
      ensures Effect(Value(), outcome) == Process(old(Value()), id, action, proof)
    {
      if id >= |rows| { return Refused(UnknownTransaction); }
      var tx := rows[id];
      if tx.status != Pending { return Refused(AlreadyProcessed); }
      match action
      case Approve =>
        if proof != tx.proof && ProofUsedElsewhere(rows, tx.provider, proof, tx.reference) { return Raised; }
        rows := rows[id := tx.(status := Success, proof := if proof.Some? then proof else tx.proof)];
        outcome := Done;
      case Reject =>
        var ok := true;
        if tx.user < |balances| {
          ok := SetBalance(tx.user, balances[tx.user] + tx.amount);
        }
        if !ok { return Raised; }
        rows := rows[id := tx.(status := Cancelled)];
        outcome := Done;
      case OtherAction =>
        outcome := Refused(UnknownAction);
    }

    method ProcessInternalTransfer(c: Call) returns (outcome: Outcome)
      requires c.Transfer?
      modifies this
      ensures Effect(Value(), outcome) == Move(old(Value()), c)
    {
      if c.amount <= 0.0 { return Refused(InvalidAmount); }
      var fee := TransferFee(c.amount, c.feePercent);
      if !Fits(fee) { return Raised; }
      var total := Store(c.amount + Francs(fee));
      if !Fits(total) { return Raised; }
      if c.phone !in phones { return Refused(UnknownRecipient); }
      var recipient := phones[c.phone];
      if recipient == c.sender { return Refused(SelfTransfer); }
      if c.sender >= |balances| { return Refused(NoWallet); }
      if balances[c.sender] < total { return Refused(InsufficientFunds); }
      if recipient >= |balances| { return Refused(NoWallet); }

      var ok := Book(c, recipient, total);
      outcome := if ok then Done else Raised;
    }

    /** The two balance updates and the two inserts of a transfer, all or nothing. */
    method Book(c: Call, recipient: UserId, total: int) returns (ok: bool)
      requires c.Transfer? && c.sender < |balances| && recipient < |balances| && recipient != c.sender
      modifies this
      ensures var l := old(Value());
              var debited := l.balances[c.sender] - total;
              var credited := Store(Francs(l.balances[recipient]) + c.amount);
              && ok == (Holdable(debited) && Holdable(credited)
                        && Storable(l, SenderRow(c)) && Storable(l, RecipientRow(c, recipient))
                        && !ReferenceUsed(l.rows, c.senderReference) && !ReferenceUsed(l.rows, c.recipientReference)
                        && c.senderReference != c.recipientReference)
              && Value() == if ok then l.(balances := l.balances[c.sender := debited][recipient := credited],
                                          rows := l.rows + [SenderRow(c), RecipientRow(c, recipient)])
                            else l
    {
      var before := balances;
      ok := SetBalance(c.sender, balances[c.sender] - total);
      if ok { ok := SetBalance(recipient, Store(Francs(balances[recipient]) + c.amount)); }
      if ok { ok := InsertPair(SenderRow(c), RecipientRow(c, recipient)); }
      if !ok { balances := before; }
    }

    /** Two inserts, both or none. */
    method InsertPair(a: Row, b: Row) returns (ok: bool)
      requires a.proof.None? && b.proof.None?
      modifies this`rows
      ensures ok == (Storable(old(Value()), a) && Storable(old(Value()), b)
                     && !ReferenceUsed(old(rows), a.reference) && !ReferenceUsed(old(rows), b.reference)
                     && a.reference != b.reference)
      ensures rows == if ok then old(rows) + [a, b] else old(rows)
    {
      var before := rows;
      ok := Insert(a);
      if ok {
        InsertedReference(before, a, b.reference);
        ok := Insert(b);
      }
      if !ok { rows := before; }
    }

    method AdminManualCredit(user: UserId, amount: real, reference: string) returns (outcome: Outcome)
      modifies this
      ensures Effect(Value(), outcome) == Step(old(Value()), ManualCredit(user, amount, reference))
    {
      if amount <= 0.0 { return Refused(InvalidAmount); }
      if user >= |balances| { return Refused(NoWallet); }
      var before := balances;
      var ok := SetBalance(user, Store(Francs(balances[user]) + amount));
      if ok { ok := Insert(NewRow(reference, user, PayIn, AdminManual, amount, 0, Success, None, NoRole)); }
      if !ok {
        balances := before;
        return Raised;
      }
      outcome := Done;
    }
  }

  /** Looking a reference up after an insert finds the new row or what was there before. */
  lemma InsertedReference(rows: seq<Row>, row: Row, reference: string)
    ensures ReferenceUsed(rows + [row], reference)
       <==> (row.reference == reference || ReferenceUsed(rows, reference))
  {
    assert (rows + [row])[..|rows|] == rows;
  }
}
