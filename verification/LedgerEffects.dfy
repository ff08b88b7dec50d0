/** What each call answers and what it leaves behind, in the decimals, centimes and rows that a caller sees. */
module LedgerEffects {
  import opened Numeric
  import opened LedgerModel
  import opened LedgerLaws

  /** NUMERIC(15, 2) ends here. */
  const TOO_MUCH: int := 1_000_000_000_000_000

  ghost predicate ReferenceTaken(l: Ledger, reference: string) {
    exists i :: 0 <= i < |l.rows| && l.rows[i].reference == reference
  }

  /** Some row but `except` stores the proof. */
  ghost predicate ProofTakenBy(l: Ledger, provider: Provider, proof: Option<string>, except: string -> bool) {
    proof.Some? && exists i :: 0 <= i < |l.rows| && l.rows[i].provider == provider && l.rows[i].proof == proof
                               && !except(l.rows[i].reference)
  }

  ghost predicate ProofStored(l: Ledger, provider: Provider, proof: Option<string>) {
    ProofTakenBy(l, provider, proof, r => false)
  }

  ghost predicate ProofStoredElsewhere(l: Ledger, provider: Provider, proof: Option<string>, reference: string) {
    ProofTakenBy(l, provider, proof, r => r == reference)
  }

  ghost predicate Unchanged(l: Ledger, e: Effect) {
    e.outcome != Done ==> e.ledger == l
  }

  lemma SameLookups(l: Ledger, reference: string, provider: Provider, proof: Option<string>)
    ensures ReferenceTaken(l, reference) <==> ReferenceUsed(l.rows, reference)
    ensures ProofStored(l, provider, proof) <==> proof.Some? && ProofUsed(l.rows, provider, proof.value)
    ensures ProofStoredElsewhere(l, provider, proof, reference)
       <==> ProofUsedElsewhere(l.rows, provider, proof, reference)
  {
    if proof.Some? {
      forall i | 0 <= i < |l.rows|
        ensures Carries(l.rows[i], provider, proof.value)
           <==> l.rows[i].provider == provider && l.rows[i].proof == proof
      {
      }
    }
  }

  /** A pay-in of `a` centimes is declared. */
  lemma DeclareExactly(l: Ledger, c: Call, a: int)
    requires c.DeclarePayIn? && NearestTo(a, 100.0 * c.amount)
    ensures var e := Step(l, c);
            && e.outcome == (if !(0 < a < TOO_MUCH && c.user < |l.balances|) then Raised
                             else if ProofStored(l, c.provider, c.proof)
                             then Refused(if ReferenceTaken(l, c.reference) then OtherDeclaration else DuplicateProof)
                             else if ReferenceTaken(l, c.reference) then Raised
                             else Done)
            && Unchanged(l, e)
            && (e.outcome == Done ==>
                  e.ledger == Ledger(l.phones, l.balances,
                    l.rows + [Row(c.reference, c.user, PayIn, c.provider, a, 0, Pending, c.proof, NoRole)]))
  {
    RoundIsNearest(100.0 * c.amount, a);
    SameLookups(l, c.reference, c.provider, c.proof);
  }

  lemma UnknownReference(l: Ledger, c: Call)
    requires c.CreditPayIn? && !ReferenceTaken(l, c.reference)
    ensures Step(l, c) == Effect(l, Refused(UnknownTransaction))
  {
    SameLookups(l, c.reference, Wave, None);
  }

  lemma FoundAt(l: Ledger, id: nat)
    requires Sound(l) && id < |l.rows|
    ensures IndexOf(l.rows, l.rows[id].reference) == Some(id)
  {
  }

  /** The pay-in in row `id` is confirmed: its owner gets its amount, and it keeps its proof or takes the one given. */
  lemma ConfirmExactly(l: Ledger, c: Call, id: nat)
    requires Sound(l) && c.CreditPayIn? && id < |l.rows| && l.rows[id].reference == c.reference
    ensures var e, tx := Step(l, c), l.rows[id];
            && e.outcome == (if tx.status == Success then Refused(AlreadyCredited)
                             else if tx.status == Cancelled || tx.status == Reversed then Refused(NotCreditable)
                             else if ProofStoredElsewhere(l, tx.provider, c.proof, c.reference)
                             then Refused(DuplicateProof)
                             else if c.confirmed.Some? && c.confirmed.value * 100.0 != tx.amount as real
                             then Refused(AmountMismatch)
                             else if l.balances[tx.user] + tx.amount >= TOO_MUCH then Raised
                             else Done)
            && Unchanged(l, e)
            && (e.outcome == Done ==>
                  e.ledger == Ledger(l.phones, l.balances[tx.user := l.balances[tx.user] + tx.amount],
                    l.rows[id := Row(tx.reference, tx.user, tx.kind, tx.provider, tx.amount, tx.fee, Success,
                                     if tx.proof == None then c.proof else tx.proof, tx.role)]))
  {
    FoundAt(l, id);
    SameLookups(l, c.reference, l.rows[id].provider, c.proof);
  }

  /** Only a pending pay-in is rejected, and nothing but its status changes. */
  lemma RejectExactly(l: Ledger, id: nat)
    ensures var e := Step(l, RejectPayIn(id));
            if id < |l.rows| && l.rows[id].kind == PayIn && l.rows[id].status == Pending
            then e == Effect(Ledger(l.phones, l.balances, l.rows[id := l.rows[id].(status := Failed)]), Done)
            else e == Effect(l, Refused(UnknownTransaction))
  {
  }

  /** A pay-out of `a` centimes is reserved. */
  lemma ReserveExactly(l: Ledger, c: Call, a: int)
    requires Sound(l) && c.RequestPayOut? && NearestTo(a, 100.0 * c.amount)
    ensures var e := Step(l, c);
            && e.outcome == (if c.user >= |l.balances| then Refused(NoWallet)
                             else if l.balances[c.user] as real < 100.0 * c.amount then Refused(InsufficientFunds)
                             else if a <= 0 || ReferenceTaken(l, c.reference) then Raised
                             else Done)
            && Unchanged(l, e)
            && (e.outcome == Done ==>
                  e.ledger == Ledger(l.phones,
                    l.balances[c.user := l.balances[c.user] - a + if a as real - 100.0 * c.amount == 0.5 then 1 else 0],
                    l.rows + [Row(c.reference, c.user, PayOut, c.provider, a, 0, Pending, None, NoRole)]))
  {
    RoundIsNearest(100.0 * c.amount, a);
    SameLookups(l, c.reference, c.provider, None);
    if c.user < |l.balances| && l.balances[c.user] as real >= 100.0 * c.amount && c.amount >= 0.0 {
      StoreDifference(l.balances[c.user], c.amount);
      TieStore(c.amount);
    }
  }

  /** A pending row is approved, with the proof given if any, or rejected, and its amount paid back. */
  lemma SettleExactly(l: Ledger, c: Call)
    requires Sound(l) && c.ProcessPayOut?
    ensures var e := Step(l, c);
            && e.outcome == (if c.id >= |l.rows| then Refused(UnknownTransaction)
                             else if l.rows[c.id].status != Pending then Refused(AlreadyProcessed)
                             else if c.action == OtherAction then Refused(UnknownAction)
                             else
                               var tx := l.rows[c.id];
                               if c.action == Approve && c.proof != tx.proof
                                  && ProofStoredElsewhere(l, tx.provider, c.proof, tx.reference)
                               then Raised
                               else if c.action == Reject && l.balances[tx.user] + tx.amount >= TOO_MUCH then Raised
                               else Done)
            && Unchanged(l, e)
            && (e.outcome == Done ==>
                  var tx := l.rows[c.id];
                  if c.action == Approve
                  then e.ledger == Ledger(l.phones, l.balances,
                         l.rows[c.id := tx.(status := Success, proof := if c.proof == None then tx.proof else c.proof)])
                  else e.ledger == Ledger(l.phones, l.balances[tx.user := l.balances[tx.user] + tx.amount],
                         l.rows[c.id := tx.(status := Cancelled)]))
  {
    if c.id < |l.rows| { SameLookups(l, l.rows[c.id].reference, l.rows[c.id].provider, c.proof); }
  }

  /** `a` centimes are transferred for a fee of `f`, the percentage of the amount. */
  lemma TransferExactly(l: Ledger, c: Call, a: int, f: int)
    requires Sound(l) && c.Transfer? && 0.0 <= c.feePercent
    requires NearestTo(a, 100.0 * c.amount) && NearestTo(f, c.amount * c.feePercent)
    ensures var e := Step(l, c);
            && e.outcome == (if c.amount <= 0.0 then Refused(InvalidAmount)
                             else if a + f >= TOO_MUCH then Raised
                             else if c.phone !in l.phones then Refused(UnknownRecipient)
                             else if l.phones[c.phone] == c.sender then Refused(SelfTransfer)
                             else if c.sender >= |l.balances| then Refused(NoWallet)
                             else if l.balances[c.sender] < a + f then Refused(InsufficientFunds)
                             else if l.phones[c.phone] >= |l.balances| then Refused(NoWallet)
                             else if a == 0 || l.balances[l.phones[c.phone]] + a >= TOO_MUCH
                                     || ReferenceTaken(l, c.senderReference)
                                     || ReferenceTaken(l, c.recipientReference)
                                     || c.senderReference == c.recipientReference
                             then Raised
                             else Done)
            && Unchanged(l, e)
            && (e.outcome == Done ==>
                  var r := l.phones[c.phone];
                  e.ledger == Ledger(l.phones,
                    l.balances[c.sender := l.balances[c.sender] - a - f][r := l.balances[r] + a],
                    l.rows
                    + [Row(c.senderReference, c.sender, InternalTransfer, Internal, a, f, Success, None, Sender),
                       Row(c.recipientReference, r, InternalTransfer, Internal, a, 0, Success, None, Recipient)]))
  {
    RoundIsNearest(100.0 * c.amount, a);
    RoundIsNearest(c.amount * c.feePercent, f);
    FeeIsPercentage(c.amount, c.feePercent);
    SameLookups(l, c.senderReference, Internal, None);
    SameLookups(l, c.recipientReference, Internal, None);
    if c.amount > 0.0 {
      TransferAmounts(0, c.amount, c.feePercent);
      StoreSign(c.amount);
      if c.phone in l.phones && l.phones[c.phone] < |l.balances| {
        TransferAmounts(l.balances[l.phones[c.phone]], c.amount, c.feePercent);
      }
    }
  }

  lemma FeeIsPercentage(amount: real, percent: real)
    ensures amount * percent / 100.0 * 100.0 == amount * percent
  {
  }

  /** An administrator credits `a` centimes. */
  lemma ManualExactly(l: Ledger, c: Call, a: int)
    requires Sound(l) && c.ManualCredit? && NearestTo(a, 100.0 * c.amount)
    ensures var e := Step(l, c);
            && e.outcome == (if c.amount <= 0.0 then Refused(InvalidAmount)
                             else if c.user >= |l.balances| then Refused(NoWallet)
                             else if a == 0 || l.balances[c.user] + a >= TOO_MUCH || ReferenceTaken(l, c.reference)
                             then Raised
                             else Done)
            && Unchanged(l, e)
            && (e.outcome == Done ==>
                  e.ledger == Ledger(l.phones, l.balances[c.user := l.balances[c.user] + a],
                    l.rows + [Row(c.reference, c.user, PayIn, AdminManual, a, 0, Success, None, NoRole)]))
  {
    RoundIsNearest(100.0 * c.amount, a);
    SameLookups(l, c.reference, AdminManual, None);
    if c.amount > 0.0 && c.user < |l.balances| { StoreSum(l.balances[c.user], c.amount); }
  }
}
