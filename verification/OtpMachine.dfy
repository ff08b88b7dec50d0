/** Overlapping OTP calls: every call awaits each of its Redis commands, and between two of them the other calls in
    flight may run theirs and time may pass.
 */
module OtpMachine {
  import opened OtpModel

  type CallId = nat

  /** A call in flight, by the command it awaits. The first five are a request's, the others a verification's. */
  datatype Proc =
      /** GET of the cooldown. */
    | Asking(phone: string, code: string, delivered: bool)
      /** The SMS. */
    | Texting(phone: string, code: string, delivered: bool)
      /** SET of the code, SET of the cooldown, DEL of the attempts. */
    | StoringCode(phone: string, code: string)
    | StoringCooldown(phone: string)
    | ClearingAttempts(phone: string)
      /** GET of the attempts, and GET of the code, which is compared with the guess. */
    | Guessing(phone: string, guess: string)
    | Comparing(phone: string, guess: string)
      /** After a wrong guess: INCR and EXPIRE of the attempts. */
    | Counting(phone: string)
    | Extending(phone: string)
      /** After a right one: DEL of the code and DEL of the attempts. */
    | Consuming(phone: string)
    | Forgetting(phone: string)

  datatype Answer = Asked(request: RequestResult) | Guessed(verify: VerifyResult)

  datatype Going = On(proc: Proc) | Ends(answer: Answer)

  /** The command that the call awaits is carried out. */
  function Resume(s: Store, p: Proc): (Store, Going) {
    match p
    case Asking(phone, code, delivered) =>
      if Live(s, CooldownKey(phone)) then (s, Ends(Asked(RateLimited))) else (s, On(Texting(phone, code, delivered)))
    case Texting(phone, code, delivered) =>
      (s, if delivered then On(StoringCode(phone, code)) else Ends(Asked(DeliveryFailed)))
    case StoringCode(phone, code) => (SetEx(s, CodeKey(phone), Text(code), OTP_TTL), On(StoringCooldown(phone)))
    case StoringCooldown(phone) =>
      (SetEx(s, CooldownKey(phone), Text("1"), RESEND_COOLDOWN), On(ClearingAttempts(phone)))
    case ClearingAttempts(phone) => (Delete(s, AttemptsKey(phone)), Ends(Asked(Sent)))
    case Guessing(phone, guess) =>
      (s, if Attempts(s, phone) >= OTP_MAX_ATTEMPTS then Ends(Guessed(TooManyAttempts))
          else On(Comparing(phone, guess)))
    case Comparing(phone, guess) =>
      var stored := Get(s, CodeKey(phone));
      (s, if stored.None? then Ends(Guessed(CodeExpired))
          else if stored.value != Text(guess) then On(Counting(phone))
          else On(Consuming(phone)))
    case Counting(phone) => (Incr(s, AttemptsKey(phone)), On(Extending(phone)))
    case Extending(phone) => (Expire(s, AttemptsKey(phone), OTP_TTL), Ends(Guessed(WrongCode)))
    case Consuming(phone) => (Delete(s, CodeKey(phone)), On(Forgetting(phone)))
    case Forgetting(phone) => (Delete(s, AttemptsKey(phone)), Ends(Guessed(RightCode)))
  }

  // ---- One call, and what the others do meanwhile ----

  function CommandsLeft(p: Proc): nat {
    match p
    case Asking(_, _, _) => 5
    case Texting(_, _, _) => 4
    case StoringCode(_, _) => 3
    case StoringCooldown(_) => 2
    case ClearingAttempts(_) => 1
    case Guessing(_, _) => 4
    case Comparing(_, _) => 3
    case Counting(_) => 2
    case Extending(_) => 1
    case Consuming(_) => 2
    case Forgetting(_) => 1
  }

  /** The call from `p` to its end; `others[i]` is what the others and the clock do while it awaits its i-th command. */
  function Completed(s: Store, p: Proc, others: seq<Store -> Store>): (Store, Answer)
    requires CommandsLeft(p) <= |others|
    decreases CommandsLeft(p)
  {
    var (s1, going) := Resume(others[0](s), p);
    match going
    case Ends(answer) => (s1, answer)
    case On(q) => Completed(s1, q, others[1..])
  }

  /** Nothing but the call's own command changes the database while it runs. */
  ghost predicate Idly(others: seq<Store -> Store>) {
    forall i, s :: 0 <= i < |others| ==> others[i](s) == s
  }

  /** The call run without interruption. */
  function Alone(s: Store, p: Proc): (Store, Answer)
    decreases CommandsLeft(p)
  {
    var (s1, going) := Resume(s, p);
    match going
    case Ends(answer) => (s1, answer)
    case On(q) => Alone(s1, q)
  }

  lemma {:induction false} UndisturbedIsAlone(s: Store, p: Proc, others: seq<Store -> Store>)
    requires CommandsLeft(p) <= |others| && Idly(others)
    ensures Completed(s, p, others) == Alone(s, p)
    decreases CommandsLeft(p)
  {
    assert others[0](s) == s;
    var (s1, going) := Resume(s, p);
    if going.On? {
      forall i, s' | 0 <= i < |others[1..]| ensures others[1..][i](s') == s' {
        assert others[1..][i] == others[i + 1];
      }
      UndisturbedIsAlone(s1, going.proc, others[1..]);
    }
  }

  /** A verification that nothing disturbs is the one that happens at one instant. */
  lemma VerifyAloneIsAtomic(s: Store, phone: string, guess: string, others: seq<Store -> Store>)
    requires |others| >= 4 && Idly(others)
    ensures var (s', result) := Verify(s, phone, guess);
            Completed(s, Guessing(phone, guess), others) == (s', Guessed(result))
  {
    UndisturbedIsAlone(s, Guessing(phone, guess), others);
    var s1 := Incr(s, AttemptsKey(phone));
    assert Alone(s, Counting(phone)) == Alone(s1, Extending(phone));
    assert Alone(s, Consuming(phone)) == Alone(Delete(s, CodeKey(phone)), Forgetting(phone));
  }

  /** And so is such a request. */
  lemma RequestAloneIsAtomic(s: Store, phone: string, code: string, delivered: bool, others: seq<Store -> Store>)
    requires |others| >= 5 && Idly(others)
    ensures var (s', result) := Request(s, phone, code, delivered);
            Completed(s, Asking(phone, code, delivered), others) == (s', Asked(result))
  {
    UndisturbedIsAlone(s, Asking(phone, code, delivered), others);
    var s1 := SetEx(s, CodeKey(phone), Text(code), OTP_TTL);
    var s2 := SetEx(s1, CooldownKey(phone), Text("1"), RESEND_COOLDOWN);
    assert Alone(s1, StoringCooldown(phone)) == Alone(s2, ClearingAttempts(phone));
    assert Alone(s, StoringCode(phone, code)) == Alone(s1, StoringCooldown(phone));
    assert delivered ==> Alone(s, Texting(phone, code, delivered)) == Alone(s, StoringCode(phone, code));
  }

  // ---- Any number of calls ----

  datatype Machine = Machine(store: Store, calls: map<CallId, Proc>)

  datatype Move = Wait(elapsed: nat) | Begin(t: CallId, call: Proc) | Advance(t: CallId)

  predicate Begins(p: Proc) {
    p.Asking? || p.Guessing?
  }

  function Advanced(m: Machine, t: CallId): Machine
    requires t in m.calls
  {
    var (s, going) := Resume(m.store, m.calls[t]);
    Machine(s, if going.On? then m.calls[t := going.proc] else m.calls - {t})
  }

  /** A move that is not possible leaves the machine as it is. */
  function After(m: Machine, move: Move): Machine {
    match move
    case Wait(elapsed) => m.(store := m.store.(now := m.store.now + elapsed))
    case Begin(t, p) => if t !in m.calls && Begins(p) then m.(calls := m.calls[t := p]) else m
    case Advance(t) => if t in m.calls then Advanced(m, t) else m
  }

  const IDLE := Machine(Store(0, map[]), map[])
}
