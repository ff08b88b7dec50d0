/** How many guesses a phone gets, over every run of requests, verifications and waiting. */
module OtpLaws {
  import opened Numeric
  import opened OtpModel

  /** A phone's history: the codes issued to it, when the last one was, the wrong guesses compared against any
      code and against the last one, and whether the last one has been used. Then the wrong guesses since the last code
      was issued or used, none of them five minutes after the one before, and when the last of them was. */
  datatype Tally = Tally(issued: nat, lastIssue: nat, code: string, wrong: nat, wrongSince: nat, rightSince: nat,
                         streak: nat, lastWrong: nat)

  const NO_HISTORY := Tally(0, 0, "", 0, 0, 0, 0, 0)

  const FIVE_MINUTES: nat := 300_000

  function Count(t: Tally, s: Store, e: Event, phone: string): Tally {
    match e
    case Tick(_) => t
    case Ask(p, code, delivered) =>
      if p == phone && Request(s, p, code, delivered).1 == Sent
      then t.(issued := t.issued + 1, lastIssue := s.now, code := code, wrongSince := 0, rightSince := 0, streak := 0)
      else t
    case Guess(p, guess) =>
      if p != phone then t
      else match Verify(s, p, guess).1
        case WrongCode =>
          var streak := if s.now < t.lastWrong + FIVE_MINUTES then t.streak else 0;
          t.(wrong := t.wrong + 1, wrongSince := t.wrongSince + 1, streak := streak + 1, lastWrong := s.now)
        case RightCode => t.(rightSince := t.rightSince + 1, streak := 0)
        case _ => t
  }

  ghost function History(s0: Store, events: seq<Event>, phone: string): Tally
    decreases |events|
  {
    if events == [] then NO_HISTORY
    else
      var before := events[..|events| - 1];
      Count(History(s0, before, phone), Run(s0, before), events[|events| - 1], phone)
  }

  // ---- Keys of different kinds and of different phones never meet ----

  lemma KeysApart(p: string, q: string)
    ensures CodeKey(p) != CooldownKey(q) && CodeKey(p) != AttemptsKey(q) && CooldownKey(p) != AttemptsKey(q)
    ensures p != q ==> CodeKey(p) != CodeKey(q) && CooldownKey(p) != CooldownKey(q) && AttemptsKey(p) != AttemptsKey(q)
  {
    assert CodeKey(p)[6] == 'd' && CooldownKey(q)[6] == 'o';
    assert CodeKey(p)[4] == 'c' && AttemptsKey(q)[4] == 'a' && CooldownKey(p)[4] == 'c';
    assert CodeKey(p)[9..] == p && CodeKey(q)[9..] == q;
    assert CooldownKey(p)[13..] == p && CooldownKey(q)[13..] == q;
    assert AttemptsKey(p)[13..] == p && AttemptsKey(q)[13..] == q;
  }

  /** Another phone's requests and guesses leave this phone's keys alone. */
  lemma OtherPhonesDoNotMatter(s: Store, e: Event, phone: string)
    requires e.Tick? || (e.Ask? && e.phone != phone) || (e.Guess? && e.phone != phone)
    ensures var s' := Next(s, e);
            forall k :: k in {CodeKey(phone), CooldownKey(phone), AttemptsKey(phone)} ==>
              (k in s.keys <==> k in s'.keys) && (k in s.keys ==> s'.keys[k] == s.keys[k])
  {
    if !e.Tick? {
      KeysApart(phone, e.phone);
      KeysApart(e.phone, phone);
    }
  }

  // ---- The invariant ----

  /** The attempts key, while there are attempts to remember, outlives the code. */
  predicate AttemptsOutliveCode(s: Store, phone: string) {
    && AttemptsKey(phone) in s.keys && s.keys[AttemptsKey(phone)].expires.Some?
    && CodeKey(phone) in s.keys && s.keys[CodeKey(phone)].expires.Some?
    && s.keys[CodeKey(phone)].expires.value <= s.keys[AttemptsKey(phone)].expires.value
  }

  /** A code was issued less than five minutes ago and has not been used. */
  predicate Usable(s: Store, t: Tally) {
    t.issued > 0 && t.rightSince == 0 && s.now < t.lastIssue + OTP_TTL
  }

  /** A code is stored exactly while it is usable. As long as it is, the attempts on record are exactly the wrong
      guesses made at it. */
  predicate CodeOk(s: Store, phone: string, t: Tally) {
    && (Usable(s, t) <==> Live(s, CodeKey(phone)))
    && (Live(s, CodeKey(phone)) ==>
      && s.keys[CodeKey(phone)] == Key(Text(t.code), Some(t.lastIssue + OTP_TTL))
      && t.issued > 0 && t.rightSince == 0
      && Attempts(s, phone) == t.wrongSince
      && (t.wrongSince > 0 ==> AttemptsOutliveCode(s, phone)))
  }

  predicate CooldownOk(s: Store, phone: string, t: Tally) {
    if t.issued == 0 then CooldownKey(phone) !in s.keys
    else
      && CooldownKey(phone) in s.keys && s.keys[CooldownKey(phone)].expires == Some(t.lastIssue + RESEND_COOLDOWN)
      && RESEND_COOLDOWN * (t.issued - 1) <= t.lastIssue <= s.now
  }

  predicate TallyOk(t: Tally) {
    && t.wrongSince <= OTP_MAX_ATTEMPTS && t.rightSince <= 1
    && (t.issued == 0 ==> t.wrong == 0 && t.wrongSince == 0 && t.rightSince == 0)
    && (t.issued > 0 ==> t.wrong <= OTP_MAX_ATTEMPTS * (t.issued - 1) + t.wrongSince)
  }

  /** The attempts on record are the streak, until five minutes after its last guess. */
  predicate StreakOk(s: Store, phone: string, t: Tally) {
    var k := AttemptsKey(phone);
    if k in s.keys then t.streak > 0 && s.keys[k] == Key(Number(t.streak), Some(t.lastWrong + FIVE_MINUTES))
    else t.streak == 0
  }

  predicate AttemptsAreNumbers(s: Store, phone: string) {
    var k := AttemptsKey(phone);
    k in s.keys ==> s.keys[k].value.Number?
  }

  predicate PhoneOk(s: Store, phone: string, t: Tally) {
    CodeOk(s, phone, t) && CooldownOk(s, phone, t) && TallyOk(t) && StreakOk(s, phone, t)
  }

  lemma AskKeeps(s: Store, e: Event, phone: string, t: Tally)
    requires PhoneOk(s, phone, t) && e.Ask? && e.phone == phone
    ensures PhoneOk(Next(s, e), phone, Count(t, s, e, phone))
  {
    KeysApart(phone, phone);
  }

  lemma GuessKeeps(s: Store, e: Event, phone: string, t: Tally)
    requires PhoneOk(s, phone, t) && e.Guess? && e.phone == phone
    ensures PhoneOk(Next(s, e), phone, Count(t, s, e, phone))
  {
    KeysApart(phone, phone);
  }

  lemma OthersKeep(s: Store, e: Event, phone: string, t: Tally)
    requires PhoneOk(s, phone, t)
    requires e.Tick? || (e.Ask? && e.phone != phone) || (e.Guess? && e.phone != phone)
    ensures PhoneOk(Next(s, e), phone, Count(t, s, e, phone))
  {
    OtherPhonesDoNotMatter(s, e, phone);
    var s' := Next(s, e);
    assert CodeKey(phone) in s.keys <==> CodeKey(phone) in s'.keys;
    assert AttemptsKey(phone) in s.keys <==> AttemptsKey(phone) in s'.keys;
    assert CooldownKey(phone) in s.keys <==> CooldownKey(phone) in s'.keys;
  }

  lemma {:induction false} RunKeeps(s0: Store, events: seq<Event>, phone: string)
    requires s0.keys == map[]
    ensures PhoneOk(Run(s0, events), phone, History(s0, events, phone))
    decreases |events|
  {
    if events != [] {
      var before, e := events[..|events| - 1], events[|events| - 1];
      RunKeeps(s0, before, phone);
      var s, t := Run(s0, before), History(s0, before, phone);
      if e.Ask? && e.phone == phone { AskKeeps(s, e, phone, t); }
      else if e.Guess? && e.phone == phone { GuessKeeps(s, e, phone, t); }
      else { OthersKeep(s, e, phone, t); }
    }
  }

  // ---- What follows ----

  /** At most five wrong guesses are ever compared against one issued code, and it verifies at most once. */
  lemma GuessLimit(s0: Store, events: seq<Event>, phone: string)
    requires s0.keys == map[]
    ensures var t := History(s0, events, phone);
            && t.wrongSince <= 5 && t.rightSince <= 1
            && t.wrong <= 5 * t.issued
  {
    RunKeeps(s0, events, phone);
  }

  /** Starting from nothing, by time T at most T div 60 s + 1 codes are issued to a phone, so at most five times as
      many wrong guesses are compared. */
  lemma IssueRate(s0: Store, events: seq<Event>, phone: string)
    requires s0 == Store(0, map[])
    ensures var t, T := History(s0, events, phone), Run(s0, events).now;
            && t.issued <= T / 60_000 + 1
            && t.wrong <= 5 * (T / 60_000 + 1)
  {
    RunKeeps(s0, events, phone);
    var t, T := History(s0, events, phone), Run(s0, events).now;
    if t.issued > 0 {
      assert RESEND_COOLDOWN * (t.issued - 1) <= T;
    }
  }

  /** In every reachable state, a guess at the last code issued succeeds exactly if it is that code, issued less
      than five minutes ago, not used yet, and guessed wrong fewer than five times. */
  lemma RightCodeExactlyWhen(s0: Store, events: seq<Event>, phone: string, guess: string)
    requires s0.keys == map[]
    ensures var s, t := Run(s0, events), History(s0, events, phone);
            Verify(s, phone, guess).1 == RightCode
            <==> t.issued > 0 && guess == t.code && s.now < t.lastIssue + 300_000
                 && t.rightSince == 0 && t.wrongSince < 5
  {
    RunKeeps(s0, events, phone);
  }

  /** In every reachable state, what a guess is answered: too many attempts after a streak of five, until five minutes
      after its last; expired if there is no code under five minutes old that is not used; else whether it is the
      code. */
  lemma GuessAnsweredExactly(s0: Store, events: seq<Event>, phone: string, guess: string)
    requires s0.keys == map[]
    ensures var s, t := Run(s0, events), History(s0, events, phone);
            Verify(s, phone, guess).1
            == if t.streak >= 5 && s.now < t.lastWrong + 300_000 then TooManyAttempts
               else if t.issued == 0 || t.rightSince > 0 || s.now >= t.lastIssue + 300_000 then CodeExpired
               else if guess == t.code then RightCode
               else WrongCode
  {
    RunKeeps(s0, events, phone);
  }

  /** And what a request is: refused for a minute after the last code, and otherwise sent if the SMS goes out. */
  lemma RequestAnsweredExactly(s0: Store, events: seq<Event>, phone: string, code: string, delivered: bool)
    requires s0.keys == map[]
    ensures var s, t := Run(s0, events), History(s0, events, phone);
            Request(s, phone, code, delivered).1
            == if t.issued > 0 && s.now < t.lastIssue + 60_000 then RateLimited
               else if delivered then Sent
               else DeliveryFailed
  {
    RunKeeps(s0, events, phone);
  }

  /** A request that is refused or not delivered leaves code, cooldown and attempts as they were; the next one may
      come at once exactly if the cooldown is over. */
  lemma FailedDeliveryCostsNothing(s: Store, phone: string, code: string, again: string)
    ensures var (s1, result) := Request(s, phone, code, false);
            && s1 == s && result != Sent
            && (Request(s1, phone, again, true).1 == Sent <==> result == DeliveryFailed)
  {
  }
}
