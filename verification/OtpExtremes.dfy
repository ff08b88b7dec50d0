/** Schedules that reach the bounds of OtpOverlap, so that the bounds are exact. */
module OtpExtremes {
  import opened Numeric
  import opened OtpModel
  import opened OtpLaws
  import opened OtpMachine
  import opened OtpOverlap

  ghost predicate Reaches(o: Seen, phone: string) {
    exists moves :: Watch(moves, phone) == o
  }

  lemma ReachesNext(o: Seen, move: Move, phone: string)
    requires Reaches(o, phone)
    ensures Reaches(SeenAfter(o, move, phone), phone)
  {
    hide CrowdOf, Noted, After;
    var moves :| Watch(moves, phone) == o;
    assert (moves + [move])[..|moves|] == moves;
    assert Watch(moves + [move], phone) == SeenAfter(o, move, phone);
  }

  lemma ReachesIdle(phone: string)
    ensures Reaches(Seen(IDLE, NOTHING_YET), phone)
  {
    assert Watch([], phone) == Seen(IDLE, NOTHING_YET);
  }

  // ---- One call among others that stand still ----

  /** At most `peak` verifications since the last code and `asks` requests were in flight at once; if `quiet`, every
      request was alone from storing its code to its end. */
  predicate Within(r: Record, peak: nat, asks: nat, quiet: bool) {
    r.peak <= peak && r.asks <= asks && (quiet ==> r.quiet)
  }

  predicate Room(c: Crowd, p: Proc, peak: nat, asks: nat, quiet: bool) {
    var all := Plus(Weight(p, p.phone), c);
    all.verifying <= peak && all.requesting <= asks && (quiet ==> Quiet(all))
  }

  /** A new call begins. */
  lemma Begun(o: Seen, t: CallId, p: Proc, peak: nat, asks: nat, quiet: bool) returns (o': Seen)
    requires Reaches(o, p.phone) && t !in o.m.calls && Begins(p) && Within(o.r, peak, asks, quiet)
    requires Room(CrowdOf(o.m.calls, p.phone), p, peak, asks, quiet)
    ensures Reaches(o', p.phone) && o'.m == Machine(o.m.store, o.m.calls[t := p])
    ensures Within(o'.r, peak, asks, quiet)
    ensures o'.r.(peak := o.r.peak, top := o.r.top, asks := o.r.asks, quiet := o.r.quiet) == o.r
  {
    hide CrowdOf, Weight, Resume;
    o' := SeenAfter(o, Begin(t, p), p.phone);
    ReachesNext(o, Begin(t, p), p.phone);
    BeginMove(o.m, o.r, t, p, p.phone);
  }

  /** What a command adds to the counts. */
  predicate Adds(r: Record, r': Record, p: Proc, going: Going) {
    && r'.issued == r.issued + One(p.StoringCode?)
    && (p.StoringCode? ==> r'.wrongSince == 0 && r'.rightSince == 0)
    && (!p.StoringCode? ==>
          && r'.wrongSince == r.wrongSince + One(p.Comparing? && going.On? && going.proc.Counting?)
          && r'.rightSince == r.rightSince + One(p.Comparing? && going.On? && going.proc.Consuming?))
  }

  /** Room among the other calls for what the call becomes. */
  predicate RoomFor(c: Crowd, going: Going, peak: nat, asks: nat, quiet: bool) {
    && c.verifying <= peak && c.requesting <= asks && (quiet ==> Quiet(c))
    && (going.On? ==> Room(c, going.proc, peak, asks, quiet))
  }

  /** The command of call `t` is carried out; `calls` are the other calls. */
  lemma Moved(o: Seen, calls: map<CallId, Proc>, t: CallId, p: Proc, peak: nat, asks: nat, quiet: bool)
    returns (o': Seen)
    requires Reaches(o, p.phone) && t !in calls && o.m.calls == calls[t := p] && Within(o.r, peak, asks, quiet)
    requires RoomFor(CrowdOf(calls, p.phone), Resume(o.m.store, p).1, peak, asks, quiet)
    ensures Reaches(o', p.phone) && Within(o'.r, peak, asks, quiet) && Adds(o.r, o'.r, p, Resume(o.m.store, p).1)
    ensures o'.m == Machine(Resume(o.m.store, p).0, Standing(calls, t, Resume(o.m.store, p).1))
  {
    hide CrowdOf, Weight, Resume, NotedFor;
    o' := MovedSeen(o, calls, t, p);
    MovedRecord(o.r, o.m.store, p, CrowdOf(calls, p.phone), peak, asks, quiet);
  }

  lemma MovedSeen(o: Seen, calls: map<CallId, Proc>, t: CallId, p: Proc) returns (o': Seen)
    requires Reaches(o, p.phone) && t !in calls && o.m.calls == calls[t := p]
    ensures Reaches(o', p.phone) && o'.r == NotedFor(o.r, o.m.store, p, CrowdOf(calls, p.phone))
    ensures o'.m == Machine(Resume(o.m.store, p).0, Standing(calls, t, Resume(o.m.store, p).1))
  {
    hide CrowdOf, Weight, Resume, NotedFor;
    o' := SeenAfter(o, Advance(t), p.phone);
    ReachesNext(o, Advance(t), p.phone);
    AdvancedAmong(o.m.store, calls, t, p);
    MovedNoted(o, calls, t, p);
  }

  lemma MovedNoted(o: Seen, calls: map<CallId, Proc>, t: CallId, p: Proc)
    requires t !in calls && o.m.calls == calls[t := p]
    ensures Noted(o.r, o.m, Advance(t), p.phone) == NotedFor(o.r, o.m.store, p, CrowdOf(calls, p.phone))
  {
    hide CrowdOf, Weight, Resume;
    assert o.m.calls - {t} == calls;
    OwnMove(o.m, o.r, t);
  }

  lemma AdvancedAmong(s: Store, calls: map<CallId, Proc>, t: CallId, p: Proc)
    requires t !in calls
    ensures var (s', going) := Resume(s, p);
            Advanced(Machine(s, calls[t := p]), t) == Machine(s', Standing(calls, t, going))
  {
    hide Resume;
    StandingAgain(calls, t, p, Resume(s, p).1);
  }

  function Standing(calls: map<CallId, Proc>, t: CallId, going: Going): map<CallId, Proc> {
    if going.On? then calls[t := going.proc] else calls
  }

  lemma StandingAgain(calls: map<CallId, Proc>, t: CallId, p: Proc, going: Going)
    requires t !in calls
    ensures Became(calls[t := p], t, going) == Standing(calls, t, going)
  {
    assert calls[t := p] - {t} == calls;
  }

  lemma MovedRecord(r: Record, s: Store, p: Proc, c: Crowd, peak: nat, asks: nat, quiet: bool)
    requires Within(r, peak, asks, quiet) && RoomFor(c, Resume(s, p).1, peak, asks, quiet)
    ensures Within(NotedFor(r, s, p, c), peak, asks, quiet) && Adds(r, NotedFor(r, s, p, c), p, Resume(s, p).1)
  {
    hide CrowdOf, Weight;
    SamePhone(s, p);
  }

  /** The code can be guessed, with `attempts` on record. */
  predicate Open(s: Store, phone: string, code: string, attempts: nat) {
    Get(s, CodeKey(phone)) == Some(Text(code)) && Attempts(s, phone) == attempts && AttemptsAreNumbers(s, phone)
  }

  lemma CountingOpens(s: Store, phone: string, code: string, attempts: nat)
    requires Open(s, phone, code, attempts)
    ensures var s1 := Incr(s, AttemptsKey(phone));
            && Open(s1, phone, code, attempts + 1)
            && Open(Expire(s1, AttemptsKey(phone), OTP_TTL), phone, code, attempts + 1)
  {
    KeysApart(phone, phone);
  }

  /** Room among the other calls for one more verification. */
  predicate RoomToGuess(c: Crowd, peak: nat, asks: nat, quiet: bool) {
    c.verifying < peak && c.requesting <= asks && (quiet ==> c.clearing == 0)
  }

  predicate Guesses(p: Proc) {
    p.Guessing? || p.Comparing? || p.Counting? || p.Extending? || p.Consuming? || p.Forgetting?
  }

  lemma RoomForGuess(s: Store, p: Proc, c: Crowd, peak: nat, asks: nat, quiet: bool)
    requires Guesses(p) && RoomToGuess(c, peak, asks, quiet)
    ensures Room(c, p, peak, asks, quiet) && RoomFor(c, Resume(s, p).1, peak, asks, quiet)
  {
  }

  /** A verification's command. */
  lemma GuessMoved(o: Seen, calls: map<CallId, Proc>, t: CallId, p: Proc, peak: nat, asks: nat, quiet: bool)
    returns (o': Seen)
    requires Reaches(o, p.phone) && t !in calls && o.m.calls == calls[t := p] && Within(o.r, peak, asks, quiet)
    requires Guesses(p) && RoomToGuess(CrowdOf(calls, p.phone), peak, asks, quiet)
    ensures Reaches(o', p.phone) && Within(o'.r, peak, asks, quiet) && Adds(o.r, o'.r, p, Resume(o.m.store, p).1)
    ensures o'.m == Machine(Resume(o.m.store, p).0, Standing(calls, t, Resume(o.m.store, p).1))
  {
    hide CrowdOf, Weight, Resume, Adds;
    RoomForGuess(o.m.store, p, CrowdOf(calls, p.phone), peak, asks, quiet);
    o' := Moved(o, calls, t, p, peak, asks, quiet);
  }

  /** A verification begins and passes the attempts check. */
  lemma PassCheck(o: Seen, t: CallId, phone: string, guess: string, peak: nat, asks: nat, quiet: bool)
    returns (o': Seen)
    requires Reaches(o, phone) && t !in o.m.calls && Within(o.r, peak, asks, quiet)
    requires Attempts(o.m.store, phone) < OTP_MAX_ATTEMPTS
    requires RoomToGuess(CrowdOf(o.m.calls, phone), peak, asks, quiet)
    ensures Reaches(o', phone) && Within(o'.r, peak, asks, quiet)
    ensures o'.m == Machine(o.m.store, o.m.calls[t := Comparing(phone, guess)])
    ensures o'.r.wrongSince == o.r.wrongSince && o'.r.rightSince == o.r.rightSince
  {
    hide CrowdOf, Weight;
    var p := Guessing(phone, guess);
    RoomForGuess(o.m.store, p, CrowdOf(o.m.calls, phone), peak, asks, quiet);
    var o1 := Begun(o, t, p, peak, asks, quiet);
    o' := GuessMoved(o1, o.m.calls, t, p, peak, asks, quiet);
  }

  lemma GuessWrong(o: Seen, calls: map<CallId, Proc>, t: CallId, phone: string, code: string, guess: string,
                   peak: nat, asks: nat, quiet: bool)
    returns (o': Seen)
    requires Reaches(o, phone) && t !in calls && o.m.calls == calls[t := Comparing(phone, guess)]
    requires Within(o.r, peak, asks, quiet) && RoomToGuess(CrowdOf(calls, phone), peak, asks, quiet)
    requires Get(o.m.store, CodeKey(phone)) == Some(Text(code)) && guess != code
    ensures Reaches(o', phone) && Within(o'.r, peak, asks, quiet)
    ensures o'.m == Machine(o.m.store, calls[t := Counting(phone)])
    ensures o'.r.wrongSince == o.r.wrongSince + 1
  {
    hide CrowdOf, Weight;
    o' := GuessMoved(o, calls, t, Comparing(phone, guess), peak, asks, quiet);
  }

  lemma CountGuess(o: Seen, calls: map<CallId, Proc>, t: CallId, phone: string, peak: nat, asks: nat, quiet: bool)
    returns (o': Seen)
    requires Reaches(o, phone) && t !in calls && o.m.calls == calls[t := Counting(phone)]
    requires Within(o.r, peak, asks, quiet) && RoomToGuess(CrowdOf(calls, phone), peak, asks, quiet)
    ensures Reaches(o', phone) && Within(o'.r, peak, asks, quiet)
    ensures o'.m == Machine(Expire(Incr(o.m.store, AttemptsKey(phone)), AttemptsKey(phone), OTP_TTL), calls)
    ensures o'.r.wrongSince == o.r.wrongSince
  {
    hide CrowdOf, Weight;
    var o1 := GuessMoved(o, calls, t, Counting(phone), peak, asks, quiet);
    o' := GuessMoved(o1, calls, t, Extending(phone), peak, asks, quiet);
  }

  /** A verification that has passed the attempts check guesses wrong and ends. */
  lemma FinishWrong(o: Seen, calls: map<CallId, Proc>, t: CallId, phone: string, code: string, guess: string,
                    attempts: nat, peak: nat, asks: nat, quiet: bool)
    returns (o': Seen)
    requires Reaches(o, phone) && t !in calls && o.m.calls == calls[t := Comparing(phone, guess)]
    requires Within(o.r, peak, asks, quiet) && RoomToGuess(CrowdOf(calls, phone), peak, asks, quiet)
    requires Open(o.m.store, phone, code, attempts) && guess != code
    ensures Reaches(o', phone) && o'.m.calls == calls && Within(o'.r, peak, asks, quiet)
    ensures Open(o'.m.store, phone, code, attempts + 1)
    ensures o'.r.wrongSince == o.r.wrongSince + 1
  {
    hide CrowdOf, Weight, Reaches;
    CountingOpens(o.m.store, phone, code, attempts);
    var o1 := GuessWrong(o, calls, t, phone, code, guess, peak, asks, quiet);
    o' := CountGuess(o1, calls, t, phone, peak, asks, quiet);
  }

  /** `n` wrong guesses one after the other. */
  lemma {:induction false} WrongGuesses(o: Seen, n: nat, t: CallId, phone: string, code: string, guess: string,
                                        attempts: nat, peak: nat, asks: nat, quiet: bool)
    returns (o': Seen)
    requires Reaches(o, phone) && t !in o.m.calls && Within(o.r, peak, asks, quiet)
    requires RoomToGuess(CrowdOf(o.m.calls, phone), peak, asks, quiet)
    requires Open(o.m.store, phone, code, attempts) && attempts + n <= OTP_MAX_ATTEMPTS && guess != code
    ensures Reaches(o', phone) && o'.m.calls == o.m.calls && Within(o'.r, peak, asks, quiet)
    ensures Open(o'.m.store, phone, code, attempts + n)
    ensures o'.r.wrongSince == o.r.wrongSince + n
  {
    hide CrowdOf, Weight, Reaches;
    if n == 0 {
      o' := o;
    } else {
      var o1 := WrongGuesses(o, n - 1, t, phone, code, guess, attempts, peak, asks, quiet);
      var o2 := PassCheck(o1, t, phone, guess, peak, asks, quiet);
      o' := FinishWrong(o2, o.m.calls, t, phone, code, guess, attempts + n - 1, peak, asks, quiet);
    }
  }

  // ---- Many calls standing still at the same command ----

  function Held(n: nat, p: Proc): (calls: map<CallId, Proc>)
    ensures forall t: CallId :: t in calls <==> t < n
  {
    if n == 0 then map[] else Held(n - 1, p)[n - 1 := p]
  }

  lemma AddedGuess(p: Proc, c: Crowd)
    requires Guesses(p)
    ensures var c' := Plus(Weight(p, p.phone), c);
            c'.verifying == c.verifying + 1 && c'.requesting == c.requesting && c'.clearing == c.clearing
  {
  }

  lemma {:induction false} HeldGuesses(n: nat, p: Proc)
    requires Guesses(p)
    ensures var c := CrowdOf(Held(n, p), p.phone); c.verifying == n && c.requesting == c.clearing == 0
  {
    hide CrowdOf, Weight, Plus;
    if n == 0 {
      NobodyInFlight(p.phone);
    } else {
      HeldGuesses(n - 1, p);
      BegunCrowd(Held(n - 1, p), n - 1, p, p.phone);
      AddedGuess(p, CrowdOf(Held(n - 1, p), p.phone));
    }
  }

  /** `n` verifications pass the attempts check and wait. */
  lemma {:induction false} HoldGuesses(o: Seen, n: nat, phone: string, guess: string, peak: nat, asks: nat, quiet: bool)
    returns (o': Seen)
    requires Reaches(o, phone) && o.m.calls == map[] && Within(o.r, peak, asks, quiet) && n <= peak
    requires Attempts(o.m.store, phone) < OTP_MAX_ATTEMPTS
    ensures Reaches(o', phone) && Within(o'.r, peak, asks, quiet)
    ensures o'.m == Machine(o.m.store, Held(n, Comparing(phone, guess)))
    ensures o'.r.wrongSince == o.r.wrongSince && o'.r.rightSince == o.r.rightSince
  {
    hide CrowdOf, Weight, Reaches;
    if n == 0 {
      o' := o;
    } else {
      var o1 := HoldGuesses(o, n - 1, phone, guess, peak, asks, quiet);
      HeldGuesses(n - 1, Comparing(phone, guess));
      o' := PassCheck(o1, n - 1, phone, guess, peak, asks, quiet);
    }
  }

  lemma ReleaseGuess(o: Seen, n: nat, phone: string, code: string, guess: string, attempts: nat,
                     peak: nat, asks: nat, quiet: bool)
    returns (o': Seen)
    requires 0 < n <= peak && Reaches(o, phone) && o.m.calls == Held(n, Comparing(phone, guess))
    requires Within(o.r, peak, asks, quiet) && Open(o.m.store, phone, code, attempts) && guess != code
    ensures Reaches(o', phone) && o'.m.calls == Held(n - 1, Comparing(phone, guess))
    ensures Within(o'.r, peak, asks, quiet) && Open(o'.m.store, phone, code, attempts + 1)
    ensures o'.r.wrongSince == o.r.wrongSince + 1
  {
    hide CrowdOf, Weight, Reaches;
    HeldGuesses(n - 1, Comparing(phone, guess));
    o' := FinishWrong(o, Held(n - 1, Comparing(phone, guess)), n - 1, phone, code, guess, attempts, peak, asks, quiet);
  }

  /** They all guess wrong. */
  lemma {:induction false} ReleaseGuesses(o: Seen, n: nat, phone: string, code: string, guess: string, attempts: nat,
                                          peak: nat, asks: nat, quiet: bool)
    returns (o': Seen)
    requires Reaches(o, phone) && o.m.calls == Held(n, Comparing(phone, guess)) && Within(o.r, peak, asks, quiet)
    requires Open(o.m.store, phone, code, attempts) && guess != code && n <= peak
    ensures Reaches(o', phone) && Within(o'.r, peak, asks, quiet) && o'.r.wrongSince == o.r.wrongSince + n
    decreases n
  {
    hide CrowdOf, Weight, Reaches;
    if n == 0 {
      o' := o;
    } else {
      var o1 := ReleaseGuess(o, n, phone, code, guess, attempts, peak, asks, quiet);
      o' := ReleaseGuesses(o1, n - 1, phone, code, guess, attempts + 1, peak, asks, quiet);
    }
  }

  // ---- Requests ----

  predicate RoomToAsk(c: Crowd, peak: nat, asks: nat, quiet: bool) {
    c.requesting < asks && c.verifying <= peak && (quiet ==> c == NOBODY)
  }

  predicate Asks(p: Proc) {
    p.Asking? || p.Texting? || p.StoringCode? || p.StoringCooldown? || p.ClearingAttempts?
  }

  lemma RoomForOne(p: Proc, c: Crowd, peak: nat, asks: nat, quiet: bool)
    requires Asks(p) && RoomToAsk(c, peak, asks, quiet)
    ensures Room(c, p, peak, asks, quiet)
  {
    hide Weight, Plus;
    AddedRequest(p, c);
  }

  lemma AddedRequest(p: Proc, c: Crowd)
    requires Asks(p)
    ensures var c' := Plus(Weight(p, p.phone), c); c'.requesting == c.requesting + 1 && c'.verifying == c.verifying
  {
  }

  lemma RequestGoesOn(s: Store, p: Proc)
    requires Asks(p)
    ensures var going := Resume(s, p).1; going.On? ==> Asks(going.proc)
  {
  }

  lemma RoomForRequest(s: Store, p: Proc, c: Crowd, peak: nat, asks: nat, quiet: bool)
    requires Asks(p) && RoomToAsk(c, peak, asks, quiet)
    ensures Room(c, p, peak, asks, quiet) && RoomFor(c, Resume(s, p).1, peak, asks, quiet)
  {
    RoomForOne(p, c, peak, asks, quiet);
    RequestGoesOn(s, p);
    if Resume(s, p).1.On? { RoomForOne(Resume(s, p).1.proc, c, peak, asks, quiet); }
  }

  lemma RequestMoved(o: Seen, calls: map<CallId, Proc>, t: CallId, p: Proc, peak: nat, asks: nat, quiet: bool)
    returns (o': Seen)
    requires Reaches(o, p.phone) && t !in calls && o.m.calls == calls[t := p] && Within(o.r, peak, asks, quiet)
    requires Asks(p) && RoomToAsk(CrowdOf(calls, p.phone), peak, asks, quiet)
    ensures Reaches(o', p.phone) && Within(o'.r, peak, asks, quiet) && Adds(o.r, o'.r, p, Resume(o.m.store, p).1)
    ensures o'.m == Machine(Resume(o.m.store, p).0, Standing(calls, t, Resume(o.m.store, p).1))
  {
    hide CrowdOf, Weight, Resume, Adds;
    RoomForRequest(o.m.store, p, CrowdOf(calls, p.phone), peak, asks, quiet);
    o' := Moved(o, calls, t, p, peak, asks, quiet);
  }

  /** A request begins, passes the cooldown check and sends its SMS. */
  lemma SendCode(o: Seen, t: CallId, phone: string, code: string, peak: nat, asks: nat, quiet: bool)
    returns (o': Seen)
    requires Reaches(o, phone) && t !in o.m.calls && Within(o.r, peak, asks, quiet)
    requires !Live(o.m.store, CooldownKey(phone)) && RoomToAsk(CrowdOf(o.m.calls, phone), peak, asks, quiet)
    ensures Reaches(o', phone) && Within(o'.r, peak, asks, quiet) && o'.r.issued == o.r.issued
    ensures o'.m == Machine(o.m.store, o.m.calls[t := StoringCode(phone, code)])
  {
    hide CrowdOf, Weight;
    var p := Asking(phone, code, true);
    RoomForRequest(o.m.store, p, CrowdOf(o.m.calls, phone), peak, asks, quiet);
    var o1 := Begun(o, t, p, peak, asks, quiet);
    var o2 := RequestMoved(o1, o.m.calls, t, p, peak, asks, quiet);
    o' := RequestMoved(o2, o.m.calls, t, Texting(phone, code, true), peak, asks, quiet);
  }

  lemma StoreCode(o: Seen, calls: map<CallId, Proc>, t: CallId, phone: string, code: string,
                  peak: nat, asks: nat, quiet: bool)
    returns (o': Seen)
    requires Reaches(o, phone) && t !in calls && o.m.calls == calls[t := StoringCode(phone, code)]
    requires Within(o.r, peak, asks, quiet) && RoomToAsk(CrowdOf(calls, phone), peak, asks, quiet)
    ensures Reaches(o', phone) && Within(o'.r, peak, asks, quiet)
    ensures o'.m == Machine(SetEx(o.m.store, CodeKey(phone), Text(code), OTP_TTL), calls[t := StoringCooldown(phone)])
    ensures o'.r.issued == o.r.issued + 1 && o'.r.wrongSince == o'.r.rightSince == 0
  {
    hide CrowdOf, Weight;
    o' := RequestMoved(o, calls, t, StoringCode(phone, code), peak, asks, quiet);
  }

  lemma EndRequest(o: Seen, calls: map<CallId, Proc>, t: CallId, phone: string, peak: nat, asks: nat, quiet: bool)
    returns (o': Seen)
    requires Reaches(o, phone) && t !in calls && o.m.calls == calls[t := StoringCooldown(phone)]
    requires Within(o.r, peak, asks, quiet) && RoomToAsk(CrowdOf(calls, phone), peak, asks, quiet)
    ensures Reaches(o', phone) && Within(o'.r, peak, asks, quiet)
    ensures o'.m.store == Delete(SetEx(o.m.store, CooldownKey(phone), Text("1"), RESEND_COOLDOWN), AttemptsKey(phone))
    ensures o'.m.calls == calls
    ensures o'.r.issued == o.r.issued && o'.r.wrongSince == o.r.wrongSince && o'.r.rightSince == o.r.rightSince
  {
    hide CrowdOf, Weight;
    var o1 := RequestMoved(o, calls, t, StoringCooldown(phone), peak, asks, quiet);
    o' := RequestMoved(o1, calls, t, ClearingAttempts(phone), peak, asks, quiet);
  }

  /** One request alone, from nothing: its code can be guessed. */
  lemma Issue(phone: string, code: string, asks: nat) returns (o: Seen)
    requires asks > 0
    ensures Reaches(o, phone) && Within(o.r, 0, asks, true) && o.m.calls == map[]
    ensures Open(o.m.store, phone, code, 0) && o.r.wrongSince == o.r.rightSince == 0
  {
    hide CrowdOf, Weight, Reaches;
    ReachesIdle(phone);
    NobodyInFlight(phone);
    var o1 := SendCode(Seen(IDLE, NOTHING_YET), 0, phone, code, 0, asks, true);
    var o2 := StoreCode(o1, map[], 0, phone, code, 0, asks, true);
    o := EndRequest(o2, map[], 0, phone, 0, asks, true);
    KeysApart(phone, phone);
  }

  // ---- The bounds are reached ----

  /** With up to `k` verifications at once a code meets `4 + k` wrong guesses: all but one pass the attempts check and
      wait, five more guess wrong one after the other, and then those that wait. */
  lemma MostWrongGuesses(k: nat, phone: string, code: string, guess: string) returns (o: Seen)
    requires k > 0 && guess != code
    ensures Reaches(o, phone) && Within(o.r, k, 1, true) && o.r.wrongSince == 4 + k
  {
    hide CrowdOf, Weight, Reaches;
    var o1 := Issue(phone, code, 1);
    var o2 := HoldGuesses(o1, k - 1, phone, guess, k, 1, true);
    HeldGuesses(k - 1, Comparing(phone, guess));
    var o3 := WrongGuesses(o2, 5, k - 1, phone, code, guess, 0, k, 1, true);
    o := ReleaseGuesses(o3, k - 1, phone, code, guess, 5, k, 1, true);
  }

  /** And it verifies `k` times: each right guess finds the code before any has deleted it. */
  lemma {:induction false} MostRightGuesses(n: nat, k: nat, phone: string, code: string) returns (o: Seen)
    requires n <= k
    ensures Reaches(o, phone) && Within(o.r, k, 1, true) && o.r.rightSince == n
    ensures o.m.calls == Held(n, Consuming(phone)) && Open(o.m.store, phone, code, 0)
  {
    hide CrowdOf, Weight, Reaches;
    if n == 0 {
      o := Issue(phone, code, 1);
    } else {
      var o1 := MostRightGuesses(n - 1, k, phone, code);
      HeldGuesses(n - 1, Consuming(phone));
      var calls := Held(n - 1, Consuming(phone));
      var o2 := PassCheck(o1, n - 1, phone, code, k, 1, true);
      o := GuessMoved(o2, calls, n - 1, Comparing(phone, code), k, 1, true);
    }
  }

  /** `n` requests pass the cooldown check together. */
  lemma {:induction false} HoldRequests(o: Seen, n: nat, phone: string, code: string, asks: nat) returns (o': Seen)
    requires Reaches(o, phone) && o.m.calls == map[] && Within(o.r, 0, asks, false) && n <= asks
    requires !Live(o.m.store, CooldownKey(phone))
    ensures Reaches(o', phone) && Within(o'.r, 0, asks, false) && o'.r.issued == o.r.issued
    ensures o'.m == Machine(o.m.store, Held(n, StoringCode(phone, code)))
  {
    hide CrowdOf, Weight, Reaches;
    if n == 0 {
      o' := o;
    } else {
      var o1 := HoldRequests(o, n - 1, phone, code, asks);
      HeldRequests(n - 1, StoringCode(phone, code));
      o' := SendCode(o1, n - 1, phone, code, 0, asks, false);
    }
  }

  lemma BegunRequest(calls: map<CallId, Proc>, t: CallId, p: Proc, more: map<CallId, Proc>)
    requires t !in calls && Asks(p) && more == calls[t := p]
    ensures CrowdOf(more, p.phone).requesting == CrowdOf(calls, p.phone).requesting + 1
    ensures CrowdOf(more, p.phone).verifying == CrowdOf(calls, p.phone).verifying
  {
    hide CrowdOf, Weight, Plus;
    BegunCrowd(calls, t, p, p.phone);
    AddedRequest(p, CrowdOf(calls, p.phone));
  }

  lemma {:induction false} HeldRequests(n: nat, p: Proc)
    requires Asks(p)
    ensures CrowdOf(Held(n, p), p.phone).requesting == n && CrowdOf(Held(n, p), p.phone).verifying == 0
  {
    hide CrowdOf, Weight;
    if n == 0 {
      NobodyInFlight(p.phone);
    } else {
      HeldRequests(n - 1, p);
      BegunRequest(Held(n - 1, p), n - 1, p, Held(n, p));
    }
  }

  /** Nothing that happens now outlasts the cooldown. */
  predicate CoolsBy(s: Store, phone: string, time: nat) {
    CooldownKey(phone) in s.keys ==>
      s.keys[CooldownKey(phone)].expires.Some? && s.keys[CooldownKey(phone)].expires.value <= time
  }

  lemma ReleaseRequest(o: Seen, n: nat, p: Proc, asks: nat) returns (o': Seen)
    requires p.StoringCode? && 0 < n <= asks && Reaches(o, p.phone) && o.m.calls == Held(n, p)
    requires Within(o.r, 0, asks, false)
    ensures Reaches(o', p.phone) && o'.m.calls == Held(n - 1, p) && Within(o'.r, 0, asks, false)
    ensures o'.m.store.now == o.m.store.now && o'.r.issued == o.r.issued + 1
    ensures CoolsBy(o'.m.store, p.phone, o.m.store.now + RESEND_COOLDOWN)
  {
    hide CrowdOf, Weight, Reaches;
    var calls := Held(n - 1, p);
    HeldRequests(n - 1, p);
    var o1 := StoreCode(o, calls, n - 1, p.phone, p.code, 0, asks, false);
    o' := EndRequest(o1, calls, n - 1, p.phone, 0, asks, false);
    CooldownStored(o1.m.store, p.phone);
  }

  lemma CooldownStored(s: Store, phone: string)
    ensures CoolsBy(Delete(SetEx(s, CooldownKey(phone), Text("1"), RESEND_COOLDOWN), AttemptsKey(phone)), phone,
                    s.now + RESEND_COOLDOWN)
  {
    KeysApart(phone, phone);
  }

  /** They all store their codes. */
  lemma {:induction false} ReleaseRequests(o: Seen, n: nat, p: Proc, asks: nat) returns (o': Seen)
    requires p.StoringCode? && Reaches(o, p.phone) && o.m.calls == Held(n, p) && Within(o.r, 0, asks, false)
    requires n <= asks && CoolsBy(o.m.store, p.phone, o.m.store.now + RESEND_COOLDOWN)
    ensures Reaches(o', p.phone) && Within(o'.r, 0, asks, false) && o'.r.issued == o.r.issued + n
    ensures o'.m.calls == map[] && o'.m.store.now == o.m.store.now
    ensures CoolsBy(o'.m.store, p.phone, o.m.store.now + RESEND_COOLDOWN)
    decreases n
  {
    hide CrowdOf, Weight, Reaches;
    if n == 0 {
      o' := o;
    } else {
      var o1 := ReleaseRequest(o, n, p, asks);
      o' := ReleaseRequests(o1, n - 1, p, asks);
    }
  }

  lemma Waited(o: Seen, elapsed: nat, phone: string, peak: nat, asks: nat) returns (o': Seen)
    requires Reaches(o, phone) && o.m.calls == map[] && Within(o.r, peak, asks, false)
    ensures Reaches(o', phone) && Within(o'.r, peak, asks, false) && o'.r.issued == o.r.issued
    ensures o'.m == o.m.(store := o.m.store.(now := o.m.store.now + elapsed))
  {
    o' := SeenAfter(o, Wait(elapsed), phone);
    ReachesNext(o, Wait(elapsed), phone);
  }

  /** Every cooldown period `asks` requests store their codes together. */
  lemma {:induction false} MostCodes(rounds: nat, asks: nat, phone: string, code: string) returns (o: Seen)
    ensures Reaches(o, phone) && Within(o.r, 0, asks, false) && o.m.calls == map[]
    ensures o.r.issued == asks * rounds && o.m.store.now == RESEND_COOLDOWN * rounds
    ensures CoolsBy(o.m.store, phone, o.m.store.now)
  {
    hide CrowdOf, Weight, Reaches;
    if rounds == 0 {
      o := Seen(IDLE, NOTHING_YET);
      ReachesIdle(phone);
    } else {
      var o1 := MostCodes(rounds - 1, asks, phone, code);
      var o2 := HoldRequests(o1, asks, phone, code, asks);
      var o3 := ReleaseRequests(o2, asks, StoringCode(phone, code), asks);
      o := Waited(o3, RESEND_COOLDOWN, phone, 0, asks);
      assert asks * rounds == asks * (rounds - 1) + asks;
    }
  }

  // ---- Exact bounds ----

  /** With at most `k` verifications in flight at once since a code was stored, and requests alone from storing their
      code to their end: the code meets at most `n` wrong guesses on every such schedule if and only if `n` is at least
      `4 + k`. */
  lemma WrongGuessesExactly(k: nat, n: nat, phone: string)
    requires k > 0
    ensures (forall moves :: Watch(moves, phone).r.quiet && Watch(moves, phone).r.peak <= k ==>
               Watch(moves, phone).r.wrongSince <= n)
       <==> 4 + k <= n
  {
    hide CrowdOf, Watch;
    var o := MostWrongGuesses(k, phone, "", "0");
    var most :| Watch(most, phone) == o;
    forall moves | Watch(moves, phone).r.quiet && Watch(moves, phone).r.peak <= k
      ensures Watch(moves, phone).r.wrongSince <= 4 + k
    {
      QuietGuesses(moves, phone);
    }
    if n < 4 + k { assert !(Watch(most, phone).r.wrongSince <= n); }
  }

  /** And it verifies at most `n` times if and only if `n` is at least `k`, whatever the requests do. */
  lemma RightGuessesExactly(k: nat, n: nat, phone: string)
    ensures (forall moves :: Watch(moves, phone).r.peak <= k ==> Watch(moves, phone).r.rightSince <= n) <==> k <= n
  {
    hide CrowdOf, Watch;
    var o := MostRightGuesses(k, k, phone, "");
    var most :| Watch(most, phone) == o;
    forall moves | Watch(moves, phone).r.peak <= k ensures Watch(moves, phone).r.rightSince <= k {
      OverlappingGuesses(moves, phone);
    }
    if n < k { assert !(Watch(most, phone).r.rightSince <= n); }
  }

  /** Five wrong guesses a code and one success, on every schedule with at most `k` verifications at once and
      undisturbed requests, if and only if there is never more than one. */
  lemma FiveAndOnceIffOneAtATime(k: nat, phone: string)
    ensures (forall moves :: Watch(moves, phone).r.quiet && Watch(moves, phone).r.peak <= k ==>
               Watch(moves, phone).r.wrongSince <= 5 && Watch(moves, phone).r.rightSince <= 1)
       <==> k <= 1
  {
    hide CrowdOf, Watch;
    if k > 1 {
      var o := MostWrongGuesses(k, phone, "", "0");
      var most :| Watch(most, phone) == o;
      assert !(Watch(most, phone).r.wrongSince <= 5);
    } else {
      forall moves | Watch(moves, phone).r.quiet && Watch(moves, phone).r.peak <= k
        ensures Watch(moves, phone).r.wrongSince <= 5 && Watch(moves, phone).r.rightSince <= 1
      {
        QuietGuesses(moves, phone);
        OverlappingGuesses(moves, phone);
      }
    }
  }

  /** With at most `asks` requests of a phone in flight at once, at most `n` codes are stored by time `time` on every
      schedule if and only if `n` is at least `asks` for each cooldown period begun. */
  lemma CodesExactly(asks: nat, time: nat, n: nat, phone: string)
    ensures (forall moves :: Watch(moves, phone).r.asks <= asks && Watch(moves, phone).m.store.now <= time ==>
               Watch(moves, phone).r.issued <= n)
       <==> asks * (time / 60_000 + 1) <= n
  {
    hide CrowdOf, Watch;
    var periods := time / RESEND_COOLDOWN;
    var o := MostCodesBy(periods, asks, phone);
    var most :| Watch(most, phone) == o;
    assert Watch(most, phone).r.asks <= asks && Watch(most, phone).m.store.now <= time;
    forall moves | Watch(moves, phone).r.asks <= asks && Watch(moves, phone).m.store.now <= time
      ensures Watch(moves, phone).r.issued <= asks * (periods + 1)
    {
      CodesAtMost(moves, asks, time, phone);
    }
    if n < asks * (periods + 1) { assert !(Watch(most, phone).r.issued <= n); }
  }

  lemma CodesAtMost(moves: seq<Move>, asks: nat, time: nat, phone: string)
    requires Watch(moves, phone).r.asks <= asks && Watch(moves, phone).m.store.now <= time
    ensures Watch(moves, phone).r.issued <= asks * (time / RESEND_COOLDOWN + 1)
  {
    hide CrowdOf, Watch;
    OverlappingIssues(moves, phone);
    var own, now := Watch(moves, phone).r.asks, Watch(moves, phone).m.store.now;
    ProductGrows(own, asks, now / RESEND_COOLDOWN + 1);
    FactorGrows(asks, now / RESEND_COOLDOWN + 1, time / RESEND_COOLDOWN + 1);
  }

  lemma MostCodesBy(periods: nat, asks: nat, phone: string) returns (o: Seen)
    ensures Reaches(o, phone) && o.r.asks <= asks
    ensures o.r.issued == asks * (periods + 1) && o.m.store.now == RESEND_COOLDOWN * periods
  {
    hide CrowdOf, Weight, Reaches;
    var o1 := MostCodes(periods, asks, phone, "");
    var o2 := HoldRequests(o1, asks, phone, "", asks);
    o := ReleaseRequests(o2, asks, StoringCode(phone, ""), asks);
    assert asks * (periods + 1) == asks * periods + asks;
  }

  lemma OneRequest(phone: string)
    ensures var c := CrowdOf(map[0 := StoringCooldown(phone)], phone); c.verifying == 0 && c.requesting == 1
    ensures CrowdOf(map[], phone) == NOBODY
  {
    BegunRequest(map[], 0, StoringCooldown(phone), map[0 := StoringCooldown(phone)]);
  }

  lemma HalfIssued(phone: string, code: string) returns (o: Seen)
    ensures Reaches(o, phone) && Within(o.r, 1, 1, false) && o.m.calls == map[0 := StoringCooldown(phone)]
    ensures Open(o.m.store, phone, code, 0) && o.r.wrongSince == 0
  {
    hide CrowdOf, Weight, Reaches;
    ReachesIdle(phone);
    NobodyInFlight(phone);
    var o1 := SendCode(Seen(IDLE, NOTHING_YET), 0, phone, code, 0, 1, false);
    o := StoreCode(o1, map[], 0, phone, code, 0, 1, false);
    KeysApart(phone, phone);
  }

  lemma ClearedOpens(s: Store, phone: string, code: string, attempts: nat)
    requires Open(s, phone, code, attempts)
    ensures Open(Delete(SetEx(s, CooldownKey(phone), Text("1"), RESEND_COOLDOWN), AttemptsKey(phone)), phone, code, 0)
  {
    KeysApart(phone, phone);
  }

  /** A request that has stored its code and not yet cleared the attempts: the guesses made meanwhile are forgotten, so
      ten wrong ones meet the code, with one verification at a time. */
  lemma ClearingForgetsGuesses(phone: string, code: string, guess: string) returns (o: Seen)
    requires guess != code
    ensures Reaches(o, phone) && Within(o.r, 1, 1, false) && o.r.wrongSince == 10
  {
    hide CrowdOf, Weight, Reaches;
    OneRequest(phone);
    var o1 := HalfIssued(phone, code);
    var o2 := WrongGuesses(o1, 5, 1, phone, code, guess, 0, 1, 1, false);
    ClearedOpens(o2.m.store, phone, code, 5);
    var o3 := EndRequest(o2, map[], 0, phone, 1, 1, false);
    o := WrongGuesses(o3, 5, 1, phone, code, guess, 0, 1, 1, false);
  }
}
