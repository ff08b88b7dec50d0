/** How many guesses and codes a phone gets when its calls overlap in any way. */
module OtpOverlap {
  import opened OtpModel
  import opened OtpLaws
  import opened OtpMachine

  // ---- The calls in flight for one phone ----

  /** How many verifications have passed the attempts check, guessed wrong and are not counted yet, guessed right and
      have not deleted the code, or have; how many requests have passed the cooldown check and not stored their code,
      stored it but not the cooldown, or stored it and not cleared the attempts; and how many there are of each kind. */
  datatype Crowd = Crowd(comparing: nat, counting: nat, consuming: nat, forgetting: nat,
                         past: nat, storing: nat, clearing: nat, verifying: nat, requesting: nat)

  const NOBODY := Crowd(0, 0, 0, 0, 0, 0, 0, 0, 0)

  function One(b: bool): nat { if b then 1 else 0 }

  function Weight(p: Proc, phone: string): Crowd {
    if p.phone != phone then NOBODY
    else
      var request := p.Asking? || p.Texting? || p.StoringCode? || p.StoringCooldown? || p.ClearingAttempts?;
      Crowd(One(p.Comparing?), One(p.Counting?), One(p.Consuming?), One(p.Forgetting?),
            One(p.Texting? || p.StoringCode?), One(p.StoringCooldown?), One(p.StoringCooldown? || p.ClearingAttempts?),
            One(!request), One(request))
  }

  function Plus(a: Crowd, b: Crowd): Crowd {
    Crowd(a.comparing + b.comparing, a.counting + b.counting, a.consuming + b.consuming, a.forgetting + b.forgetting,
          a.past + b.past, a.storing + b.storing, a.clearing + b.clearing,
          a.verifying + b.verifying, a.requesting + b.requesting)
  }

  ghost function CrowdOf(calls: map<CallId, Proc>, phone: string): Crowd
    decreases |calls|
  {
    if calls == map[] then NOBODY
    else
      var t :| t in calls;
      Plus(Weight(calls[t], phone), CrowdOf(calls - {t}, phone))
  }

  lemma NobodyInFlight(phone: string)
    ensures CrowdOf(map[], phone) == NOBODY
  {
  }

  lemma PlusSwaps(a: Crowd, b: Crowd, c: Crowd)
    ensures Plus(a, Plus(b, c)) == Plus(b, Plus(a, c))
  {
  }

  lemma {:induction false} CrowdSplit(calls: map<CallId, Proc>, phone: string, t: CallId)
    requires t in calls
    ensures CrowdOf(calls, phone) == Plus(Weight(calls[t], phone), CrowdOf(calls - {t}, phone))
    decreases |calls|
  {
    hide Weight;
    var s :| s in calls && CrowdOf(calls, phone) == Plus(Weight(calls[s], phone), CrowdOf(calls - {s}, phone));
    if s != t {
      CrowdSplit(calls - {s}, phone, t);
      CrowdSplit(calls - {t}, phone, s);
      assert calls - {s} - {t} == calls - {t} - {s};
      PlusSwaps(Weight(calls[s], phone), Weight(calls[t], phone), CrowdOf(calls - {s} - {t}, phone));
    }
  }

  predicate Fits(c: Crowd) {
    && c.comparing + c.counting + c.consuming + c.forgetting <= c.verifying
    && c.past + c.clearing <= c.requesting && c.storing <= c.clearing
  }

  lemma WeightFits(p: Proc, phone: string)
    ensures Fits(Weight(p, phone))
  {
  }

  lemma FitTogether(a: Crowd, b: Crowd)
    requires Fits(a) && Fits(b)
    ensures Fits(Plus(a, b))
  {
  }

  lemma {:induction false} CrowdFits(calls: map<CallId, Proc>, phone: string)
    ensures Fits(CrowdOf(calls, phone))
    decreases |calls|
  {
    hide Weight;
    if calls != map[] {
      var t :| t in calls && CrowdOf(calls, phone) == Plus(Weight(calls[t], phone), CrowdOf(calls - {t}, phone));
      CrowdFits(calls - {t}, phone);
      WeightFits(calls[t], phone);
      FitTogether(Weight(calls[t], phone), CrowdOf(calls - {t}, phone));
    }
  }

  // ---- What is observed ----

  /** Of a phone: the codes stored; the wrong guesses compared with any code; and since the last code was stored the
      wrong and the right guesses compared with it, the wrong ones since the attempts on record were last lost, how
      often such guesses were lost, and the most verifications in flight at once. Then the most verifications and
      requests ever in flight at once, the cooldown rounds and when the last one began, and whether every request so
      far was alone with its phone from storing its code to its end. */
  datatype Record = Record(issued: nat, wrong: nat, wrongSince: nat, rightSince: nat, window: nat, losses: nat,
                           peak: nat, top: nat, asks: nat, rounds: nat, roundStart: nat, quiet: bool)

  const NOTHING_YET := Record(0, 0, 0, 0, 0, 0, 0, 0, 0, 0, 0, true)

  function Most(a: nat, b: nat): nat { if a < b then b else a }

  predicate Quiet(c: Crowd) {
    c.clearing > 0 ==> c.verifying + c.requesting == 1
  }

  /** The attempts on record disappear while there is a code to guess. */
  predicate Lost(s: Store, s': Store, phone: string) {
    Live(s, AttemptsKey(phone)) && !Live(s', AttemptsKey(phone)) && Live(s', CodeKey(phone))
  }

  function Forget(r: Record, s: Store, s': Store, phone: string): Record {
    if Lost(s, s', phone) && r.window > 0 then r.(window := 0, losses := r.losses + 1) else r
  }

  /** What the command of `p` adds, and `c` is the crowd after it. */
  function Observe(r: Record, s: Store, p: Proc, going: Going, c: Crowd): Record {
    if p.StoringCode? then
      r.(issued := r.issued + 1, wrongSince := 0, rightSince := 0, window := 0, losses := 0, peak := c.verifying)
    else if p.StoringCooldown? && (r.rounds == 0 || r.roundStart + RESEND_COOLDOWN <= s.now) then
      r.(rounds := r.rounds + 1, roundStart := s.now)
    else if p.Comparing? && going.On? && going.proc.Counting? then
      r.(wrong := r.wrong + 1, wrongSince := r.wrongSince + 1, window := r.window + 1)
    else if p.Comparing? && going.On? then r.(rightSince := r.rightSince + 1)
    else r
  }

  function Measure(r: Record, c: Crowd): Record {
    r.(peak := Most(r.peak, c.verifying), top := Most(r.top, c.verifying), asks := Most(r.asks, c.requesting),
       quiet := r.quiet && Quiet(c))
  }

  ghost function Noted(r: Record, m: Machine, move: Move, phone: string): Record {
    var m' := After(m, move);
    var c := CrowdOf(m'.calls, phone);
    var r1 := if move.Advance? && move.t in m.calls && m.calls[move.t].phone == phone
              then Observe(r, m.store, m.calls[move.t], Resume(m.store, m.calls[move.t]).1, c) else r;
    Measure(Forget(r1, m.store, m'.store, phone), c)
  }

  /** A schedule from nothing, and what it shows of a phone. */
  datatype Seen = Seen(m: Machine, r: Record)

  ghost function SeenAfter(o: Seen, move: Move, phone: string): Seen {
    Seen(After(o.m, move), Noted(o.r, o.m, move, phone))
  }

  ghost function Watch(moves: seq<Move>, phone: string): Seen
    decreases |moves|
  {
    if moves == [] then Seen(IDLE, NOTHING_YET)
    else SeenAfter(Watch(moves[..|moves| - 1], phone), moves[|moves| - 1], phone)
  }

  // ---- The invariant ----

  predicate KeysOk(s: Store, phone: string) {
    && AttemptsAreNumbers(s, phone)
    && (CodeKey(phone) in s.keys ==>
          s.keys[CodeKey(phone)].expires.Some? && s.keys[CodeKey(phone)].expires.value <= s.now + OTP_TTL)
  }

  /** The attempts on record expire before the code. */
  predicate Outlived(s: Store, phone: string) {
    && Live(s, AttemptsKey(phone)) && Live(s, CodeKey(phone))
    && s.keys[AttemptsKey(phone)].expires.Some? && s.keys[CodeKey(phone)].expires.Some?
    && s.keys[AttemptsKey(phone)].expires.value < s.keys[CodeKey(phone)].expires.value
  }

  /** While a code can be guessed: the wrong guesses at it are on record or about to be; those and the guesses let
      through are at most four and one for each verification in flight; every right guess is still about to delete the
      code; and there is a bound on how often the record can still be lost. */
  predicate Guessable(s: Store, c: Crowd, r: Record, phone: string) {
    Live(s, CodeKey(phone)) ==>
      && r.window <= Attempts(s, phone) + c.counting
      && r.window + c.comparing <= 4 + r.peak
      && r.rightSince <= c.consuming
      && r.losses + c.clearing + c.forgetting + One(Outlived(s, phone)) <= r.asks + r.peak + 1
  }

  predicate Bounded(c: Crowd, r: Record) {
    && c.verifying <= r.peak <= r.top && c.requesting <= r.asks
    && r.window <= 4 + r.peak && r.rightSince <= r.peak
    && r.wrongSince <= (4 + r.peak) * r.losses + r.window
    && r.losses <= r.asks + r.peak + 1
  }

  /** Where every request was alone from storing its code to its end, no guess at a code was lost. */
  predicate QuietOk(s: Store, c: Crowd, r: Record, phone: string) {
    r.quiet ==>
      && Quiet(c) && r.losses == 0
      && (r.issued == 0 ==> !Live(s, CodeKey(phone)))
      && (Live(s, CodeKey(phone)) ==>
            if c.clearing > 0 then r.window == 0 else c.forgetting == 0 && !Outlived(s, phone))
  }

  /** Then each code before the last has had at most four wrong guesses and one for each verification in flight. */
  predicate TotalOk(r: Record) {
    r.quiet ==>
      && r.losses == 0
      && (r.issued == 0 ==> r.wrong == 0)
      && (r.issued > 0 ==> r.wrong <= (4 + r.top) * (r.issued - 1) + r.wrongSince)
  }

  predicate GuessesOk(s: Store, c: Crowd, r: Record, phone: string) {
    KeysOk(s, phone) && Guessable(s, c, r, phone) && Bounded(c, r)
  }

  // ---- What a record keeps when nothing but the crowd or the time changes ----

  lemma ProductGrows(a: nat, b: nat, n: nat)
    requires a <= b
    ensures a * n <= b * n
  {
  }

  lemma MeasureKeeps(s: Store, c: Crowd, r: Record, phone: string)
    requires KeysOk(s, phone) && Guessable(s, c, r, phone)
    requires r.window <= 4 + r.peak && r.rightSince <= r.peak <= r.top
    requires r.wrongSince <= (4 + r.peak) * r.losses + r.window && r.losses <= r.asks + r.peak + 1
    ensures GuessesOk(s, c, Measure(r, c), phone)
  {
    ProductGrows(4 + r.peak, 4 + Measure(r, c).peak, r.losses);
  }

  /** The guesses since the last loss are forgotten. */
  lemma ForgetKeeps(r: Record, s: Store, s': Store, phone: string)
    requires r.window <= 4 + r.peak && r.wrongSince <= (4 + r.peak) * r.losses + r.window
    ensures var r' := Forget(r, s, s', phone); r'.wrongSince <= (4 + r'.peak) * r'.losses + r'.window
  {
    assert (4 + r.peak) * (r.losses + 1) == (4 + r.peak) * r.losses + (4 + r.peak);
  }

  // ---- One command ----

  function Left(going: Going, rest: Crowd, phone: string): Crowd {
    if going.On? then Plus(Weight(going.proc, phone), rest) else rest
  }

  function NotedFor(r: Record, s: Store, p: Proc, rest: Crowd): Record {
    var (s', going) := Resume(s, p);
    var c := Left(going, rest, p.phone);
    Measure(Forget(Observe(r, s, p, going, c), s, s', p.phone), c)
  }

  ghost predicate CommandOk(s: Store, p: Proc, rest: Crowd, r: Record) {
    var (s', going) := Resume(s, p);
    GuessesOk(s', Left(going, rest, p.phone), NotedFor(r, s, p, rest), p.phone)
  }

  /** A command starts no call. */
  lemma NoMoreCalls(s: Store, p: Proc, rest: Crowd, r: Record)
    requires var c := Plus(Weight(p, p.phone), rest); c.verifying <= r.peak <= r.top && c.requesting <= r.asks
    ensures var c := Left(Resume(s, p).1, rest, p.phone);
            Measure(r, c) == r.(quiet := r.quiet && Quiet(c))
  {
  }

  lemma AskingKeeps(s: Store, p: Proc, rest: Crowd, r: Record)
    requires GuessesOk(s, Plus(Weight(p, p.phone), rest), r, p.phone) && Fits(rest)
    requires p.Asking?
    ensures CommandOk(s, p, rest, r)
  {
    hide Attempts, Live;
    NoMoreCalls(s, p, rest, r);
  }

  lemma TextingKeeps(s: Store, p: Proc, rest: Crowd, r: Record)
    requires GuessesOk(s, Plus(Weight(p, p.phone), rest), r, p.phone) && Fits(rest)
    requires p.Texting?
    ensures CommandOk(s, p, rest, r)
  {
    NoMoreCalls(s, p, rest, r);
  }

  lemma StoringCooldownKeeps(s: Store, p: Proc, rest: Crowd, r: Record)
    requires GuessesOk(s, Plus(Weight(p, p.phone), rest), r, p.phone) && Fits(rest)
    requires p.StoringCooldown?
    ensures CommandOk(s, p, rest, r)
  {
    KeysApart(p.phone, p.phone);
    var (s', going) := Resume(s, p);
    NoMoreCalls(s, p, rest, Observe(r, s, p, going, Left(going, rest, p.phone)));
  }

  lemma StoringCodeKeeps(s: Store, p: Proc, rest: Crowd, r: Record)
    requires GuessesOk(s, Plus(Weight(p, p.phone), rest), r, p.phone) && Fits(rest)
    requires p.StoringCode?
    ensures CommandOk(s, p, rest, r)
  {
    KeysApart(p.phone, p.phone);
  }

  lemma ClearingKeeps(s: Store, p: Proc, rest: Crowd, r: Record)
    requires GuessesOk(s, Plus(Weight(p, p.phone), rest), r, p.phone) && Fits(rest)
    requires p.ClearingAttempts?
    ensures CommandOk(s, p, rest, r)
  {
    KeysApart(p.phone, p.phone);
    ForgetKeeps(r, s, Resume(s, p).0, p.phone);
    NoMoreCalls(s, p, rest, Forget(r, s, Resume(s, p).0, p.phone));
  }

  lemma ConsumingKeeps(s: Store, p: Proc, rest: Crowd, r: Record)
    requires GuessesOk(s, Plus(Weight(p, p.phone), rest), r, p.phone) && Fits(rest)
    requires p.Consuming?
    ensures CommandOk(s, p, rest, r)
  {
    KeysApart(p.phone, p.phone);
    NoMoreCalls(s, p, rest, r);
  }

  lemma ForgettingKeeps(s: Store, p: Proc, rest: Crowd, r: Record)
    requires GuessesOk(s, Plus(Weight(p, p.phone), rest), r, p.phone) && Fits(rest)
    requires p.Forgetting?
    ensures CommandOk(s, p, rest, r)
  {
    KeysApart(p.phone, p.phone);
    ForgetKeeps(r, s, Resume(s, p).0, p.phone);
    NoMoreCalls(s, p, rest, Forget(r, s, Resume(s, p).0, p.phone));
  }

  lemma GuessingKeeps(s: Store, p: Proc, rest: Crowd, r: Record)
    requires GuessesOk(s, Plus(Weight(p, p.phone), rest), r, p.phone) && Fits(rest)
    requires p.Guessing?
    ensures CommandOk(s, p, rest, r)
  {
    NoMoreCalls(s, p, rest, r);
  }

  lemma ComparingKeeps(s: Store, p: Proc, rest: Crowd, r: Record)
    requires GuessesOk(s, Plus(Weight(p, p.phone), rest), r, p.phone) && Fits(rest)
    requires p.Comparing?
    ensures CommandOk(s, p, rest, r)
  {
    var (s', going) := Resume(s, p);
    NoMoreCalls(s, p, rest, Observe(r, s, p, going, Left(going, rest, p.phone)));
  }

  lemma CountingKeeps(s: Store, p: Proc, rest: Crowd, r: Record)
    requires GuessesOk(s, Plus(Weight(p, p.phone), rest), r, p.phone) && Fits(rest)
    requires p.Counting?
    ensures CommandOk(s, p, rest, r)
  {
    KeysApart(p.phone, p.phone);
    NoMoreCalls(s, p, rest, r);
  }

  lemma ExtendingKeeps(s: Store, p: Proc, rest: Crowd, r: Record)
    requires GuessesOk(s, Plus(Weight(p, p.phone), rest), r, p.phone) && Fits(rest)
    requires p.Extending?
    ensures CommandOk(s, p, rest, r)
  {
    KeysApart(p.phone, p.phone);
    NoMoreCalls(s, p, rest, r);
  }

  lemma CommandKeeps(s: Store, p: Proc, rest: Crowd, r: Record)
    requires GuessesOk(s, Plus(Weight(p, p.phone), rest), r, p.phone) && Fits(rest)
    ensures CommandOk(s, p, rest, r)
  {
    match p
    case Asking(_, _, _) => AskingKeeps(s, p, rest, r);
    case Texting(_, _, _) => TextingKeeps(s, p, rest, r);
    case StoringCode(_, _) => StoringCodeKeeps(s, p, rest, r);
    case StoringCooldown(_) => StoringCooldownKeeps(s, p, rest, r);
    case ClearingAttempts(_) => ClearingKeeps(s, p, rest, r);
    case Guessing(_, _) => GuessingKeeps(s, p, rest, r);
    case Comparing(_, _) => ComparingKeeps(s, p, rest, r);
    case Counting(_) => CountingKeeps(s, p, rest, r);
    case Extending(_) => ExtendingKeeps(s, p, rest, r);
    case Consuming(_) => ConsumingKeeps(s, p, rest, r);
    case Forgetting(_) => ForgettingKeeps(s, p, rest, r);
  }

  // ---- Whatever else happens ----

  /** Another phone's command leaves this phone's keys alone. */
  lemma OtherCommand(s: Store, p: Proc, phone: string)
    requires p.phone != phone
    ensures SameKeys(s, Resume(s, p).0, phone)
  {
    KeysApart(phone, p.phone);
    KeysApart(p.phone, phone);
  }

  predicate SameKeys(s: Store, s': Store, phone: string) {
    && s'.now == s.now
    && SameKey(s, s', CodeKey(phone)) && SameKey(s, s', CooldownKey(phone)) && SameKey(s, s', AttemptsKey(phone))
  }

  predicate SameKey(s: Store, s': Store, k: string) {
    (k in s'.keys <==> k in s.keys) && (k in s.keys ==> s'.keys[k] == s.keys[k])
  }

  lemma OthersKeep(s: Store, s': Store, c: Crowd, r: Record, phone: string)
    requires GuessesOk(s, c, r, phone) && SameKeys(s, s', phone)
    ensures GuessesOk(s', c, Measure(Forget(r, s, s', phone), c), phone)
  {
  }

  lemma WaitingKeeps(s: Store, elapsed: nat, c: Crowd, r: Record, phone: string)
    requires GuessesOk(s, c, r, phone)
    ensures var s' := s.(now := s.now + elapsed);
            GuessesOk(s', c, Measure(Forget(r, s, s', phone), c), phone)
  {
    ForgetKeeps(r, s, s.(now := s.now + elapsed), phone);
  }

  lemma BeginningKeeps(s: Store, p: Proc, c: Crowd, r: Record, phone: string)
    requires GuessesOk(s, c, r, phone) && Begins(p)
    ensures var c' := Plus(Weight(p, phone), c);
            GuessesOk(s, c', Measure(Forget(r, s, s, phone), c'), phone)
  {
    MeasureKeeps(s, Plus(Weight(p, phone), c), r, phone);
  }

  // ---- Requests that run undisturbed ----

  ghost predicate QuietCommandOk(s: Store, p: Proc, rest: Crowd, r: Record) {
    var (s', going) := Resume(s, p);
    QuietOk(s', Left(going, rest, p.phone), NotedFor(r, s, p, rest), p.phone)
  }

  lemma RequestStaysQuiet(s: Store, p: Proc, rest: Crowd, r: Record)
    requires KeysOk(s, p.phone) && QuietOk(s, Plus(Weight(p, p.phone), rest), r, p.phone) && Fits(rest)
    requires p.Asking? || p.Texting? || p.StoringCode? || p.StoringCooldown?
    ensures QuietCommandOk(s, p, rest, r)
  {
    KeysApart(p.phone, p.phone);
  }

  /** Clearing the attempts loses no guess at the new code: there was none yet. */
  lemma ClearingStaysQuiet(s: Store, p: Proc, rest: Crowd, r: Record)
    requires KeysOk(s, p.phone) && QuietOk(s, Plus(Weight(p, p.phone), rest), r, p.phone) && Fits(rest)
    requires p.ClearingAttempts?
    ensures QuietCommandOk(s, p, rest, r)
  {
    KeysApart(p.phone, p.phone);
  }

  lemma GuessStaysQuiet(s: Store, p: Proc, rest: Crowd, r: Record)
    requires KeysOk(s, p.phone) && QuietOk(s, Plus(Weight(p, p.phone), rest), r, p.phone) && Fits(rest)
    requires p.Guessing? || p.Comparing?
    ensures QuietCommandOk(s, p, rest, r)
  {
  }

  lemma OutcomeStaysQuiet(s: Store, p: Proc, rest: Crowd, r: Record)
    requires KeysOk(s, p.phone) && QuietOk(s, Plus(Weight(p, p.phone), rest), r, p.phone) && Fits(rest)
    requires p.Counting? || p.Extending? || p.Consuming? || p.Forgetting?
    ensures QuietCommandOk(s, p, rest, r)
  {
    KeysApart(p.phone, p.phone);
  }

  lemma CommandStaysQuiet(s: Store, p: Proc, rest: Crowd, r: Record)
    requires KeysOk(s, p.phone) && QuietOk(s, Plus(Weight(p, p.phone), rest), r, p.phone) && Fits(rest)
    ensures QuietCommandOk(s, p, rest, r)
  {
    match p
    case ClearingAttempts(_) => ClearingStaysQuiet(s, p, rest, r);
    case Guessing(_, _) => GuessStaysQuiet(s, p, rest, r);
    case Comparing(_, _) => GuessStaysQuiet(s, p, rest, r);
    case Counting(_) => OutcomeStaysQuiet(s, p, rest, r);
    case Extending(_) => OutcomeStaysQuiet(s, p, rest, r);
    case Consuming(_) => OutcomeStaysQuiet(s, p, rest, r);
    case Forgetting(_) => OutcomeStaysQuiet(s, p, rest, r);
    case _ => RequestStaysQuiet(s, p, rest, r);
  }

  lemma OthersStayQuiet(s: Store, s': Store, c: Crowd, r: Record, phone: string)
    requires KeysOk(s, phone) && QuietOk(s, c, r, phone) && SameKeys(s, s', phone)
    ensures QuietOk(s', c, Measure(Forget(r, s, s', phone), c), phone)
  {
  }

  lemma WaitingStaysQuiet(s: Store, elapsed: nat, c: Crowd, r: Record, phone: string)
    requires KeysOk(s, phone) && QuietOk(s, c, r, phone)
    ensures var s' := s.(now := s.now + elapsed);
            QuietOk(s', c, Measure(Forget(r, s, s', phone), c), phone)
  {
  }

  lemma BeginningStaysQuiet(s: Store, p: Proc, c: Crowd, r: Record, phone: string)
    requires KeysOk(s, phone) && QuietOk(s, c, r, phone) && Begins(p)
    ensures var c' := Plus(Weight(p, phone), c);
            QuietOk(s, c', Measure(Forget(r, s, s, phone), c'), phone)
  {
  }

  lemma LastCodeAdds(r: Record)
    requires r.issued > 0 && r.wrong <= (4 + r.top) * (r.issued - 1) + r.wrongSince
    requires r.wrongSince <= (4 + r.peak) * r.losses + r.window && r.losses == 0 && r.window <= 4 + r.peak <= 4 + r.top
    ensures r.wrong <= (4 + r.top) * r.issued
  {
    assert (4 + r.peak) * r.losses == 0;
    assert (4 + r.top) * (r.issued - 1) + (4 + r.top) == (4 + r.top) * r.issued;
  }

  lemma ObservedTotal(s: Store, p: Proc, rest: Crowd, r: Record)
    requires Bounded(Plus(Weight(p, p.phone), rest), r) && TotalOk(r)
    requires QuietOk(s, Plus(Weight(p, p.phone), rest), r, p.phone)
    ensures var going := Resume(s, p).1;
            TotalOk(Observe(r, s, p, going, Left(going, rest, p.phone)))
  {
    if r.quiet && r.issued > 0 { LastCodeAdds(r); }
  }

  lemma MeasuredTotal(r: Record, s: Store, s': Store, c: Crowd, phone: string)
    requires TotalOk(r)
    requires Measure(Forget(r, s, s', phone), c).quiet ==> Measure(Forget(r, s, s', phone), c).losses == 0
    ensures TotalOk(Measure(Forget(r, s, s', phone), c))
  {
    if r.issued > 0 { ProductGrows(4 + r.top, 4 + Most(r.top, c.verifying), r.issued - 1); }
  }

  // ---- Cooldown rounds ----

  /** A round begins with a cooldown stored when the last round's is over, and lasts as long as that cooldown. Each
      round has at most one code for each request in flight when it began; outside a round, codes come from requests
      that have not stored their cooldown. */
  predicate IssuesOk(s: Store, c: Crowd, r: Record, phone: string) {
    && c.requesting <= r.asks
    && (r.rounds > 0 ==> RESEND_COOLDOWN * (r.rounds - 1) <= r.roundStart <= s.now)
    && if r.rounds > 0 && s.now < r.roundStart + RESEND_COOLDOWN then
         && r.issued + c.past <= r.asks * r.rounds
         && CooldownKey(phone) in s.keys && s.keys[CooldownKey(phone)].expires.Some?
         && r.roundStart + RESEND_COOLDOWN <= s.keys[CooldownKey(phone)].expires.value
       else r.issued <= r.asks * r.rounds + c.storing
  }

  ghost predicate IssueCommandOk(s: Store, p: Proc, rest: Crowd, r: Record) {
    var (s', going) := Resume(s, p);
    IssuesOk(s', Left(going, rest, p.phone), NotedFor(r, s, p, rest), p.phone)
  }

  lemma AskingKeepsIssues(s: Store, p: Proc, rest: Crowd, r: Record)
    requires IssuesOk(s, Plus(Weight(p, p.phone), rest), r, p.phone) && Fits(rest)
    requires p.Asking? || p.Texting? || p.StoringCode?
    ensures IssueCommandOk(s, p, rest, r)
  {
    KeysApart(p.phone, p.phone);
  }

  lemma StoringCooldownKeepsIssues(s: Store, p: Proc, rest: Crowd, r: Record)
    requires IssuesOk(s, Plus(Weight(p, p.phone), rest), r, p.phone) && Fits(rest)
    requires p.StoringCooldown?
    ensures IssueCommandOk(s, p, rest, r)
  {
    var c := Plus(Weight(p, p.phone), rest);
    if r.rounds == 0 || r.roundStart + RESEND_COOLDOWN <= s.now {
      RoundOpens(r.asks, r.rounds, r.issued, c.storing, c.past);
    }
  }

  lemma RoundOpens(asks: nat, rounds: nat, issued: nat, storing: nat, past: nat)
    requires issued <= asks * rounds + storing && storing + past <= asks
    ensures issued + past <= asks * (rounds + 1)
  {
  }

  lemma DeletingKeepsIssues(s: Store, p: Proc, rest: Crowd, r: Record)
    requires IssuesOk(s, Plus(Weight(p, p.phone), rest), r, p.phone) && Fits(rest)
    requires p.ClearingAttempts? || p.Consuming? || p.Forgetting?
    ensures IssueCommandOk(s, p, rest, r)
  {
    KeysApart(p.phone, p.phone);
  }

  lemma GuessKeepsIssues(s: Store, p: Proc, rest: Crowd, r: Record)
    requires IssuesOk(s, Plus(Weight(p, p.phone), rest), r, p.phone) && Fits(rest)
    requires p.Guessing? || p.Comparing?
    ensures IssueCommandOk(s, p, rest, r)
  {
  }

  lemma CountKeepsIssues(s: Store, p: Proc, rest: Crowd, r: Record)
    requires IssuesOk(s, Plus(Weight(p, p.phone), rest), r, p.phone) && Fits(rest)
    requires p.Counting? || p.Extending?
    ensures IssueCommandOk(s, p, rest, r)
  {
    KeysApart(p.phone, p.phone);
  }

  lemma OthersKeepIssues(s: Store, s': Store, c: Crowd, r: Record, phone: string)
    requires IssuesOk(s, c, r, phone) && SameKeys(s, s', phone)
    ensures IssuesOk(s', c, Measure(Forget(r, s, s', phone), c), phone)
  {
  }

  lemma WaitingKeepsIssues(s: Store, elapsed: nat, c: Crowd, r: Record, phone: string)
    requires IssuesOk(s, c, r, phone)
    ensures var s' := s.(now := s.now + elapsed);
            IssuesOk(s', c, Measure(Forget(r, s, s', phone), c), phone)
  {
  }

  lemma BeginningKeepsIssues(s: Store, p: Proc, c: Crowd, r: Record, phone: string)
    requires IssuesOk(s, c, r, phone) && Begins(p)
    ensures var c' := Plus(Weight(p, phone), c);
            IssuesOk(s, c', Measure(Forget(r, s, s, phone), c'), phone)
  {
    ProductGrows(r.asks, Measure(r, Plus(Weight(p, phone), c)).asks, r.rounds);
  }

  lemma CommandKeepsIssues(s: Store, p: Proc, rest: Crowd, r: Record)
    requires IssuesOk(s, Plus(Weight(p, p.phone), rest), r, p.phone) && Fits(rest)
    ensures IssueCommandOk(s, p, rest, r)
  {
    match p
    case Asking(_, _, _) => AskingKeepsIssues(s, p, rest, r);
    case Texting(_, _, _) => AskingKeepsIssues(s, p, rest, r);
    case StoringCode(_, _) => AskingKeepsIssues(s, p, rest, r);
    case StoringCooldown(_) => StoringCooldownKeepsIssues(s, p, rest, r);
    case Guessing(_, _) => GuessKeepsIssues(s, p, rest, r);
    case Comparing(_, _) => GuessKeepsIssues(s, p, rest, r);
    case Counting(_) => CountKeepsIssues(s, p, rest, r);
    case Extending(_) => CountKeepsIssues(s, p, rest, r);
    case _ => DeletingKeepsIssues(s, p, rest, r);
  }

  // ---- Every schedule ----

  predicate RecordOk(s: Store, c: Crowd, r: Record, phone: string) {
    GuessesOk(s, c, r, phone) && QuietOk(s, c, r, phone) && TotalOk(r) && IssuesOk(s, c, r, phone)
  }

  ghost predicate SeenOk(m: Machine, r: Record, phone: string) {
    RecordOk(m.store, CrowdOf(m.calls, phone), r, phone)
  }

  lemma ReplacedCrowd(calls: map<CallId, Proc>, t: CallId, p: Proc, phone: string)
    ensures CrowdOf(calls[t := p], phone) == Plus(Weight(p, phone), CrowdOf(calls - {t}, phone))
  {
    hide Weight;
    var next := calls[t := p];
    assert next - {t} == calls - {t} && next[t] == p;
    CrowdSplit(next, phone, t);
  }

  function Became(calls: map<CallId, Proc>, t: CallId, going: Going): map<CallId, Proc> {
    if going.On? then calls[t := going.proc] else calls - {t}
  }

  /** The crowd without the call that moves, and with what it becomes. */
  lemma AdvanceCrowd(calls: map<CallId, Proc>, t: CallId, going: Going, phone: string)
    requires t in calls
    ensures var rest := CrowdOf(calls - {t}, phone);
            && Fits(rest)
            && CrowdOf(calls, phone) == Plus(Weight(calls[t], phone), rest)
            && CrowdOf(Became(calls, t, going), phone) == Left(going, rest, phone)
  {
    hide Weight;
    CrowdSplit(calls, phone, t);
    CrowdFits(calls - {t}, phone);
    if going.On? { ReplacedCrowd(calls, t, going.proc, phone); }
  }

  lemma OwnMove(m: Machine, r: Record, t: CallId)
    requires t in m.calls
    ensures var p := m.calls[t];
            var rest := CrowdOf(m.calls - {t}, p.phone);
            && Fits(rest)
            && CrowdOf(m.calls, p.phone) == Plus(Weight(p, p.phone), rest)
            && CrowdOf(Advanced(m, t).calls, p.phone) == Left(Resume(m.store, p).1, rest, p.phone)
            && Noted(r, m, Advance(t), p.phone) == NotedFor(r, m.store, p, rest)
            && Advanced(m, t) == Machine(Resume(m.store, p).0, Became(m.calls, t, Resume(m.store, p).1))
  {
    hide Weight, Resume, Observe, Forget, Measure;
    AdvanceCrowd(m.calls, t, Resume(m.store, m.calls[t]).1, m.calls[t].phone);
  }

  ghost predicate Kept(s: Store, p: Proc, rest: Crowd, r: Record) {
    var (s', going) := Resume(s, p);
    RecordOk(s', Left(going, rest, p.phone), NotedFor(r, s, p, rest), p.phone)
  }

  lemma CommandKeepsRecord(s: Store, p: Proc, rest: Crowd, r: Record)
    requires RecordOk(s, Plus(Weight(p, p.phone), rest), r, p.phone) && Fits(rest)
    ensures Kept(s, p, rest, r)
  {
    hide Resume, Weight;
    CommandKeeps(s, p, rest, r);
    CommandStaysQuiet(s, p, rest, r);
    CommandKeepsIssues(s, p, rest, r);
    TotalStays(s, p, rest, r);
  }

  lemma TotalStays(s: Store, p: Proc, rest: Crowd, r: Record)
    requires Bounded(Plus(Weight(p, p.phone), rest), r) && TotalOk(r)
    requires QuietOk(s, Plus(Weight(p, p.phone), rest), r, p.phone) && QuietCommandOk(s, p, rest, r)
    ensures TotalOk(NotedFor(r, s, p, rest))
  {
    ObservedTotal(s, p, rest, r);
    var (s', going) := Resume(s, p);
    var c := Left(going, rest, p.phone);
    MeasuredTotal(Observe(r, s, p, going, c), s, s', c, p.phone);
  }

  lemma OwnCommandKeeps(m: Machine, r: Record, t: CallId)
    requires t in m.calls && SeenOk(m, r, m.calls[t].phone)
    ensures var phone := m.calls[t].phone;
            SeenOk(Advanced(m, t), Noted(r, m, Advance(t), phone), phone)
  {
    hide CrowdOf, Noted, NotedFor;
    OwnMove(m, r, t);
    CommandKeepsRecord(m.store, m.calls[t], CrowdOf(m.calls - {t}, m.calls[t].phone), r);
  }

  lemma OthersRecord(s: Store, s': Store, c: Crowd, r: Record, phone: string)
    requires RecordOk(s, c, r, phone) && SameKeys(s, s', phone)
    ensures RecordOk(s', c, Measure(Forget(r, s, s', phone), c), phone)
  {
    OthersKeep(s, s', c, r, phone);
    OthersStayQuiet(s, s', c, r, phone);
    OthersKeepIssues(s, s', c, r, phone);
    MeasuredTotal(r, s, s', c, phone);
  }

  lemma OtherMove(m: Machine, r: Record, t: CallId, phone: string)
    requires t in m.calls && m.calls[t].phone != phone
    ensures var c, m' := CrowdOf(m.calls, phone), Advanced(m, t);
            && CrowdOf(m'.calls, phone) == c && m'.store == Resume(m.store, m.calls[t]).0
            && Noted(r, m, Advance(t), phone) == Measure(Forget(r, m.store, m'.store, phone), c)
  {
    hide CrowdOf, Weight, Resume, Left, Plus, Measure, Forget, Observe;
    SamePhone(m.store, m.calls[t]);
    AdvanceCrowd(m.calls, t, Resume(m.store, m.calls[t]).1, phone);
    StrangerWeighsNothing(m.calls[t], CrowdOf(m.calls - {t}, phone), phone);
    StrangersLeave(Resume(m.store, m.calls[t]).1, CrowdOf(m.calls - {t}, phone), phone);
  }

  lemma SamePhone(s: Store, p: Proc)
    ensures Resume(s, p).1.On? ==> Resume(s, p).1.proc.phone == p.phone
  {
  }

  lemma StrangerWeighsNothing(p: Proc, c: Crowd, phone: string)
    requires p.phone != phone
    ensures Plus(Weight(p, phone), c) == c
  {
  }

  lemma StrangersLeave(going: Going, c: Crowd, phone: string)
    requires going.On? ==> going.proc.phone != phone
    ensures Left(going, c, phone) == c
  {
  }

  lemma OtherCommandKeeps(m: Machine, r: Record, t: CallId, phone: string)
    requires t in m.calls && m.calls[t].phone != phone && SeenOk(m, r, phone)
    ensures SeenOk(Advanced(m, t), Noted(r, m, Advance(t), phone), phone)
  {
    hide CrowdOf, Noted, RecordOk, Resume;
    OtherMove(m, r, t, phone);
    OtherCommand(m.store, m.calls[t], phone);
    OthersRecord(m.store, Advanced(m, t).store, CrowdOf(m.calls, phone), r, phone);
  }

  lemma WaitedRecord(s: Store, elapsed: nat, c: Crowd, r: Record, phone: string)
    requires RecordOk(s, c, r, phone)
    ensures var s' := s.(now := s.now + elapsed);
            RecordOk(s', c, Measure(Forget(r, s, s', phone), c), phone)
  {
    WaitingKeeps(s, elapsed, c, r, phone);
    WaitingStaysQuiet(s, elapsed, c, r, phone);
    WaitingKeepsIssues(s, elapsed, c, r, phone);
    MeasuredTotal(r, s, s.(now := s.now + elapsed), c, phone);
  }

  lemma WaitKeeps(m: Machine, r: Record, elapsed: nat, phone: string)
    requires SeenOk(m, r, phone)
    ensures SeenOk(After(m, Wait(elapsed)), Noted(r, m, Wait(elapsed), phone), phone)
  {
    hide CrowdOf, RecordOk, Measure, Forget;
    WaitedRecord(m.store, elapsed, CrowdOf(m.calls, phone), r, phone);
  }

  lemma BegunRecord(s: Store, p: Proc, c: Crowd, r: Record, phone: string)
    requires RecordOk(s, c, r, phone) && Begins(p)
    ensures var c' := Plus(Weight(p, phone), c);
            RecordOk(s, c', Measure(Forget(r, s, s, phone), c'), phone)
  {
    BeginningKeeps(s, p, c, r, phone);
    BeginningStaysQuiet(s, p, c, r, phone);
    BeginningKeepsIssues(s, p, c, r, phone);
    MeasuredTotal(r, s, s, Plus(Weight(p, phone), c), phone);
  }

  lemma BegunCrowd(calls: map<CallId, Proc>, t: CallId, p: Proc, phone: string)
    requires t !in calls
    ensures CrowdOf(calls[t := p], phone) == Plus(Weight(p, phone), CrowdOf(calls, phone))
  {
    hide Weight, CrowdOf;
    assert calls - {t} == calls;
    ReplacedCrowd(calls, t, p, phone);
  }

  lemma BeginMove(m: Machine, r: Record, t: CallId, p: Proc, phone: string)
    requires t !in m.calls && Begins(p)
    ensures var m' := After(m, Begin(t, p));
            var c := Plus(Weight(p, phone), CrowdOf(m.calls, phone));
            && m'.store == m.store && CrowdOf(m'.calls, phone) == c
            && Noted(r, m, Begin(t, p), phone) == Measure(Forget(r, m.store, m.store, phone), c)
  {
    BegunCrowd(m.calls, t, p, phone);
  }

  lemma BeginKeeps(m: Machine, r: Record, t: CallId, p: Proc, phone: string)
    requires SeenOk(m, r, phone) && t !in m.calls && Begins(p)
    ensures SeenOk(After(m, Begin(t, p)), Noted(r, m, Begin(t, p), phone), phone)
  {
    hide CrowdOf, Noted, Measure, Forget, Weight;
    BeginMove(m, r, t, p, phone);
    BegunRecord(m.store, p, CrowdOf(m.calls, phone), r, phone);
  }

  lemma NothingKeeps(m: Machine, r: Record, move: Move, phone: string)
    requires SeenOk(m, r, phone) && After(m, move) == m && !(move.Advance? && move.t in m.calls)
    ensures SeenOk(m, Noted(r, m, move, phone), phone)
  {
    hide CrowdOf, RecordOk, Measure, Forget;
    OthersRecord(m.store, m.store, CrowdOf(m.calls, phone), r, phone);
  }

  lemma MoveKeeps(m: Machine, r: Record, move: Move, phone: string)
    requires SeenOk(m, r, phone)
    ensures SeenOk(After(m, move), Noted(r, m, move, phone), phone)
  {
    hide CrowdOf, Noted, RecordOk;
    match move
    case Wait(elapsed) => WaitKeeps(m, r, elapsed, phone);
    case Begin(t, p) =>
      if t !in m.calls && Begins(p) { BeginKeeps(m, r, t, p, phone); } else { NothingKeeps(m, r, move, phone); }
    case Advance(t) =>
      if t !in m.calls { NothingKeeps(m, r, move, phone); }
      else if m.calls[t].phone == phone { OwnCommandKeeps(m, r, t); }
      else { OtherCommandKeeps(m, r, t, phone); }
  }

  lemma NothingYetOk(phone: string)
    ensures SeenOk(IDLE, NOTHING_YET, phone)
  {
  }

  lemma {:induction false} ScheduleKeeps(moves: seq<Move>, phone: string)
    ensures SeenOk(Watch(moves, phone).m, Watch(moves, phone).r, phone)
    decreases |moves|
  {
    hide SeenOk, After, Noted;
    if moves == [] {
      NothingYetOk(phone);
    } else {
      ScheduleKeeps(moves[..|moves| - 1], phone);
      var o := Watch(moves[..|moves| - 1], phone);
      MoveKeeps(o.m, o.r, moves[|moves| - 1], phone);
    }
  }

  // ---- What follows ----

  lemma ScheduleBounded(moves: seq<Move>, phone: string)
    ensures var o := Watch(moves, phone);
            var c := CrowdOf(o.m.calls, phone);
            && Bounded(c, o.r) && TotalOk(o.r) && IssuesOk(o.m.store, c, o.r, phone) && Fits(c)
  {
    hide CrowdOf, Watch;
    ScheduleKeeps(moves, phone);
    CrowdFits(Watch(moves, phone).m.calls, phone);
  }

  /** However calls overlap: a code verifies at most once for each verification in flight at once since it was stored,
      and between two losses of the attempts on record at most four wrong guesses, and one for each such verification,
      meet it. The record is lost at most once for each request and each verification in flight at once, and once
      more. */
  lemma OverlappingGuesses(moves: seq<Move>, phone: string)
    ensures var r := Watch(moves, phone).r;
            && r.rightSince <= r.peak
            && r.window <= 4 + r.peak
            && r.losses <= r.asks + r.peak + 1
            && r.wrongSince <= (4 + r.peak) * (r.losses + 1)
  {
    hide CrowdOf, Watch;
    ScheduleBounded(moves, phone);
    BoundedGuesses(Watch(moves, phone).r);
  }

  lemma BoundedGuesses(r: Record)
    requires r.window <= 4 + r.peak && r.wrongSince <= (4 + r.peak) * r.losses + r.window
    ensures r.wrongSince <= (4 + r.peak) * (r.losses + 1)
  {
  }

  /** Where every request ran alone from storing its code to its end, nothing is lost: at most four wrong guesses, and
      one for each verification in flight at once, meet a code. */
  lemma QuietGuesses(moves: seq<Move>, phone: string)
    ensures var r := Watch(moves, phone).r;
            r.quiet ==> r.wrongSince <= 4 + r.peak && r.wrong <= (4 + r.top) * r.issued
  {
    hide CrowdOf, Watch;
    ScheduleBounded(moves, phone);
    if Watch(moves, phone).r.quiet { QuietBound(Watch(moves, phone).r); }
  }

  lemma QuietBound(r: Record)
    requires TotalOk(r) && r.quiet && r.window <= 4 + r.peak <= 4 + r.top
    requires r.wrongSince <= (4 + r.peak) * r.losses + r.window
    ensures r.wrongSince <= 4 + r.peak && r.wrong <= (4 + r.top) * r.issued
  {
    assert (4 + r.peak) * r.losses == 0;
    if r.issued > 0 { LastCodeAdds(r); }
  }

  lemma FactorGrows(n: nat, a: nat, b: nat)
    requires a <= b
    ensures n * a <= n * b
  {
  }

  lemma RoundsFit(s: Store, c: Crowd, r: Record, phone: string)
    requires IssuesOk(s, c, r, phone) && Fits(c)
    ensures r.issued <= r.asks * (s.now / RESEND_COOLDOWN + 1)
  {
    if r.rounds > 0 && s.now < r.roundStart + RESEND_COOLDOWN {
      FactorGrows(r.asks, r.rounds, s.now / RESEND_COOLDOWN + 1);
    } else {
      RoundOpens(r.asks, r.rounds, r.issued, c.storing, 0);
      FactorGrows(r.asks, r.rounds + 1, s.now / RESEND_COOLDOWN + 1);
    }
  }

  /** However calls overlap: by time T at most T div 60 s + 1 codes for each request in flight at once are stored. */
  lemma OverlappingIssues(moves: seq<Move>, phone: string)
    ensures var o := Watch(moves, phone);
            o.r.issued <= o.r.asks * (o.m.store.now / 60_000 + 1)
  {
    hide CrowdOf, Watch;
    ScheduleBounded(moves, phone);
    var o := Watch(moves, phone);
    RoundsFit(o.m.store, CrowdOf(o.m.calls, phone), o.r, phone);
  }
}
