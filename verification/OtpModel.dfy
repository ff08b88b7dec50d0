/** One-time codes kept in Redis under keys that expire. Time is counted in milliseconds. */
module OtpModel {
  import opened Numeric

  const OTP_TTL: nat := 300_000
  const OTP_MAX_ATTEMPTS: nat := 5
  const RESEND_COOLDOWN: nat := 60_000

  // ---- Redis ----

  datatype Value = Text(text: string) | Number(number: nat)

  /** A key's value and the moment it expires, if it does. An expired key reads as absent. */
  datatype Key = Key(value: Value, expires: Option<nat>)

  datatype Store = Store(now: nat, keys: map<string, Key>)

  predicate Live(s: Store, k: string) {
    k in s.keys && (s.keys[k].expires.Some? ==> s.now < s.keys[k].expires.value)
  }

  function Get(s: Store, k: string): Option<Value> {
    if Live(s, k) then Some(s.keys[k].value) else None
  }

  function SetEx(s: Store, k: string, v: Value, ttl: nat): Store {
    s.(keys := s.keys[k := Key(v, Some(s.now + ttl))])
  }

  function Delete(s: Store, k: string): Store {
    s.(keys := s.keys - {k})
  }

  /** INCR keeps the expiry of a live key, and starts an absent one at 1 without an expiry. */
  function Incr(s: Store, k: string): Store {
    var v := Get(s, k);
    if v.None? then s.(keys := s.keys[k := Key(Number(1), None)])
    else
      var n := if v.value.Number? then v.value.number else 0;
      s.(keys := s.keys[k := s.keys[k].(value := Number(n + 1))])
  }

  function Expire(s: Store, k: string, ttl: nat): Store {
    if Live(s, k) then s.(keys := s.keys[k := s.keys[k].(expires := Some(s.now + ttl))]) else s
  }

  // ---- The service ----

  function CodeKey(phone: string): string { "otp:code:" + phone }
  function CooldownKey(phone: string): string { "otp:cooldown:" + phone }
  function AttemptsKey(phone: string): string { "otp:attempts:" + phone }

  datatype RequestResult = RateLimited | DeliveryFailed | Sent
  datatype VerifyResult = TooManyAttempts | CodeExpired | WrongCode | RightCode

  /** generate_and_send_otp, for the code that was drawn and whether the SMS went out. */
  function Request(s: Store, phone: string, code: string, delivered: bool): (Store, RequestResult) {
    if Live(s, CooldownKey(phone)) then (s, RateLimited)
    else if !delivered then (s, DeliveryFailed)
    else
      var s1 := SetEx(s, CodeKey(phone), Text(code), OTP_TTL);
      var s2 := SetEx(s1, CooldownKey(phone), Text("1"), RESEND_COOLDOWN);
      (Delete(s2, AttemptsKey(phone)), Sent)
  }

  function Attempts(s: Store, phone: string): nat {
    var v := Get(s, AttemptsKey(phone));
    if v.Some? && v.value.Number? then v.value.number else 0
  }

  function Verify(s: Store, phone: string, guess: string): (Store, VerifyResult) {
    if Attempts(s, phone) >= OTP_MAX_ATTEMPTS then (s, TooManyAttempts)
    else
      var stored := Get(s, CodeKey(phone));
      if stored.None? then (s, CodeExpired)
      else if stored.value != Text(guess) then
        (Expire(Incr(s, AttemptsKey(phone)), AttemptsKey(phone), OTP_TTL), WrongCode)
      else (Delete(Delete(s, CodeKey(phone)), AttemptsKey(phone)), RightCode)
  }

  // ---- Runs ----

  datatype Event =
    | Tick(elapsed: nat)
    | Ask(phone: string, code: string, delivered: bool)
    | Guess(phone: string, guess: string)

  function Next(s: Store, e: Event): Store {
    match e
    case Tick(elapsed) => s.(now := s.now + elapsed)
    case Ask(phone, code, delivered) => Request(s, phone, code, delivered).0
    case Guess(phone, guess) => Verify(s, phone, guess).0
  }

  function Run(s: Store, events: seq<Event>): Store
    decreases |events|
  {
    if events == [] then s else Next(Run(s, events[..|events| - 1]), events[|events| - 1])
  }
}
