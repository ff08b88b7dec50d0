/** The OTP service as it runs, command by command, on a Redis whose keys it sets, increments, expires and deletes, and
    which other calls use while it awaits a command.
 */
module OtpService {
  import opened Numeric
  import opened OtpModel
  import opened OtpMachine

  class Redis {
    var now: nat
    var keys: map<string, Key>

    ghost function Value(): Store
      reads this
    {
      Store(now, keys)
    }

    constructor (now: nat)
      ensures Value() == Store(now, map[])
    {
      this.now, keys := now, map[];
    }

    /** Other calls run their commands, and time passes. */
    method Await(other: Store -> Store)
      modifies this
      ensures Value() == other(old(Value()))
    {
      var s := other(Store(now, keys));
      now, keys := s.now, s.keys;
    }

    method Read(k: string) returns (v: Option<Value>)
      ensures v == Get(Value(), k)
    {
      if k in keys && (keys[k].expires.None? || now < keys[k].expires.value) {
        v := Some(keys[k].value);
      } else {
        v := None;
      }
    }

    method Write(k: string, v: Value, ttl: nat)
      modifies this`keys
      ensures Value() == SetEx(old(Value()), k, v, ttl)
    {
      keys := keys[k := Key(v, Some(now + ttl))];
    }

    method Remove(k: string)
      modifies this`keys
      ensures Value() == Delete(old(Value()), k)
    {
      keys := keys - {k};
    }

    method Increment(k: string)
      modifies this`keys
      ensures Value() == Incr(old(Value()), k)
    {
      var v := Read(k);
      if v.None? {
        keys := keys[k := Key(Number(1), None)];
      } else {
        var n := if v.value.Number? then v.value.number else 0;
        keys := keys[k := keys[k].(value := Number(n + 1))];
      }
    }

    method SetExpiry(k: string, ttl: nat)
      modifies this`keys
      ensures Value() == Expire(old(Value()), k, ttl)
    {
      var v := Read(k);
      if v.Some? {
        keys := keys[k := keys[k].(expires := Some(now + ttl))];
      }
    }
  }

  lemma DropTwice(others: seq<Store -> Store>, k: nat)
    requires k < |others|
    ensures others[k..][0] == others[k] && others[k..][1..] == others[k + 1..]
  {
  }

  /** generate_and_send_otp: `others[i]` is what happens to the database while its i-th command is awaited. The SMS,
      whose sending is awaited too, goes out before anything is stored. */
  method GenerateAndSendOtp(redis: Redis, phone: string, code: string, delivered: bool, others: seq<Store -> Store>)
    returns (result: RequestResult)
    requires |others| == 5
    modifies redis
    ensures (redis.Value(), Asked(result)) == Completed(old(redis.Value()), Asking(phone, code, delivered), others)
  {
    ghost var whole := Completed(redis.Value(), Asking(phone, code, delivered), others);
    redis.Await(others[0]);
    var cooldown := redis.Read(CooldownKey(phone));
    if cooldown.Some? { return RateLimited; }
    assert whole == Completed(redis.Value(), Texting(phone, code, delivered), others[1..]);
    redis.Await(others[1]);
    if !delivered { return DeliveryFailed; }
    DropTwice(others, 1);
    assert whole == Completed(redis.Value(), StoringCode(phone, code), others[2..]);
    redis.Await(others[2]);
    redis.Write(CodeKey(phone), Text(code), OTP_TTL);
    DropTwice(others, 2);
    assert whole == Completed(redis.Value(), StoringCooldown(phone), others[3..]);
    redis.Await(others[3]);
    redis.Write(CooldownKey(phone), Text("1"), RESEND_COOLDOWN);
    DropTwice(others, 3);
    assert whole == Completed(redis.Value(), ClearingAttempts(phone), others[4..]);
    redis.Await(others[4]);
    redis.Remove(AttemptsKey(phone));
    result := Sent;
  }

  /** verify_otp. */
  method VerifyOtp(redis: Redis, phone: string, guess: string, others: seq<Store -> Store>)
    returns (result: VerifyResult)
    requires |others| == 4
    modifies redis
    ensures (redis.Value(), Guessed(result)) == Completed(old(redis.Value()), Guessing(phone, guess), others)
  {
    ghost var whole := Completed(redis.Value(), Guessing(phone, guess), others);
    redis.Await(others[0]);
    var recorded := redis.Read(AttemptsKey(phone));
    var attempts := if recorded.Some? && recorded.value.Number? then recorded.value.number else 0;
    if attempts >= OTP_MAX_ATTEMPTS { return TooManyAttempts; }
    assert whole == Completed(redis.Value(), Comparing(phone, guess), others[1..]);
    redis.Await(others[1]);
    var stored := redis.Read(CodeKey(phone));
    if stored.None? { return CodeExpired; }
    DropTwice(others, 1);
    if stored.value != Text(guess) {
      result := CountWrongGuess(redis, phone, others[2..]);
    } else {
      result := UseCode(redis, phone, others[2..]);
    }
  }

  /** What verify_otp does after a wrong guess. */
  method CountWrongGuess(redis: Redis, phone: string, others: seq<Store -> Store>) returns (result: VerifyResult)
    requires |others| == 2
    modifies redis
    ensures (redis.Value(), Guessed(result)) == Completed(old(redis.Value()), Counting(phone), others)
  {
    ghost var whole := Completed(redis.Value(), Counting(phone), others);
    redis.Await(others[0]);
    redis.Increment(AttemptsKey(phone));
    assert whole == Completed(redis.Value(), Extending(phone), others[1..]);
    redis.Await(others[1]);
    redis.SetExpiry(AttemptsKey(phone), OTP_TTL);
    result := WrongCode;
  }

  /** And after a right one. */
  method UseCode(redis: Redis, phone: string, others: seq<Store -> Store>) returns (result: VerifyResult)
    requires |others| == 2
    modifies redis
    ensures (redis.Value(), Guessed(result)) == Completed(old(redis.Value()), Consuming(phone), others)
  {
    ghost var whole := Completed(redis.Value(), Consuming(phone), others);
    redis.Await(others[0]);
    redis.Remove(CodeKey(phone));
    assert whole == Completed(redis.Value(), Forgetting(phone), others[1..]);
    redis.Await(others[1]);
    redis.Remove(AttemptsKey(phone));
    result := RightCode;
  }
}
