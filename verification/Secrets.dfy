/** The MAC pre-image of Secrets.Hash and the moving factor check of totpStep. */
module Secrets {
  import opened Base

  // ---------- domain-separated hashing ----------

  predicate NulFree(s: Bytes) {
    0 !in s
  }

  // The bytes written to the MAC, in order.
  function Preimage(kind: Bytes, context: Bytes, value: Bytes): Bytes {
    kind + [0] + context + [0] + value
  }

  function FirstNul(s: Bytes): nat {
    if s == [] || s[0] == 0 then 0 else 1 + FirstNul(s[1..])
  }

  lemma {:induction false} FirstNulAt(a: Bytes, x: Bytes)
    requires NulFree(a)
    ensures FirstNul(a + [0] + x) == |a|
  {
    var s := a + [0] + x;
    if a != [] {
      assert s[0] == a[0] && s[1..] == a[1..] + [0] + x;
      FirstNulAt(a[1..], x);
    }
  }

  // The first NUL splits a sequence in one way only.
  lemma SplitAtNul(a: Bytes, b: Bytes, x: Bytes, y: Bytes)
    requires NulFree(a) && NulFree(b)
    requires a + [0] + x == b + [0] + y
    ensures a == b && x == y
  {
    var s, t := a + [0] + x, b + [0] + y;
    FirstNulAt(a, x);
    FirstNulAt(b, y);
    assert a == s[..|a|] && b == t[..|b|];
    assert x == s[|a| + 1..] && y == t[|b| + 1..];
  }

  lemma PreimageInjective(kind: Bytes, context: Bytes, value: Bytes,
                          kind': Bytes, context': Bytes, value': Bytes)
    requires NulFree(kind) && NulFree(context) && NulFree(kind') && NulFree(context')
    ensures Preimage(kind, context, value) == Preimage(kind', context', value')
      <==> kind == kind' && context == context' && value == value'
  {
    if Preimage(kind, context, value) == Preimage(kind', context', value') {
      var x, y := context + [0] + value, context' + [0] + value';
      assert kind + [0] + x == Preimage(kind, context, value);
      assert kind' + [0] + y == Preimage(kind', context', value');
      SplitAtNul(kind, kind', x, y);
      SplitAtNul(context, context', value, value');
    }
  }

  // Without the restriction two different triples share a pre-image.
  lemma PreimageNeedsNulFreeContext()
    ensures exists kind, context, value, context', value' ::
      context != context' && value != value'
      && Preimage(kind, context, value) == Preimage(kind, context', value')
  {
    assert Preimage([1], [2, 0, 3], [4]) == Preimage([1], [2], [3, 0, 4]);
  }

  /** The kinds under which the engine hashes values. */
  datatype Tag = FlowTag | GrantTag | RefreshTag | StateTag | BindingTag | NonceTag | EmailCodeTag | BackupTag | ResetTag | EmailChangeTag

  function TagName(t: Tag): string {
    match t
    case FlowTag => "flow"
    case GrantTag => "grant"
    case RefreshTag => "refresh"
    case StateTag => "state"
    case BindingTag => "binding"
    case NonceTag => "nonce"
    case EmailCodeTag => "email"
    case BackupTag => "backup"
    case ResetTag => "reset"
    case EmailChangeTag => "email-change"
  }

  predicate IsAscii(s: string) {
    forall i | 0 <= i < |s| :: 0 < s[i] as int < 128
  }

  function Ascii(s: string): (b: Bytes)
    requires IsAscii(s)
    ensures |b| == |s| && NulFree(b)
    ensures forall i | 0 <= i < |s| :: b[i] as int == s[i] as int
  {
    if s == [] then [] else [s[0] as int as byte] + Ascii(s[1..])
  }

  /** A stored hash. Collision-freedom of the MAC is the one cryptographic assumption:
      a digest is its pre-image, which DomainsAreSeparate shows to determine tag, context and value. */
  datatype Digest = Digest(tag: Tag, context: Id, value: Id)

  lemma TagNamesAreAscii(t: Tag)
    ensures IsAscii(TagName(t))
  {
  }

  lemma DomainsAreSeparate(t: Tag, context: Bytes, value: Bytes, t': Tag, context': Bytes, value': Bytes)
    requires NulFree(context) && NulFree(context')
    ensures IsAscii(TagName(t)) && IsAscii(TagName(t'))
    ensures Preimage(Ascii(TagName(t)), context, value) == Preimage(Ascii(TagName(t')), context', value')
      <==> t == t' && context == context' && value == value'
  {
    TagNamesAreAscii(t);
    TagNamesAreAscii(t');
    PreimageInjective(Ascii(TagName(t)), context, value, Ascii(TagName(t')), context', value');
    AsciiInjective(TagName(t), TagName(t'));
    if TagName(t) == TagName(t') {
      TagNamesDiffer(t, t');
    }
  }

  lemma AsciiInjective(s: string, s': string)
    requires IsAscii(s) && IsAscii(s')
    ensures Ascii(s) == Ascii(s') <==> s == s'
  {
    var a, b := Ascii(s), Ascii(s');
    if a == b {
      assert forall i | 0 <= i < |s| :: a[i] as int == s[i] as int && b[i] as int == s'[i] as int;
    }
  }

  lemma TagNamesDiffer(t: Tag, t': Tag)
    requires TagName(t) == TagName(t')
    ensures t == t'
  {
    assert |TagName(t)| == |TagName(t')| && TagName(t)[0] == TagName(t')[0] && TagName(t)[2] == TagName(t')[2];
  }

  // ---------- one-time codes ----------

  // HMAC-SHA1 sums have twenty bytes.
  type Sum = s: Bytes | |s| == 20 witness seq(20, _ => 0)
  // The HMAC oracle: a key number and a message.
  type Mac = (Id, Bytes) -> Sum

  function BigEndian(n: nat, width: nat): (b: Bytes)
    ensures |b| == width
  {
    if width == 0 then [] else BigEndian(n / 256, width - 1) + [(n % 256) as byte]
  }

  function FromBigEndian(b: Bytes): nat {
    if b == [] then 0 else FromBigEndian(b[..|b| - 1]) * 256 + b[|b| - 1] as int
  }

  function Pow256(width: nat): (p: nat)
    ensures p > 0
  {
    if width == 0 then 1 else 256 * Pow256(width - 1)
  }

  // The counter that is hashed determines the moving factor.
  lemma {:induction false} BigEndianRoundTrip(n: nat, width: nat)
    requires n < Pow256(width)
    ensures FromBigEndian(BigEndian(n, width)) == n
  {
    if width > 0 {
      BigEndianRoundTrip(n / 256, width - 1);
      var b := BigEndian(n, width);
      assert b[..|b| - 1] == BigEndian(n / 256, width - 1);
    }
  }

  // Masking a byte with 15 and a 32-bit word with 0x7fffffff keeps the low bits.
  function Truncate(sum: Sum): (n: nat)
    ensures n < 0x8000_0000
  {
    var o := sum[19] as int % 16;
    FromBigEndian(sum[o..o + 4]) % 0x8000_0000
  }

  function Digit(n: nat): (c: char)
    requires n < 10
    ensures '0' <= c <= '9' && c as int - '0' as int == n
  {
    ('0' as int + n) as char
  }

  // "%06d"
  function SixDigits(n: nat): (s: string)
    requires n < 1_000_000
    ensures |s| == 6
  {
    [Digit(n / 100_000), Digit(n / 10_000 % 10), Digit(n / 1_000 % 10), Digit(n / 100 % 10), Digit(n / 10 % 10), Digit(n % 10)]
  }

  function Decimal(s: string): int
    requires |s| == 6
  {
    100_000 * (s[0] as int - 48) + 10_000 * (s[1] as int - 48) + 1_000 * (s[2] as int - 48)
    + 100 * (s[3] as int - 48) + 10 * (s[4] as int - 48) + (s[5] as int - 48)
  }

  // Distinct truncated values give distinct codes.
  lemma SixDigitsRoundTrip(n: nat)
    requires n < 1_000_000
    ensures Decimal(SixDigits(n)) == n
  {
    assert n == 10 * (n / 10) + n % 10;
    assert n / 10 == 10 * (n / 100) + n / 10 % 10;
    assert n / 100 == 10 * (n / 1_000) + n / 100 % 10;
    assert n / 1_000 == 10 * (n / 10_000) + n / 1_000 % 10;
    assert n / 10_000 == 10 * (n / 100_000) + n / 10_000 % 10;
  }

  function CodeAt(mac: Mac, key: Id, step: nat): (s: string)
    ensures |s| == 6
  {
    SixDigits(Truncate(mac(key, BigEndian(step, 8))) % 1_000_000)
  }

  // Seconds since the epoch, then Go's division, which truncates toward zero.
  function MovingFactor(now: Time): int {
    var unix := now / SECOND;
    if unix >= 0 then unix / 30 else -(-unix / 30)
  }

  predicate Matches(mac: Mac, key: Id, code: string, last: int, step: int) {
    step > last && step >= 0 && CodeAt(mac, key, step) == code
  }

  /** The accepted moving factor: the current one is tried first, then the one before, then the next. */
  function TotpStep(mac: Mac, key: Id, code: string, now: Time, last: int): (r: Option<nat>)
    ensures r.Some? ==> r.value > last
  {
    var t := MovingFactor(now);
    if Matches(mac, key, code, last, t) then Some(t)
    else if Matches(mac, key, code, last, t - 1) then Some(t - 1)
    else if Matches(mac, key, code, last, t + 1) then Some(t + 1)
    else None
  }

  predicate InWindow(step: int, now: Time) {
    -1 <= step - MovingFactor(now) <= 1
  }

  lemma TotpStepTries(mac: Mac, key: Id, code: string, now: Time, last: int, step: int)
    requires InWindow(step, now) && Matches(mac, key, code, last, step)
    ensures TotpStep(mac, key, code, now, last).Some?
  {
    hide Matches, MovingFactor;
  }

  lemma TotpStepReturns(mac: Mac, key: Id, code: string, now: Time, last: int)
    requires TotpStep(mac, key, code, now, last).Some?
    ensures var step := TotpStep(mac, key, code, now, last).value; InWindow(step, now) && Matches(mac, key, code, last, step)
  {
    hide CodeAt, MovingFactor;
  }

  // A code is accepted exactly when a factor of the window that was not used yet produces it,
  // and the factor returned is one of those.
  lemma TotpStepExact(mac: Mac, key: Id, code: string, now: Time, last: int)
    ensures TotpStep(mac, key, code, now, last).Some?
      <==> exists step :: InWindow(step, now) && Matches(mac, key, code, last, step)
    ensures var r := TotpStep(mac, key, code, now, last);
      r.Some? ==> InWindow(r.value, now) && Matches(mac, key, code, last, r.value)
  {
    if TotpStep(mac, key, code, now, last).Some? {
      TotpStepReturns(mac, key, code, now, last);
    }
    forall step | InWindow(step, now) && Matches(mac, key, code, last, step)
      ensures TotpStep(mac, key, code, now, last).Some?
    {
      TotpStepTries(mac, key, code, now, last, step);
    }
    hide *;
  }

  // Once a factor is recorded as used, its code can only pass again as the code of a later factor.
  lemma UsedFactorNotAcceptedAgain(mac: Mac, key: Id, code: string, now: Time, last: int, now': Time)
    requires TotpStep(mac, key, code, now, last).Some?
    ensures var step := TotpStep(mac, key, code, now, last).value;
      var again := TotpStep(mac, key, code, now', step);
      again.Some? ==> again.value > step > last && CodeAt(mac, key, again.value) == CodeAt(mac, key, step)
  {
    TotpStepExact(mac, key, code, now, last);
    TotpStepExact(mac, key, code, now', TotpStep(mac, key, code, now, last).value);
  }

  /** The loop of totpStep, with its early exit. */
  method FindTotpStep(mac: Mac, key: Id, code: string, now: Time, last: int) returns (r: Option<nat>)
    ensures r == TotpStep(mac, key, code, now, last)
  {
    hide CodeAt, SixDigits, Truncate, FromBigEndian, BigEndian, MovingFactor;
    if |code| != 6 {
      ShortCodeFails(mac, key, code, now, last);
      return None;
    }
    var current := MovingFactor(now);
    var candidates := [current, current - 1, current + 1];
    for i := 0 to |candidates|
      invariant i > 0 ==> !Matches(mac, key, code, last, current)
      invariant i > 1 ==> !Matches(mac, key, code, last, current - 1)
      invariant i > 2 ==> !Matches(mac, key, code, last, current + 1)
    {
      var step := candidates[i];
      if step <= last || step < 0 {
        continue;
      }
      var sum := mac(key, BigEndian(step, 8));
      var o := sum[|sum| - 1] as int % 16;
      var n := FromBigEndian(sum[o..o + 4]) % 0x8000_0000;
      CodeInline(mac, key, step, sum, o);
      if SixDigits(n % 1_000_000) == code {
        return Some(step);
      }
    }
    hide Matches;
    return None;
  }

  lemma ShortCodeFails(mac: Mac, key: Id, code: string, now: Time, last: int)
    requires |code| != 6
    ensures TotpStep(mac, key, code, now, last) == None
  {
    hide Truncate, FromBigEndian, BigEndian, MovingFactor;
  }

  lemma CodeInline(mac: Mac, key: Id, step: nat, sum: Bytes, o: int)
    requires sum == mac(key, BigEndian(step, 8)) && |sum| == 20 && o == sum[|sum| - 1] as int % 16
    ensures CodeAt(mac, key, step) == SixDigits(FromBigEndian(sum[o..o + 4]) % 0x8000_0000 % 1_000_000)
  {
    hide SixDigits, FromBigEndian, BigEndian;
  }
}
