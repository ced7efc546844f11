/**
 * Admin authentication helpers: the session-token hash, the password check
 * against the configured admin password, and the session cookie.
 *
 * JavaScript numbers are written out: the hash is kept as a mathematical
 * integer and every wrap to a signed 32-bit value is the explicit `ToInt32`.
 * The cookie jar is a map from cookie names to values; the clock and the
 * random UUID are parameters.
 */
module Admin {
  import opened Common

  const TwoTo31: int := 0x8000_0000
  const TwoTo32: int := 0x1_0000_0000

  /** ECMAScript's ToInt32 on an integral value: the representative of `x`
      modulo 2^32 in [-2^31, 2^31). */
  function ToInt32(x: int): (r: int)
    ensures -TwoTo31 <= r < TwoTo31
    ensures (x - r) % TwoTo32 == 0
  {
    (x + TwoTo31) % TwoTo32 - TwoTo31
  }

  /** ToInt32 only depends on its argument modulo 2^32. */
  lemma ToInt32Congruent(x: int, k: int)
    ensures ToInt32(x + TwoTo32 * k) == ToInt32(x)
  {
  }

  /** A UTF-16 code unit, what `charCodeAt` returns. */
  newtype CodeUnit = x: int | 0 <= x < 0x1_0000

  /** One step of the loop as written: `(hash << 5)` wraps `32·hash` to 32
      bits, then `- hash + char` is exact, then `hash & hash` wraps again. */
  function HashStep(hash: int, c: CodeUnit): int
  {
    ToInt32(ToInt32(hash * 32) - hash + c as int)
  }

  /** The two wraps of a step amount to one: the step is `31·hash + c`
      wrapped to signed 32 bits. */
  lemma HashStepIsPolynomialStep(hash: int, c: CodeUnit)
    ensures HashStep(hash, c) == ToInt32(31 * hash + c as int)
  {
    var w := ToInt32(hash * 32);
    var k := (hash * 32 - w) / TwoTo32;
    assert w == hash * 32 - TwoTo32 * k;
    ToInt32Congruent(31 * hash + c as int, -k);
    assert 31 * hash + c as int + TwoTo32 * -k == w - hash + c as int;
  }

  /** The hash of the code units, step by step from 0. */
  function HashOf(codes: seq<CodeUnit>): int
  {
    if |codes| == 0 then 0 else HashStep(HashOf(codes[..|codes| - 1]), codes[|codes| - 1])
  }

  /** The unwrapped polynomial: the sum of `c_i · 31^(n-1-i)`. */
  function Polynomial(codes: seq<CodeUnit>): int
  {
    if |codes| == 0 then 0 else 31 * Polynomial(codes[..|codes| - 1]) + codes[|codes| - 1] as int
  }

  /** The loop computes the polynomial hash modulo 2^32, as a signed value. */
  lemma {:induction false} HashOfIsWrappedPolynomial(codes: seq<CodeUnit>)
    ensures HashOf(codes) == ToInt32(Polynomial(codes))
  {
    if |codes| > 0 {
      var init := codes[..|codes| - 1];
      var c := codes[|codes| - 1];
      HashOfIsWrappedPolynomial(init);
      var p := Polynomial(init);
      var h := ToInt32(p);
      var k := (p - h) / TwoTo32;
      assert h == p - TwoTo32 * k;
      HashStepIsPolynomialStep(h, c);
      ToInt32Congruent(31 * h + c as int, 31 * k);
      assert 31 * h + c as int + TwoTo32 * (31 * k) == 31 * p + c as int;
    }
  }

  /** `hashToken`'s loop: the value of `hash` after the last code unit. */
  method HashLoop(codes: seq<CodeUnit>) returns (hash: int)
    ensures hash == HashOf(codes)
    ensures -TwoTo31 <= hash < TwoTo31
    ensures |codes| == 0 ==> hash == 0
  {
    hash := 0;
    for i := 0 to |codes|
      invariant hash == HashOf(codes[..i])
      invariant -TwoTo31 <= hash < TwoTo31
    {
      assert codes[..i + 1][..i] == codes[..i];
      hash := ToInt32(ToInt32(hash * 32) - hash + codes[i] as int);
    }
    assert codes[..|codes|] == codes;
  }

  /** The digits `Number.prototype.toString(36)` uses. */
  function Digit36(d: nat): (c: char)
    requires d < 36
  {
    if d < 10 then '0' + d as char else 'a' + (d - 10) as char
  }

  predicate IsDigit36(c: char)
  {
    '0' <= c <= '9' || 'a' <= c <= 'z'
  }

  function DigitValue36(c: char): (d: nat)
    requires IsDigit36(c)
    ensures d < 36
  {
    if c <= '9' then (c - '0') as nat else (c - 'a') as nat + 10
  }

  /** `n.toString(36)` for a non-negative integer. */
  function Base36(n: nat): (s: string)
    ensures |s| >= 1
    ensures forall k :: 0 <= k < |s| ==> IsDigit36(s[k])
  {
    var last := [Digit36(n % 36)];
    if n < 36 then last else Base36(n / 36) + last
  }

  /** Reading base-36 digits back. */
  function FromBase36(s: string): nat
    requires forall k :: 0 <= k < |s| ==> IsDigit36(s[k])
  {
    if |s| == 0 then 0 else 36 * FromBase36(s[..|s| - 1]) + DigitValue36(s[|s| - 1])
  }

  /** The digits are a faithful representation: reading them gives back n. */
  lemma {:induction false} Base36RoundTrip(n: nat)
    ensures FromBase36(Base36(n)) == n
  {
    var s := Base36(n);
    assert s[..|s| - 1] == (if n < 36 then [] else Base36(n / 36));
    if n >= 36 {
      Base36RoundTrip(n / 36);
    }
  }

  function Abs(x: int): nat
  {
    if x < 0 then -x else x
  }

  /** `hashToken(input)`: base 36 of the hash's magnitude (not wrapped again,
      so -2^31 gives 2^31), then base 36 of the current time in ms. */
  function HashToken(codes: seq<CodeUnit>, now: nat): string
  {
    Base36(Abs(HashOf(codes))) + Base36(now)
  }

  /** The token is non-empty, has no minus sign and starts with the digits
      of the hash's magnitude, which is at most 2^31. */
  lemma HashTokenSpec(codes: seq<CodeUnit>, now: nat)
    ensures var t := HashToken(codes, now);
      && t != ""
      && (forall k :: 0 <= k < |t| ==> IsDigit36(t[k]) && t[k] != '-')
      && Base36(Abs(HashOf(codes))) <= t
      && FromBase36(Base36(Abs(HashOf(codes)))) <= TwoTo31
  {
    Base36RoundTrip(Abs(HashOf(codes)));
  }

  /** `verifyAdminPassword`: always false when no admin password is
      configured (unset or empty); otherwise exact equality. */
  function VerifyAdminPassword(password: string, adminPassword: Option<string>): (ok: bool)
    ensures !Truthy(adminPassword) ==> !ok
    ensures Truthy(adminPassword) ==> (ok <==> password == adminPassword.value)
  {
    if !Truthy(adminPassword) then false else password == adminPassword.value
  }

  /** A configured password is accepted only by itself, and then the
      attempt was not empty. */
  lemma VerifyAdminPasswordOnlyExact(password: string, adminPassword: Option<string>)
    ensures VerifyAdminPassword(password, adminPassword) ==> Some(password) == adminPassword && password != ""
  {
  }

  const AdminCookieName: string := "tasern_admin_session"
  const SessionDurationMs: nat := 24 * 60 * 60 * 1000

  datatype SameSite = Strict | Lax | NoRestriction

  datatype CookieOptions = CookieOptions(httpOnly: bool, secure: bool, sameSite: SameSite, maxAge: nat, path: string)

  datatype Cookie = Cookie(name: string, value: string, options: CookieOptions)

  /** The cookie `createAdminSession` sets: the hashed random UUID, for one
      day, http-only, same-site strict, and secure only in production. */
  function SessionCookie(uuid: seq<CodeUnit>, now: nat, nodeEnv: Option<string>): (c: Cookie)
    ensures c.name == AdminCookieName && c.value == HashToken(uuid, now)
    ensures c.options.maxAge == 86400 && c.options.httpOnly && c.options.sameSite == Strict
    ensures c.options.secure <==> nodeEnv == Some("production")
    ensures c.options.path == "/"
  {
    Cookie(AdminCookieName, HashToken(uuid, now),
           CookieOptions(true, nodeEnv == Some("production"), Strict, SessionDurationMs / 1000, "/"))
  }

  /** `verifyAdminSession` and `verifyAdminRequest`: the admin cookie is
      present with a non-empty value. */
  predicate HasAdminSession(jar: map<string, string>)
  {
    AdminCookieName in jar && jar[AdminCookieName] != ""
  }

  function SetCookie(jar: map<string, string>, c: Cookie): map<string, string>
  {
    jar[c.name := c.value]
  }

  /** `clearAdminSession`. */
  function ClearAdminSession(jar: map<string, string>): map<string, string>
  {
    jar - {AdminCookieName}
  }

  /** Setting the session cookie makes the session valid; clearing it makes it
      invalid; neither touches any other cookie. */
  lemma SessionLifecycle(jar: map<string, string>, uuid: seq<CodeUnit>, now: nat, nodeEnv: Option<string>)
    ensures HasAdminSession(SetCookie(jar, SessionCookie(uuid, now, nodeEnv)))
    ensures !HasAdminSession(ClearAdminSession(jar))
    ensures forall n :: n in jar && n != AdminCookieName ==>
      n in SetCookie(jar, SessionCookie(uuid, now, nodeEnv)) && SetCookie(jar, SessionCookie(uuid, now, nodeEnv))[n] == jar[n] &&
      n in ClearAdminSession(jar) && ClearAdminSession(jar)[n] == jar[n]
  {
    HashTokenSpec(uuid, now);
  }
}
