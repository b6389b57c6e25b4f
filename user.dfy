/**
 * A user account: the schema's constraints on phone, password and role, and
 * the one-time password that `generateOTP`, `verifyOTP` and `clearOTP` issue,
 * check and discard. The random draw and the clock are parameters.
 */
module Users {
  import opened Common
  import opened Clock

  datatype Role = UserRole | FacilityOwner | Admin

  /** The string the schema stores for a role. */
  function RoleName(r: Role): string {
    match r
    case UserRole => "user"
    case FacilityOwner => "facilityOwner"
    case Admin => "admin"
  }

  /** The role enum: exactly the three names are accepted. */
  function ParseRole(text: string): (r: Option<Role>)
    ensures r.Some? ==> RoleName(r.value) == text
    ensures r.None? <==> text != "user" && text != "facilityOwner" && text != "admin"
  {
    if text == "user" then Some(UserRole)
    else if text == "facilityOwner" then Some(FacilityOwner)
    else if text == "admin" then Some(Admin)
    else None
  }

  /** `^\d{10}$`: exactly ten ASCII digits. */
  predicate ValidPhone(phone: string) {
    |phone| == 10 && forall i :: 0 <= i < |phone| ==> IsDigit(phone[i])
  }

  /** `minlength: 6`. */
  predicate ValidPassword(password: string) {
    |password| >= 6
  }

  datatype UserField = PasswordField | PhoneField | RoleField

  /** The fields a save rejects, for the three constrained fields. */
  function SchemaErrors(password: string, phone: string, role: string): (errs: set<UserField>)
    ensures PasswordField in errs <==> |password| < 6
    ensures PhoneField in errs <==> !ValidPhone(phone)
    ensures RoleField in errs <==> ParseRole(role).None?
    ensures errs <= {PasswordField, PhoneField, RoleField}
  {
    (if ValidPassword(password) then {} else {PasswordField}) +
    (if ValidPhone(phone) then {} else {PhoneField}) +
    (if ParseRole(role).Some? then {} else {RoleField})
  }

  /** A nine-digit string is refused as a phone number, and so is a ten-character one with a dash. */
  lemma PhoneNeedsTenDigits()
    ensures !ValidPhone("987654321") && !ValidPhone("98765-4321") && ValidPhone("9876543210")
  {
    assert !IsDigit("98765-4321"[5]);
  }

  // ---------------------------------------------------------------------------
  // decimal rendering of numbers: `Number.prototype.toString()`
  // ---------------------------------------------------------------------------

  function Pow10(k: nat): (p: nat)
    ensures p >= 1
  {
    if k == 0 then 1 else 10 * Pow10(k - 1)
  }

  predicate AllDigits(s: string) {
    forall i :: 0 <= i < |s| ==> IsDigit(s[i])
  }

  /** The decimal digits of `n`, without leading zeros. */
  function DecimalString(n: nat): (s: string)
    ensures |s| >= 1 && AllDigits(s)
    ensures n > 0 ==> s[0] != '0'
    decreases n
  {
    if n < 10 then [DigitChar(n)]
    else
      var s := DecimalString(n / 10) + [DigitChar(n % 10)];
      assert s[0] == DecimalString(n / 10)[0];
      s
  }

  /** The value a string of digits denotes. */
  function ParseDecimal(s: string): nat
    requires AllDigits(s)
    decreases |s|
  {
    if |s| == 0 then 0 else 10 * ParseDecimal(s[..|s| - 1]) + DigitValue(s[|s| - 1])
  }

  /** Rendering a number and reading it back gives the number. */
  lemma {:induction false} DecimalRoundTrip(n: nat)
    ensures ParseDecimal(DecimalString(n)) == n
    decreases n
  {
    var s := DecimalString(n);
    if n >= 10 {
      DecimalRoundTrip(n / 10);
      assert s[..|s| - 1] == DecimalString(n / 10);
    } else {
      assert s[..0] == [];
    }
  }

  /** A number with k + 1 digits renders as k + 1 characters. */
  lemma {:induction false} DecimalLength(n: nat, k: nat)
    requires Pow10(k) <= n < Pow10(k + 1)
    ensures |DecimalString(n)| == k + 1
    decreases k
  {
    if k > 0 {
      assert n >= 10;
      assert Pow10(k - 1) <= n / 10 < Pow10(k);
      DecimalLength(n / 10, k - 1);
    }
  }

  // ---------------------------------------------------------------------------
  // one-time passwords
  // ---------------------------------------------------------------------------

  /** `10 * 60 * 1000`: an OTP lives ten minutes. */
  const OtpLifetimeMs: int := 600000

  /** `Math.floor(100000 + draw * 900000)` for a draw of `Math.random()`. */
  function OtpNumber(draw: real): (n: nat)
    requires 0.0 <= draw < 1.0
    ensures 100000 <= n <= 999999
  {
    (100000.0 + draw * 900000.0).Floor
  }

  /** The issued code: `.toString()` of the number, always six digits without a leading zero. */
  function OtpCode(draw: real): (code: string)
    requires 0.0 <= draw < 1.0
    ensures |code| == 6 && AllDigits(code) && code[0] != '0'
    ensures ParseDecimal(code) == OtpNumber(draw)
  {
    var n := OtpNumber(draw);
    assert Pow10(5) == 100000 && Pow10(6) == 1000000;
    DecimalLength(n, 5);
    DecimalRoundTrip(n);
    DecimalString(n)
  }

  /** The account fields the OTP methods and the admin status update touch. */
  class User {
    const id: Id
    var password: string
    var phone: string
    var role: Role
    var isActive: bool
    var otp: Option<string>
    var otpExpires: Option<int>

    constructor (id: Id, password: string, phone: string, role: Role)
      ensures this.id == id && this.password == password && this.phone == phone && this.role == role
      ensures isActive && otp == None && otpExpires == None
    {
      this.id := id;
      this.password := password;
      this.phone := phone;
      this.role := role;
      isActive := true;
      otp := None;
      otpExpires := None;
    }

    /** `user.verifyOTP(x)` at time `now`: the stored code is `x` and it has not expired. */
    predicate VerifyOtp(x: string, now: int)
      reads this
    {
      otp == Some(x) && otpExpires.Some? && otpExpires.value > now
    }

    /**
     * `user.generateOTP()` at time `now` with `draw` from `Math.random()`: store
     * and return a six-digit code that verifies until ten minutes later and
     * not from then on.
     */
    method GenerateOtp(draw: real, now: int) returns (code: string)
      requires 0.0 <= draw < 1.0
      modifies this
      ensures code == OtpCode(draw) && 100000 <= ParseDecimal(code) <= 999999
      ensures otp == Some(code) && otpExpires == Some(now + OtpLifetimeMs)
      ensures forall x, t :: VerifyOtp(x, t) <==> x == code && t < now + OtpLifetimeMs
      ensures password == old(password) && phone == old(phone) && role == old(role) && isActive == old(isActive)
    {
      code := DecimalString(OtpNumber(draw));
      otp := Some(code);
      otpExpires := Some(now + 10 * 60 * 1000);
    }

    /** `user.clearOTP()`: afterwards no code verifies at any time. */
    method ClearOtp()
      modifies this
      ensures otp == None && otpExpires == None
      ensures forall x, t :: !VerifyOtp(x, t)
      ensures password == old(password) && phone == old(phone) && role == old(role) && isActive == old(isActive)
    {
      otp := None;
      otpExpires := None;
    }
  }
}
