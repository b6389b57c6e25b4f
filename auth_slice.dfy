/**
 * The client's `auth` slice: the signed-in user and token, the flags of the
 * sign-up flow, and the session restored from browser storage. Each reducer is
 * a method that changes the slice in place; the values read from storage are
 * parameters.
 */
module AuthSlice {
  import opened Common
  import opened Lists

  /** What a register, login or OTP verification returns: `{ user, token }`. */
  datatype Session = Session(user: Json, token: string)

  /** JavaScript truthiness of a stored token: present and non-empty. */
  predicate Truthy(token: Option<string>) {
    token.Some? && token.value != ""
  }

  /** `s.includes(part)`. */
  predicate Contains(s: string, part: string)
    decreases |s|
  {
    |part| <= |s| && (s[..|part|] == part || (|s| > 0 && Contains(s[1..], part)))
  }

  /** The substring occurs at position i. */
  predicate OccursAt(s: string, part: string, i: nat) {
    i + |part| <= |s| && s[i..i + |part|] == part
  }

  /** An occurrence at position i makes `Contains` hold. */
  lemma {:induction false} ContainsAt(s: string, part: string, i: nat)
    requires OccursAt(s, part, i)
    ensures Contains(s, part)
    decreases i
  {
    if i > 0 {
      assert s[1..][i - 1..i - 1 + |part|] == part;
      ContainsAt(s[1..], part, i - 1);
    }
  }

  /** Without an occurrence anywhere, `Contains` fails. */
  lemma {:induction false} NotContains(s: string, part: string)
    requires forall i: nat :: !OccursAt(s, part, i)
    ensures !Contains(s, part)
    decreases |s|
  {
    if |part| <= |s| {
      assert !OccursAt(s, part, 0);
      assert s[..|part|] == s[0..|part|];
      if |s| > 0 {
        forall i: nat
          ensures !OccursAt(s[1..], part, i)
        {
          assert !OccursAt(s, part, i + 1);
          if i + |part| <= |s| - 1 {
            assert s[1..][i..i + |part|] == s[i + 1..i + 1 + |part|];
          }
        }
        NotContains(s[1..], part);
      }
    }
  }

  /** The test of `getProfile.rejected`: the message mentions a token or authorization. */
  predicate EndsSession(message: string) {
    Contains(message, "token") || Contains(message, "authorized")
  }

  /** An expired-token message and a bare "Unauthorized" both end the session. */
  lemma SessionEndingMessages()
    ensures EndsSession("Not authorized, token failed")
    ensures EndsSession("Unauthorized")
  {
    ContainsAt("Not authorized, token failed", "token", 16);
    assert "Unauthorized"[2..12] == "authorized";
    ContainsAt("Unauthorized", "authorized", 2);
  }

  /** A message in which the first letter of a word never occurs does not contain that word. */
  lemma MissingFirstLetter(s: string, part: string)
    requires |part| > 0 && forall k :: 0 <= k < |s| ==> s[k] != part[0]
    ensures !Contains(s, part)
  {
    forall i: nat
      ensures !OccursAt(s, part, i)
    {
      if i + |part| <= |s| {
        assert s[i..i + |part|][0] == s[i];
      }
    }
    NotContains(s, part);
  }

  /** A server error about the booking data keeps the session. */
  lemma OtherFailuresKeepSession()
    ensures !EndsSession("Server error")
  {
    MissingFirstLetter("Server error", "token");
    MissingFirstLetter("Server error", "authorized");
  }

  class AuthState {
    var user: Option<Json>
    var token: Option<string>
    var isLoading: bool
    var isAuthenticated: bool
    var otpSent: bool
    var registrationData: Option<Json>
    var error: Option<string>

    /** Being signed in implies holding a token. */
    predicate SessionConsistent()
      reads this
    {
      isAuthenticated ==> token.Some?
    }

    /** The slice's `initialState`, read from storage: signed in iff a token is stored. */
    constructor (storedToken: Option<string>, storedUser: Option<Json>)
      ensures user == storedUser && token == storedToken
      ensures isAuthenticated <==> Truthy(storedToken)
      ensures !isLoading && !otpSent && registrationData == None && error == None
      ensures SessionConsistent()
    {
      user := storedUser;
      token := storedToken;
      isLoading := false;
      isAuthenticated := Truthy(storedToken);
      otpSent := false;
      registrationData := None;
      error := None;
    }

    /** `initializeAuth`: adopt the stored session only when both a token and a user are stored. */
    method InitializeAuth(storedToken: Option<string>, storedUser: Option<Json>)
      modifies this
      ensures Truthy(storedToken) && storedUser.Some? ==>
                token == storedToken && user == storedUser && isAuthenticated
      ensures !(Truthy(storedToken) && storedUser.Some?) ==>
                token == old(token) && user == old(user) && isAuthenticated == old(isAuthenticated)
      ensures isLoading == old(isLoading) && otpSent == old(otpSent)
      ensures registrationData == old(registrationData) && error == old(error)
      ensures old(SessionConsistent()) ==> SessionConsistent()
    {
      if Truthy(storedToken) && storedUser.Some? {
        token := storedToken;
        user := storedUser;
        isAuthenticated := true;
      }
    }

    /** `clearError`. */
    method ClearError()
      modifies this
      ensures error == None
      ensures user == old(user) && token == old(token) && isLoading == old(isLoading)
      ensures isAuthenticated == old(isAuthenticated) && otpSent == old(otpSent)
      ensures registrationData == old(registrationData)
    {
      error := None;
    }

    /** `clearOtpSent`. */
    method ClearOtpSent()
      modifies this
      ensures !otpSent
      ensures user == old(user) && token == old(token) && isLoading == old(isLoading)
      ensures isAuthenticated == old(isAuthenticated) && registrationData == old(registrationData)
      ensures error == old(error)
    {
      otpSent := false;
    }

    /** `setRegistrationData` (`data` given) and `clearRegistrationData` (`None`). */
    method SetRegistrationData(data: Option<Json>)
      modifies this
      ensures registrationData == data
      ensures user == old(user) && token == old(token) && isLoading == old(isLoading)
      ensures isAuthenticated == old(isAuthenticated) && otpSent == old(otpSent) && error == old(error)
    {
      registrationData := data;
    }

    /** The `pending` case of register, login, verifyOTP, resendOTP, updateProfile and changePassword. */
    method RequestPending()
      modifies this
      ensures isLoading && error == None
      ensures user == old(user) && token == old(token) && isAuthenticated == old(isAuthenticated)
      ensures otpSent == old(otpSent) && registrationData == old(registrationData)
    {
      isLoading := true;
      error := None;
    }

    /** `getProfile.pending`, which leaves the error in place. */
    method ProfilePending()
      modifies this
      ensures isLoading
      ensures user == old(user) && token == old(token) && isAuthenticated == old(isAuthenticated)
      ensures otpSent == old(otpSent) && registrationData == old(registrationData) && error == old(error)
    {
      isLoading := true;
    }

    /**
     * `register.fulfilled`, `login.fulfilled` and `verifyOTP.fulfilled`, which
     * are the same reducer: the returned session is signed in and the sign-up
     * flow is reset.
     */
    method SignedIn(s: Session)
      modifies this
      ensures user == Some(s.user) && token == Some(s.token) && isAuthenticated
      ensures !isLoading && !otpSent && registrationData == None
      ensures error == old(error)
      ensures SessionConsistent()
    {
      isLoading := false;
      user := Some(s.user);
      token := Some(s.token);
      isAuthenticated := true;
      otpSent := false;
      registrationData := None;
    }

    /** `register.rejected` and `login.rejected`: signed out, but user and token are left in place. */
    method SignInRejected(message: string)
      modifies this
      ensures !isLoading && error == Some(message) && !isAuthenticated
      ensures user == old(user) && token == old(token)
      ensures otpSent == old(otpSent) && registrationData == old(registrationData)
      ensures SessionConsistent()
    {
      isLoading := false;
      error := Some(message);
      isAuthenticated := false;
    }

    /**
     * The `rejected` case of verifyOTP, resendOTP, updateProfile and
     * changePassword: the signed-in state is not touched.
     */
    method RequestRejected(message: string)
      modifies this
      ensures !isLoading && error == Some(message)
      ensures user == old(user) && token == old(token) && isAuthenticated == old(isAuthenticated)
      ensures otpSent == old(otpSent) && registrationData == old(registrationData)
    {
      isLoading := false;
      error := Some(message);
    }

    /** `resendOTP.fulfilled`. */
    method OtpResent()
      modifies this
      ensures !isLoading && otpSent
      ensures user == old(user) && token == old(token) && isAuthenticated == old(isAuthenticated)
      ensures registrationData == old(registrationData) && error == old(error)
    {
      isLoading := false;
      otpSent := true;
    }

    /** `getProfile.fulfilled` and `updateProfile.fulfilled`: the returned user replaces the held one. */
    method ProfileReceived(u: Json)
      modifies this
      ensures !isLoading && user == Some(u)
      ensures token == old(token) && isAuthenticated == old(isAuthenticated)
      ensures otpSent == old(otpSent) && registrationData == old(registrationData) && error == old(error)
    {
      isLoading := false;
      user := Some(u);
    }

    /** `changePassword.fulfilled`. */
    method PasswordChanged()
      modifies this
      ensures !isLoading
      ensures user == old(user) && token == old(token) && isAuthenticated == old(isAuthenticated)
      ensures otpSent == old(otpSent) && registrationData == old(registrationData) && error == old(error)
    {
      isLoading := false;
    }

    /** `getProfile.rejected`: the session is dropped exactly when the message is about the token or authorization. */
    method ProfileRejected(message: string)
      modifies this
      ensures !isLoading && error == Some(message)
      ensures EndsSession(message) ==> user == None && token == None && !isAuthenticated
      ensures !EndsSession(message) ==>
                user == old(user) && token == old(token) && isAuthenticated == old(isAuthenticated)
      ensures otpSent == old(otpSent) && registrationData == old(registrationData)
      ensures old(SessionConsistent()) ==> SessionConsistent()
    {
      isLoading := false;
      error := Some(message);
      if Contains(message, "token") || Contains(message, "authorized") {
        user := None;
        token := None;
        isAuthenticated := false;
      }
    }

    /** `logout.fulfilled`: every session field back to signed out. */
    method LoggedOut()
      modifies this
      ensures user == None && token == None && !isAuthenticated && !isLoading
      ensures error == None && !otpSent && registrationData == None
      ensures SessionConsistent()
    {
      user := None;
      token := None;
      isAuthenticated := false;
      isLoading := false;
      error := None;
      otpSent := false;
      registrationData := None;
    }
  }
}
