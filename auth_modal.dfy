/** The sign-in / sign-up modal of static/portal.js (lines 69-383) as the
    page runs it: the module variables and form fields are fields of one
    controller object, each role panel is an object whose chips are an
    array of "active" flags, and the OTP slots are an array of strings. Every
    event handler is a method whose effect is stated as the matching
    transition of `AuthFlow` applied to the controller's `State()`. */
module AuthModal {
  import opened Wrappers
  import opened Strings
  import AuthFlow

  /** A role panel: `dataset.role` and its chips, which `setPanelRole`
      rewrites in place. */
  class RolePanel {
    var role: string
    const chipRoles: seq<string>
    const chips: array<bool>

    ghost predicate Valid()
      reads this
    {
      chips.Length == |chipRoles|
    }

    /** The panel as the transition system sees it. */
    ghost function Snapshot(): AuthFlow.Panel
      reads this, chips
    {
      AuthFlow.Panel(role, chipRoles, chips[..])
    }

    /** A panel as the markup has it: no role yet, no chip active. */
    constructor (chipRoles: seq<string>)
      ensures Valid() && fresh(chips)
      ensures Snapshot() == AuthFlow.Panel("", chipRoles, seq(|chipRoles|, _ => false))
    {
      this.chipRoles := chipRoles;
      chips := new bool[|chipRoles|](_ => false);
      role := "";
    }

    /** `setPanelRole(panel, role)`: each chip is made active iff its
        `data-role` is `r`, then the panel's role is set. */
    method SetPanelRole(r: string)
      requires Valid()
      modifies this, chips
      ensures Valid()
      ensures Snapshot() == AuthFlow.WithRole(old(Snapshot()), r)
    {
      for i := 0 to chips.Length
        invariant forall k :: 0 <= k < i ==> chips[k] == (chipRoles[k] == r)
      {
        chips[i] := chipRoles[i] == r;
      }
      role := r;
    }
  }

  class AuthModalController {
    var intentRole: string
    var authMode: AuthFlow.Mode
    var shownTab: AuthFlow.Mode
    var otpShown: bool
    var listening: bool
    var focus: Option<nat>
    var loginEmail: string
    var loginPass: string
    var suName: string
    var suEmail: string
    var suPass: string
    var suPass2: string
    const panelIn: RolePanel
    const panelUp: RolePanel
    const otpInputs: array<string>

    /** The two panels are distinct objects with their own chips. */
    ghost predicate Valid()
      reads this, panelIn, panelUp
    {
      panelIn != panelUp && panelIn.chips != panelUp.chips && panelIn.Valid() && panelUp.Valid()
    }

    /** The page state as the transition system sees it. */
    ghost function State(): AuthFlow.Modal
      reads this, panelIn, panelUp, panelIn.chips, panelUp.chips, otpInputs
    {
      AuthFlow.Modal(intentRole, authMode, shownTab, panelIn.Snapshot(), panelUp.Snapshot(),
                     otpInputs[..], focus, otpShown, listening,
                     loginEmail, loginPass, suName, suEmail, suPass, suPass2)
    }

    /** `initAuthModal()`: both panels set to 'candidate'. */
    constructor (inChips: seq<string>, upChips: seq<string>, slotCount: nat)
      ensures Valid()
      ensures fresh(panelIn) && fresh(panelUp) && fresh(panelIn.chips) && fresh(panelUp.chips) && fresh(otpInputs)
      ensures State() == AuthFlow.Initial(inChips, upChips, slotCount)
    {
      panelIn := new RolePanel(inChips);
      panelUp := new RolePanel(upChips);
      otpInputs := new string[slotCount](_ => "");
      intentRole := "candidate";
      authMode := AuthFlow.Login;
      shownTab := AuthFlow.Login;
      otpShown, listening, focus := false, false, None;
      loginEmail, loginPass, suName, suEmail, suPass, suPass2 := "", "", "", "", "", "";
      new;
      panelIn.SetPanelRole("candidate");
      panelUp.SetPanelRole("candidate");
      assert otpInputs[..] == AuthFlow.Blank(slotCount);
    }

    /** `setActiveTab(mode)`. */
    method SetActiveTab(mode: string)
      modifies this
      ensures State() == AuthFlow.SetActiveTab(old(State()), mode)
    {
      authMode := if mode == "signup" then AuthFlow.Signup else AuthFlow.Login;
      shownTab := authMode;
    }

    /** `openModalForRole(role)`. */
    method OpenModalForRole(role: string)
      requires Valid()
      modifies this, panelIn, panelUp, panelIn.chips, panelUp.chips
      ensures Valid()
      ensures State() == AuthFlow.OpenModalForRole(old(State()), role)
    {
      intentRole := if role != "" then role else "candidate";
      SetActiveTab("login");
      panelIn.SetPanelRole(intentRole);
      panelUp.SetPanelRole(intentRole);
    }

    /** A click on chip `idx` of the login or the sign-up panel. */
    method ClickChip(w: AuthFlow.Which, idx: nat)
      requires Valid()
      requires idx < |(if w == AuthFlow.PanelIn then panelIn else panelUp).chipRoles|
      modifies panelIn, panelUp, panelIn.chips, panelUp.chips
      ensures Valid()
      ensures State() == AuthFlow.ClickChip(old(State()), w, idx)
    {
      if w == AuthFlow.PanelIn {
        panelIn.SetPanelRole(panelIn.chipRoles[idx]);
      } else {
        panelUp.SetPanelRole(panelUp.chipRoles[idx]);
      }
    }

    /** The user types into a form field. */
    method Edit(f: AuthFlow.Field, v: string)
      modifies this
      ensures State() == AuthFlow.Edit(old(State()), f, v)
    {
      match f
      case LoginEmail => loginEmail := v;
      case LoginPass => loginPass := v;
      case SignupName => suName := v;
      case SignupEmail => suEmail := v;
      case SignupPass => suPass := v;
      case SignupPass2 => suPass2 := v;
    }

    /** `setupOtpInputs()`: every slot is cleared and the listeners are
        attached. */
    method SetupOtpInputs()
      modifies this, otpInputs
      ensures State() == AuthFlow.SetupOtpInputs(old(State()))
    {
      for i := 0 to otpInputs.Length
        modifies otpInputs
        invariant forall k :: 0 <= k < i ==> otpInputs[k] == ""
      {
        otpInputs[i] := "";
      }
      listening := true;
      assert otpInputs[..] == AuthFlow.Blank(otpInputs.Length);
    }

    /** `otpInputs[0]?.focus()`. */
    method FocusFirst()
      modifies this
      ensures State() == AuthFlow.FocusFirst(old(State()))
    {
      if otpInputs.Length > 0 {
        focus := Some(0);
      }
    }

    /** The `input` event of slot `i`, whose value is now `v`. */
    method InputSlot(i: nat, v: string)
      requires i < otpInputs.Length
      modifies this, otpInputs
      ensures State() == AuthFlow.InputSlot(old(State()), i, v)
    {
      otpInputs[i] := v;
      if listening && v != "" && i < otpInputs.Length - 1 {
        focus := Some(i + 1);
      }
    }

    /** The `keydown` event of slot `i`. */
    method KeyDown(i: nat, key: string)
      requires i < otpInputs.Length
      modifies this
      ensures State() == AuthFlow.KeyDown(old(State()), i, key)
    {
      if listening && key == "Backspace" && otpInputs[i] == "" && i > 0 {
        focus := Some(i - 1);
      }
    }

    /** `getOtpCode()`: the slot values joined in order. */
    method GetOtpCode() returns (code: string)
      ensures code == Concat(otpInputs[..])
      ensures code == AuthFlow.Code(State())
    {
      code := "";
      for i := 0 to otpInputs.Length
        invariant code == Concat(otpInputs[..i])
      {
        ConcatSnoc(otpInputs[..], i);
        assert otpInputs[..][..i + 1] == otpInputs[..i + 1];
        code := code + otpInputs[i];
      }
      assert otpInputs[..otpInputs.Length] == otpInputs[..];
    }

    /** The success tail of send, resend and sign up. */
    method ShowOtp()
      modifies this, otpInputs
      ensures State() == AuthFlow.ShowOtp(old(State()))
    {
      otpShown := true;
      SetupOtpInputs();
      FocusFirst();
    }

    /** The "Send OTP" button with the server's reply. */
    method SendOtp(reply: AuthFlow.Reply) returns (request: Option<AuthFlow.StartRequest>, toast: AuthFlow.Toast)
      modifies this, otpInputs
      ensures var r := AuthFlow.SendOtp(old(State()), reply);
        State() == r.state && request == r.request && toast == r.toast
    {
      ghost var s0 := State();
      var email, password := Trim(loginEmail), Trim(loginPass);
      var role := if panelIn.role != "" then panelIn.role else intentRole;
      if email == "" || password == "" {
        return None, AuthFlow.Toast(AuthFlow.Fixed(AuthFlow.SendNeedsCredentials), AuthFlow.Error);
      }
      request := Some(AuthFlow.StartRequest("login", role, email, password, None));
      assert request == AuthFlow.SendOtp(s0, reply).request;
      if reply.Ok? {
        authMode := AuthFlow.Login;
        assert State() == s0.(authMode := AuthFlow.Login);
        ShowOtp();
        toast := AuthFlow.Toast(AuthFlow.Fixed(AuthFlow.OtpSent), AuthFlow.Info);
      } else if reply.Err? {
        toast := AuthFlow.Toast(AuthFlow.OrDefault(reply.error, AuthFlow.SendFailed), AuthFlow.Error);
      } else {
        toast := AuthFlow.Toast(AuthFlow.Fixed(AuthFlow.SendNetworkError), AuthFlow.Error);
      }
    }

    /** The "Resend OTP" button with the server's reply. */
    method ResendOtp(reply: AuthFlow.Reply) returns (request: Option<AuthFlow.StartRequest>, toast: AuthFlow.Toast)
      modifies this, otpInputs
      ensures var r := AuthFlow.ResendOtp(old(State()), reply);
        State() == r.state && request == r.request && toast == r.toast
    {
      var email, password := Trim(loginEmail), Trim(loginPass);
      var role := if panelIn.role != "" then panelIn.role else intentRole;
      if email == "" || password == "" {
        return None, AuthFlow.Toast(AuthFlow.Fixed(AuthFlow.ResendNeedsCredentials), AuthFlow.Error);
      }
      request := Some(AuthFlow.StartRequest(AuthFlow.ModeName(authMode), role, email, password, None));
      match reply
      case Err(e) =>
        toast := AuthFlow.Toast(AuthFlow.OrDefault(e, AuthFlow.ResendFailed), AuthFlow.Error);
      case NetErr =>
        toast := AuthFlow.Toast(AuthFlow.Fixed(AuthFlow.ResendNetworkError), AuthFlow.Error);
      case Ok(_) =>
        ShowOtp();
        toast := AuthFlow.Toast(AuthFlow.Fixed(AuthFlow.OtpResent), AuthFlow.Info);
    }

    /** The "Create account" button with the server's reply. */
    method CreateAccount(reply: AuthFlow.Reply) returns (request: Option<AuthFlow.StartRequest>, toast: AuthFlow.Toast)
      requires Valid()
      modifies this, panelIn, panelIn.chips, otpInputs
      ensures Valid()
      ensures var r := AuthFlow.CreateAccount(old(State()), reply);
        State() == r.state && request == r.request && toast == r.toast
    {
      var name, email, pass, pass2 := Trim(suName), Trim(suEmail), Trim(suPass), Trim(suPass2);
      var role := if panelUp.role != "" then panelUp.role else "candidate";
      if name == "" || email == "" || pass == "" {
        return None, AuthFlow.Toast(AuthFlow.Fixed(AuthFlow.SignupIncomplete), AuthFlow.Error);
      }
      if pass != pass2 {
        return None, AuthFlow.Toast(AuthFlow.Fixed(AuthFlow.PasswordsDiffer), AuthFlow.Error);
      }
      request := Some(AuthFlow.StartRequest("signup", role, email, pass, Some(name)));
      match reply
      case Err(e) =>
        toast := AuthFlow.Toast(AuthFlow.OrDefault(e, AuthFlow.SignupFailed), AuthFlow.Error);
      case NetErr =>
        toast := AuthFlow.Toast(AuthFlow.Fixed(AuthFlow.SignupNetworkError), AuthFlow.Error);
      case Ok(_) =>
        AfterSignup(email, pass, role);
        toast := AuthFlow.Toast(AuthFlow.Fixed(AuthFlow.AccountCreated), AuthFlow.Info);
    }

    /** The success tail of sign up: the login tab, prefilled, with the
        sign-up role, and `authMode` set back to 'signup'. */
    method AfterSignup(email: string, pass: string, role: string)
      requires Valid()
      modifies this, panelIn, panelIn.chips, otpInputs
      ensures Valid()
      ensures State() == AuthFlow.AfterSignup(old(State()), email, pass, role)
    {
      SetActiveTab("login");
      loginEmail, loginPass := email, pass;
      panelIn.SetPanelRole(role);
      otpShown := true;
      authMode := AuthFlow.Signup;
      SetupOtpInputs();
      FocusFirst();
    }

    /** The "Verify" button with the server's reply: it changes nothing on
        the page; it posts, then redirects or shows a toast. */
    method VerifyOtp(reply: AuthFlow.Reply) returns (result: AuthFlow.Verified)
      ensures result == AuthFlow.VerifyOtp(State(), reply)
      ensures result.request.Some? <==> Utf16Length(Concat(otpInputs[..])) == 6
    {
      var code := GetOtpCode();
      if Utf16Length(code) != 6 {
        return AuthFlow.Verified(None, None, AuthFlow.Toast(AuthFlow.Fixed(AuthFlow.CodeIncomplete), AuthFlow.Error));
      }
      var role := if panelIn.role != "" then panelIn.role else intentRole;
      var request := Some(AuthFlow.VerifyRequest(AuthFlow.ModeName(authMode), role, Trim(loginEmail), Trim(loginPass), code));
      match reply
      case Err(e) =>
        result := AuthFlow.Verified(request, None, AuthFlow.Toast(AuthFlow.OrDefault(e, AuthFlow.VerifyFailed), AuthFlow.Error));
      case NetErr =>
        result := AuthFlow.Verified(request, None, AuthFlow.Toast(AuthFlow.Fixed(AuthFlow.VerifyNetworkError), AuthFlow.Error));
      case Ok(r) =>
        result := AuthFlow.Verified(request, Some(AuthFlow.Destination(r)), AuthFlow.Toast(AuthFlow.Fixed(AuthFlow.CodeVerified), AuthFlow.Info));
    }
  }

  /** Joining one more slot value. */
  lemma ConcatSnoc(parts: seq<string>, i: nat)
    requires i < |parts|
    ensures Concat(parts[..i + 1]) == Concat(parts[..i]) + parts[i]
  {
    var p := parts[..i + 1];
    AuthFlow.ConcatSplit(p, i);
    assert p[..i] == parts[..i] && p[i + 1..] == [];
  }
}
