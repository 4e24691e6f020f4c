/** The sign-in / sign-up modal of static/portal.js (lines 69-383) as a
    transition system: the state the page keeps (the module variables
    `intentRole` and `authMode`, each panel's `dataset.role` and chip states,
    the six OTP slots, the slot last focused by the handlers, the visible
    tab and OTP group, and
    the form fields), and one function per event giving the next state, the
    request the event posts and the toast it shows. Each server reply is an
    input; an event and its reply are taken as one step. */
module AuthFlow {
  import opened Wrappers
  import opened Strings

  /** `authMode`, and which tab is shown. */
  datatype Mode = Login | Signup

  function ModeName(m: Mode): string {
    match m
    case Login => "login"
    case Signup => "signup"
  }

  /** `mode === 'signup' ? 'signup' : 'login'`. */
  function ModeOf(mode: string): Mode {
    if mode == "signup" then Signup else Login
  }

  /** A reply of the auth endpoints: `{ok: true, role}` (role "" when
      absent), `{ok: false, error}` (error "" when absent), or a failed fetch
      or unreadable body. */
  datatype Reply = Ok(role: string) | Err(error: string) | NetErr

  datatype ToastKind = Info | Error

  /** The fixed toast texts of the modal. */
  datatype Message =
    | SendNeedsCredentials | SendFailed | SendNetworkError | OtpSent
    | ResendNeedsCredentials | ResendFailed | ResendNetworkError | OtpResent
    | SignupIncomplete | PasswordsDiffer | SignupFailed | SignupNetworkError | AccountCreated
    | CodeIncomplete | VerifyFailed | VerifyNetworkError | CodeVerified

  function MessageText(m: Message): string {
    match m
    case SendNeedsCredentials => "Enter email and password to send OTP"
    case SendFailed => "Failed to send OTP"
    case SendNetworkError => "Network error while sending OTP"
    case OtpSent => "OTP sent to your email"
    case ResendNeedsCredentials => "Enter email and password first"
    case ResendFailed => "Failed to resend OTP"
    case ResendNetworkError => "Network error while resending OTP"
    case OtpResent => "OTP resent"
    case SignupIncomplete => "Fill all signup fields"
    case PasswordsDiffer => "Passwords don't match"
    case SignupFailed => "Signup failed"
    case SignupNetworkError => "Network error during signup"
    case AccountCreated => "Account created. OTP sent for verification."
    case CodeIncomplete => "Enter full 6-digit OTP"
    case VerifyFailed => "OTP verification failed"
    case VerifyNetworkError => "Network error while verifying OTP"
    case CodeVerified => "OTP verified. Redirecting…"
  }

  /** A toast shows either the server's `error` text or a fixed text. */
  datatype ToastText = ServerText(error: string) | Fixed(m: Message)

  datatype Toast = Toast(text: ToastText, kind: ToastKind) {
    function Shown(): string {
      match text
      case ServerText(e) => e
      case Fixed(m) => MessageText(m)
    }
  }

  /** The form posted to `/api/auth/start`; `name` only from the sign-up panel. */
  datatype StartRequest = StartRequest(mode: string, role: string, email: string, password: string, name: Option<string>)

  /** The form posted to `/api/auth/verify`. */
  datatype VerifyRequest = VerifyRequest(mode: string, role: string, email: string, password: string, code: string)

  /** A role panel: `dataset.role`, the `data-role` of each chip, and which
      chips are active. */
  datatype Panel = Panel(role: string, chipRoles: seq<string>, active: seq<bool>)

  /** The chip states `setPanelRole` writes: a chip is active iff its role is `role`. */
  function ActiveFor(chipRoles: seq<string>, role: string): (a: seq<bool>)
    ensures |a| == |chipRoles|
    ensures forall i :: 0 <= i < |a| ==> (a[i] <==> chipRoles[i] == role)
  {
    seq(|chipRoles|, i requires 0 <= i < |chipRoles| => chipRoles[i] == role)
  }

  /** `setPanelRole(panel, role)`. */
  function WithRole(p: Panel, role: string): Panel {
    Panel(role, p.chipRoles, ActiveFor(p.chipRoles, role))
  }

  datatype Which = PanelIn | PanelUp

  /** The fields the user types into. */
  datatype Field = LoginEmail | LoginPass | SignupName | SignupEmail | SignupPass | SignupPass2

  datatype Modal = Modal(
    intentRole: string,
    authMode: Mode,
    shownTab: Mode,
    panelIn: Panel,
    panelUp: Panel,
    slots: seq<string>,
    // the slot the handlers last focused; a click into a slot is not an event here
    focus: Option<nat>,
    otpShown: bool,
    listening: bool,
    loginEmail: string,
    loginPass: string,
    suName: string,
    suEmail: string,
    suPass: string,
    suPass2: string)

  function Blank(n: nat): (r: seq<string>)
    ensures |r| == n && forall i :: 0 <= i < n ==> r[i] == ""
  {
    seq(n, _ => "")
  }

  /** The state `initAuthModal` leaves: the module defaults, both panels set
      to 'candidate', empty OTP slots without listeners, and the markup's
      initial tab, taken to be the login tab. */
  function Initial(inChips: seq<string>, upChips: seq<string>, slotCount: nat): Modal {
    Modal("candidate", Login, Login,
          WithRole(Panel("", inChips, seq(|inChips|, _ => false)), "candidate"),
          WithRole(Panel("", upChips, seq(|upChips|, _ => false)), "candidate"),
          Blank(slotCount), None, false, false, "", "", "", "", "", "")
  }

  // ---------- Tabs, chips, opening ----------

  function SetActiveTab(s: Modal, mode: string): Modal {
    s.(authMode := ModeOf(mode), shownTab := ModeOf(mode))
  }

  /** `openModalForRole(role)`; the header button passes the current
      `intentRole`. */
  function OpenModalForRole(s: Modal, role: string): Modal {
    var intent := if role != "" then role else "candidate";
    var t := SetActiveTab(s.(intentRole := intent), "login");
    t.(panelIn := WithRole(t.panelIn, intent), panelUp := WithRole(t.panelUp, intent))
  }

  function PanelOf(s: Modal, w: Which): Panel {
    match w
    case PanelIn => s.panelIn
    case PanelUp => s.panelUp
  }

  /** A click on chip `idx` of a panel sets that panel to the chip's role. */
  function ClickChip(s: Modal, w: Which, idx: nat): Modal
    requires idx < |PanelOf(s, w).chipRoles|
  {
    match w
    case PanelIn => s.(panelIn := WithRole(s.panelIn, s.panelIn.chipRoles[idx]))
    case PanelUp => s.(panelUp := WithRole(s.panelUp, s.panelUp.chipRoles[idx]))
  }

  function Edit(s: Modal, f: Field, v: string): Modal {
    match f
    case LoginEmail => s.(loginEmail := v)
    case LoginPass => s.(loginPass := v)
    case SignupName => s.(suName := v)
    case SignupEmail => s.(suEmail := v)
    case SignupPass => s.(suPass := v)
    case SignupPass2 => s.(suPass2 := v)
  }

  // ---------- OTP slots ----------

  /** `setupOtpInputs()`: every slot cleared, listeners attached. */
  function SetupOtpInputs(s: Modal): Modal {
    s.(slots := Blank(|s.slots|), listening := true)
  }

  /** `otpInputs[0]?.focus()`. */
  function FocusFirst(s: Modal): Modal {
    if |s.slots| > 0 then s.(focus := Some(0)) else s
  }

  /** An `input` event on slot `i` with the slot's new value. */
  function InputSlot(s: Modal, i: nat, v: string): Modal
    requires i < |s.slots|
  {
    var t := s.(slots := s.slots[i := v]);
    if s.listening && v != "" && i < |s.slots| - 1 then t.(focus := Some(i + 1)) else t
  }

  /** A `keydown` event on slot `i`; the key does not change the value
      before the listener runs. */
  function KeyDown(s: Modal, i: nat, key: string): Modal
    requires i < |s.slots|
  {
    if s.listening && key == "Backspace" && s.slots[i] == "" && i > 0 then s.(focus := Some(i - 1)) else s
  }

  /** `getOtpCode()`: the slot values joined in slot order. */
  function Code(s: Modal): string {
    Concat(s.slots)
  }

  /** `panelIn.dataset.role || intentRole`. */
  function LoginRole(s: Modal): string {
    if s.panelIn.role != "" then s.panelIn.role else s.intentRole
  }

  /** `data.error || fallback`. */
  function OrDefault(e: string, fallback: Message): ToastText {
    if e != "" then ServerText(e) else Fixed(fallback)
  }

  // ---------- Send, resend, sign up, verify ----------

  datatype Step = Step(state: Modal, request: Option<StartRequest>, toast: Toast)

  /** The success tail shared by send, resend and sign up: show the OTP
      group, clear the slots and focus the first one. */
  function ShowOtp(s: Modal): Modal {
    FocusFirst(SetupOtpInputs(s.(otpShown := true)))
  }

  /** The "Send OTP" button. */
  function SendOtp(s: Modal, reply: Reply): Step {
    var email, password := Trim(s.loginEmail), Trim(s.loginPass);
    if email == "" || password == "" then
      Step(s, None, Toast(Fixed(SendNeedsCredentials), Error))
    else
      var req := Some(StartRequest("login", LoginRole(s), email, password, None));
      match reply
      case Err(e) => Step(s, req, Toast(OrDefault(e, SendFailed), Error))
      case NetErr => Step(s, req, Toast(Fixed(SendNetworkError), Error))
      case Ok(_) => Step(ShowOtp(s.(authMode := Login)), req, Toast(Fixed(OtpSent), Info))
  }

  /** The "Resend OTP" button: as send, but posts the current `authMode`
      and leaves it unchanged. */
  function ResendOtp(s: Modal, reply: Reply): Step {
    var email, password := Trim(s.loginEmail), Trim(s.loginPass);
    if email == "" || password == "" then
      Step(s, None, Toast(Fixed(ResendNeedsCredentials), Error))
    else
      var req := Some(StartRequest(ModeName(s.authMode), LoginRole(s), email, password, None));
      match reply
      case Err(e) => Step(s, req, Toast(OrDefault(e, ResendFailed), Error))
      case NetErr => Step(s, req, Toast(Fixed(ResendNetworkError), Error))
      case Ok(_) => Step(ShowOtp(s), req, Toast(Fixed(OtpResent), Info))
  }

  /** The state after a successful sign-up start: the login tab is shown and
      prefilled, the login panel takes the sign-up role, and `authMode` is
      then set back to 'signup'. */
  function AfterSignup(s: Modal, email: string, pass: string, role: string): Modal {
    var t := SetActiveTab(s, "login").(loginEmail := email, loginPass := pass);
    ShowOtp(t.(panelIn := WithRole(t.panelIn, role), authMode := Signup))
  }

  /** The "Create account" button, on the trimmed field values. */
  function CreateAccount(s: Modal, reply: Reply): Step {
    SubmitSignup(s, Trim(s.suName), Trim(s.suEmail), Trim(s.suPass), Trim(s.suPass2), reply)
  }

  /** `panelUp.dataset.role || 'candidate'`. */
  function SignupRole(s: Modal): string {
    if s.panelUp.role != "" then s.panelUp.role else "candidate"
  }

  /** The sign-up checks and request, given the trimmed name, e-mail,
      password and confirmation. */
  function SubmitSignup(s: Modal, name: string, email: string, pass: string, pass2: string, reply: Reply): Step {
    if name == "" || email == "" || pass == "" then
      Step(s, None, Toast(Fixed(SignupIncomplete), Error))
    else if pass != pass2 then
      Step(s, None, Toast(Fixed(PasswordsDiffer), Error))
    else
      var req := Some(StartRequest("signup", SignupRole(s), email, pass, Some(name)));
      match reply
      case Err(e) => Step(s, req, Toast(OrDefault(e, SignupFailed), Error))
      case NetErr => Step(s, req, Toast(Fixed(SignupNetworkError), Error))
      case Ok(_) => Step(AfterSignup(s, email, pass, SignupRole(s)), req, Toast(Fixed(AccountCreated), Info))
  }

  datatype Verified = Verified(request: Option<VerifyRequest>, redirect: Option<string>, toast: Toast)

  /** `data.role === 'recruiter' ? '/recruiter/dashboard' : '/candidate/dashboard'`. */
  function Destination(role: string): string {
    if role == "recruiter" then "/recruiter/dashboard" else "/candidate/dashboard"
  }

  /** The "Verify" button. It changes no state: it posts, then redirects or
      shows a toast. */
  function VerifyOtp(s: Modal, reply: Reply): Verified {
    var code := Code(s);
    if Utf16Length(code) != 6 then
      Verified(None, None, Toast(Fixed(CodeIncomplete), Error))
    else
      var req := Some(VerifyRequest(ModeName(s.authMode), LoginRole(s), Trim(s.loginEmail), Trim(s.loginPass), code));
      match reply
      case Err(e) => Verified(req, None, Toast(OrDefault(e, VerifyFailed), Error))
      case NetErr => Verified(req, None, Toast(Fixed(VerifyNetworkError), Error))
      case Ok(role) => Verified(req, Some(Destination(role)), Toast(Fixed(CodeVerified), Info))
  }

  // ---------- Properties ----------

  /** Opening the modal: `intentRole` is the given role or 'candidate', the
      login mode and tab are selected, and both panels show `intentRole`,
      with exactly the chips of that role active. Nothing else changes. */
  lemma OpenModalMeaning(s: Modal, role: string)
    ensures var t := OpenModalForRole(s, role);
      && t.intentRole == (if role == "" then "candidate" else role)
      && t.authMode == Login && t.shownTab == Login
      && t.panelIn.role == t.intentRole && t.panelUp.role == t.intentRole
      && t.panelIn.chipRoles == s.panelIn.chipRoles && t.panelUp.chipRoles == s.panelUp.chipRoles
      && (forall i :: 0 <= i < |t.panelIn.active| ==> (t.panelIn.active[i] <==> s.panelIn.chipRoles[i] == t.intentRole))
      && (forall i :: 0 <= i < |t.panelUp.active| ==> (t.panelUp.active[i] <==> s.panelUp.chipRoles[i] == t.intentRole))
      && |t.panelIn.active| == |s.panelIn.chipRoles| && |t.panelUp.active| == |s.panelUp.chipRoles|
      && t == s.(intentRole := t.intentRole, authMode := Login, shownTab := Login, panelIn := t.panelIn, panelUp := t.panelUp)
  {
  }

  /** Switching tabs: any mode other than 'signup' means login; the panels
      and everything else stay as they were. */
  lemma SetActiveTabMeaning(s: Modal, mode: string)
    ensures var t := SetActiveTab(s, mode);
      && (t.authMode == Signup <==> mode == "signup")
      && t.shownTab == t.authMode
      && t == s.(authMode := t.authMode, shownTab := t.shownTab)
  {
  }

  /** A chip click changes only its own panel, to the clicked chip's role,
      and afterwards exactly the chips with that role are active. */
  lemma ClickChipMeaning(s: Modal, w: Which, idx: nat)
    requires idx < |PanelOf(s, w).chipRoles|
    ensures var t := ClickChip(s, w, idx);
      var role := PanelOf(s, w).chipRoles[idx];
      && PanelOf(t, w).role == role
      && PanelOf(t, w).chipRoles == PanelOf(s, w).chipRoles
      && PanelOf(t, w).active[idx]
      && |PanelOf(t, w).active| == |PanelOf(s, w).chipRoles|
      && (forall i :: 0 <= i < |PanelOf(t, w).active| ==> (PanelOf(t, w).active[i] <==> PanelOf(s, w).chipRoles[i] == role))
      && (w == PanelIn ==> t == s.(panelIn := t.panelIn))
      && (w == PanelUp ==> t == s.(panelUp := t.panelUp))
  {
  }

  /** Typing into a slot that is not the last moves the focus to the next
      slot once listeners are attached, provided the slot is now non-empty;
      otherwise the focus stays. The code is the slots joined in order. */
  lemma InputSlotMeaning(s: Modal, i: nat, v: string)
    requires i < |s.slots|
    ensures var t := InputSlot(s, i, v);
      && t.slots == s.slots[i := v]
      && t.focus == (if s.listening && v != "" && i + 1 < |s.slots| then Some(i + 1) else s.focus)
      && Code(t) == Concat(s.slots[..i]) + v + Concat(s.slots[i + 1..])
  {
    ConcatSplit(s.slots, i);
    ConcatSplit(s.slots[i := v], i);
    assert s.slots[i := v][..i] == s.slots[..i];
    assert s.slots[i := v][i + 1..] == s.slots[i + 1..];
  }

  /** `Concat` around position `i`. */
  lemma {:induction false} ConcatSplit(parts: seq<string>, i: nat)
    requires i < |parts|
    ensures Concat(parts) == Concat(parts[..i]) + parts[i] + Concat(parts[i + 1..])
    decreases i
  {
    if i == 0 {
      assert parts[..0] == [];
      assert parts[1..] == parts[i + 1..];
    } else {
      ConcatSplit(parts[1..], i - 1);
      assert parts[1..][..i - 1] == parts[1..i];
      assert parts[1..][i - 1 + 1..] == parts[i + 1..];
      assert parts[..i] == [parts[0]] + parts[1..i];
      assert Concat(parts[..i]) == parts[0] + Concat(parts[1..i]);
      SeqAppendAssoc(parts[0], Concat(parts[1..i]), parts[i]);
      SeqAppendAssoc(parts[0], Concat(parts[1..i]) + parts[i], Concat(parts[i + 1..]));
    }
  }

  lemma ConcatSix(a: string, b: string, c: string, d: string, e: string, f: string)
    ensures Concat([a, b, c, d, e, f]) == a + b + c + d + e + f
  {
    assert [f][1..] == [];
    assert Concat([f]) == f + "" == f;
    assert [e, f][1..] == [f];
    assert Concat([e, f]) == e + f;
    assert [d, e, f][1..] == [e, f];
    assert Concat([d, e, f]) == d + (e + f);
    assert [c, d, e, f][1..] == [d, e, f];
    assert Concat([c, d, e, f]) == c + (d + (e + f));
    assert [b, c, d, e, f][1..] == [c, d, e, f];
    assert Concat([b, c, d, e, f]) == b + (c + (d + (e + f)));
    assert [a, b, c, d, e, f][1..] == [b, c, d, e, f];
    assert Concat([a, b, c, d, e, f]) == a + (b + (c + (d + (e + f))));
    SeqAppendAssoc(a, b, c + (d + (e + f)));
    SeqAppendAssoc(a + b, c, d + (e + f));
    SeqAppendAssoc(a + b + c, d, e + f);
    SeqAppendAssoc(a + b + c + d, e, f);
  }

  /** Backspace in an empty slot other than the first moves the focus back
      once listeners are attached; any other key, or a non-empty slot,
      leaves the focus. Nothing else changes. */
  lemma KeyDownMeaning(s: Modal, i: nat, key: string)
    requires i < |s.slots|
    ensures var t := KeyDown(s, i, key);
      && t == s.(focus := t.focus)
      && t.focus == (if s.listening && key == "Backspace" && s.slots[i] == "" && i > 0 then Some(i - 1) else s.focus)
  {
  }

  /** Verify posts a request exactly when the joined code has JavaScript
      length 6 (UTF-16 code units); the characters are not checked. */
  lemma VerifySendsIffSixChars(s: Modal, reply: Reply)
    ensures VerifyOtp(s, reply).request.Some? <==> Utf16Length(Code(s)) == 6
    ensures VerifyOtp(s, reply).request.Some? ==> VerifyOtp(s, reply).request.value.code == Code(s)
    ensures VerifyOtp(s, reply).request.Some? ==>
      VerifyOtp(s, reply).request.value == VerifyRequest(ModeName(s.authMode), LoginRole(s), Trim(s.loginEmail), Trim(s.loginPass), Code(s))
  {
  }

  /** So six letters pass the client check. */
  lemma LettersAccepted(s: Modal, reply: Reply)
    requires s.slots == ["a", "b", "c", "d", "e", "f"]
    ensures VerifyOtp(s, reply).request.Some? && VerifyOtp(s, reply).request.value.code == "abcdef"
  {
    ConcatSix("a", "b", "c", "d", "e", "f");
    assert Code(s) == "abcdef";
    Utf16LengthNarrow("abcdef");
    VerifySendsIffSixChars(s, reply);
  }

  /** After any successful send, resend or sign-up start, the OTP group is
      shown, every slot is empty (so the code is empty), the slots keep their
      number, and the first slot has the focus. */
  lemma ShowOtpClears(s: Modal)
    ensures var t := ShowOtp(s);
      && t.otpShown && t.listening
      && |t.slots| == |s.slots| && (forall i :: 0 <= i < |t.slots| ==> t.slots[i] == "")
      && Code(t) == ""
      && (|s.slots| > 0 ==> t.focus == Some(0))
  {
    ConcatBlank(|s.slots|);
  }

  lemma {:induction false} ConcatBlank(n: nat)
    ensures Concat(Blank(n)) == ""
  {
    if n > 0 {
      assert Blank(n)[1..] == Blank(n - 1);
      ConcatBlank(n - 1);
    }
  }

  /** The three start-style steps succeed only through `ShowOtp`, so each
      success clears the slots. */
  lemma SuccessClearsSlots(s: Modal, reply: Reply)
    requires reply.Ok?
    ensures SendOtp(s, reply).request.Some? ==> Code(SendOtp(s, reply).state) == ""
    ensures ResendOtp(s, reply).request.Some? ==> Code(ResendOtp(s, reply).state) == ""
    ensures CreateAccount(s, reply).request.Some? ==> Code(CreateAccount(s, reply).state) == ""
  {
    if SendOtp(s, reply).request.Some? {
      assert SendOtp(s, reply).state == ShowOtp(s.(authMode := Login));
      ShowOtpClears(s.(authMode := Login));
    }
    if ResendOtp(s, reply).request.Some? {
      assert ResendOtp(s, reply).state == ShowOtp(s);
      ShowOtpClears(s);
    }
    SignupSuccessClears(s, reply);
  }

  lemma SignupSuccessClears(s: Modal, reply: Reply)
    requires reply.Ok?
    ensures CreateAccount(s, reply).request.Some? ==> Code(CreateAccount(s, reply).state) == ""
  {
    if CreateAccount(s, reply).request.Some? {
      var t := SetActiveTab(s, "login").(loginEmail := Trim(s.suEmail), loginPass := Trim(s.suPass));
      var u := t.(panelIn := WithRole(t.panelIn, SignupRole(s)), authMode := Signup);
      assert CreateAccount(s, reply).state == ShowOtp(u);
      ShowOtpClears(u);
    }
  }

  /** Send and resend post nothing and change nothing when the trimmed
      e-mail or password is empty; sign up when a trimmed name, e-mail or
      password is empty or the passwords differ. */
  lemma InvalidLoginInputChangesNothing(s: Modal, reply: Reply)
    requires Trim(s.loginEmail) == "" || Trim(s.loginPass) == ""
    ensures SendOtp(s, reply) == Step(s, None, Toast(Fixed(SendNeedsCredentials), Error))
    ensures ResendOtp(s, reply) == Step(s, None, Toast(Fixed(ResendNeedsCredentials), Error))
  {
  }

  lemma InvalidSignupInputChangesNothing(s: Modal, reply: Reply)
    requires Trim(s.suName) == "" || Trim(s.suEmail) == "" || Trim(s.suPass) == "" || Trim(s.suPass) != Trim(s.suPass2)
    ensures CreateAccount(s, reply).request == None && CreateAccount(s, reply).state == s
    ensures CreateAccount(s, reply).toast.kind == Error
  {
  }

  /** A request is posted exactly when the inputs are valid, and a failed
      reply leaves the state as it was. */
  lemma SendMeaning(s: Modal, reply: Reply)
    ensures var r := SendOtp(s, reply);
      && (r.request.Some? <==> Trim(s.loginEmail) != "" && Trim(s.loginPass) != "")
      && (r.request.Some? ==> r.request.value.mode == "login" && r.request.value.role == LoginRole(s))
      && (!reply.Ok? ==> r.state == s)
      && (r.request.Some? && reply.Ok? ==> r.state.authMode == Login && r.state.otpShown)
  {
    if reply.Ok? {
      ShowOtpKeepsMode(s.(authMode := Login));
    }
  }

  lemma ShowOtpKeepsMode(s: Modal)
    ensures ShowOtp(s).authMode == s.authMode && ShowOtp(s).otpShown
  {
  }

  /** Resend posts the current `authMode` and keeps it. */
  lemma ResendMeaning(s: Modal, reply: Reply)
    ensures var r := ResendOtp(s, reply);
      && (r.request.Some? <==> Trim(s.loginEmail) != "" && Trim(s.loginPass) != "")
      && (r.request.Some? ==> r.request.value.mode == ModeName(s.authMode))
      && r.state.authMode == s.authMode
      && (!reply.Ok? ==> r.state == s)
  {
    if reply.Ok? {
      ShowOtpKeepsMode(s);
    }
  }

  /** After a successful sign-up start: the login fields hold the trimmed
      sign-up e-mail and password, the login panel has the sign-up role
      (the chosen one, or 'candidate') with exactly the chips of that role
      active, the login tab and the OTP group are shown, and `authMode` is
      'signup'. */
  lemma SignupHandoff(s: Modal, reply: Reply)
    requires CreateAccount(s, reply).request.Some? && reply.Ok?
    ensures var t := CreateAccount(s, reply).state;
      && t.loginEmail == Trim(s.suEmail) && t.loginPass == Trim(s.suPass)
      && t.panelIn.role == SignupRole(s) && LoginRole(t) == SignupRole(s)
      && t.panelIn.chipRoles == s.panelIn.chipRoles && |t.panelIn.active| == |s.panelIn.chipRoles|
      && (forall i :: 0 <= i < |t.panelIn.active| ==> (t.panelIn.active[i] <==> t.panelIn.chipRoles[i] == SignupRole(s)))
      && t.shownTab == Login && t.authMode == Signup && t.otpShown
      && t.panelUp == s.panelUp && t.intentRole == s.intentRole
  {
    AfterSignupMeaning(s, Trim(s.suEmail), Trim(s.suPass), SignupRole(s));
  }

  lemma AfterSignupMeaning(s: Modal, email: string, pass: string, role: string)
    requires role != ""
    ensures var t := AfterSignup(s, email, pass, role);
      && t.loginEmail == email && t.loginPass == pass
      && t.panelIn.role == role && LoginRole(t) == role
      && t.panelIn.chipRoles == s.panelIn.chipRoles && |t.panelIn.active| == |s.panelIn.chipRoles|
      && (forall i :: 0 <= i < |t.panelIn.active| ==> (t.panelIn.active[i] <==> t.panelIn.chipRoles[i] == role))
      && t.shownTab == Login && t.authMode == Signup && t.otpShown
      && t.panelUp == s.panelUp && t.intentRole == s.intentRole
  {
    var t := SetActiveTab(s, "login").(loginEmail := email, loginPass := pass);
    ShowOtpKeepsMode(t.(panelIn := WithRole(t.panelIn, role), authMode := Signup));
  }

  /** So the next verify, once six characters are typed, posts mode 'signup'
      with the sign-up role and the sign-up credentials. */
  lemma VerifyAfterSignup(s: Modal, reply1: Reply, code: seq<string>, reply2: Reply)
    requires CreateAccount(s, reply1).request.Some? && reply1.Ok?
    requires |code| == |s.slots| && Utf16Length(Concat(code)) == 6
    ensures var t := CreateAccount(s, reply1).state.(slots := code);
      VerifyOtp(t, reply2).request == Some(VerifyRequest("signup", SignupRole(s), Trim(s.suEmail), Trim(s.suPass), Concat(code)))
  {
    var e, p := Trim(s.suEmail), Trim(s.suPass);
    assert CreateAccount(s, reply1).state == AfterSignup(s, e, p, SignupRole(s));
    TrimIdempotent(JavaScript, s.suEmail);
    TrimIdempotent(JavaScript, s.suPass);
    VerifyAfterHandoff(s, e, p, SignupRole(s), code, reply2);
  }

  lemma VerifyAfterHandoff(s: Modal, e: string, p: string, role: string, code: seq<string>, reply: Reply)
    requires role != "" && Trim(e) == e && Trim(p) == p
    requires |code| == |s.slots| && Utf16Length(Concat(code)) == 6
    ensures VerifyOtp(AfterSignup(s, e, p, role).(slots := code), reply).request
      == Some(VerifyRequest("signup", role, e, p, Concat(code)))
  {
    var t0 := SetActiveTab(s, "login").(loginEmail := e, loginPass := p);
    var v := t0.(panelIn := WithRole(t0.panelIn, role), authMode := Signup);
    ShowOtpKeepsMode(v);
    var t := AfterSignup(s, e, p, role).(slots := code);
    assert t.authMode == Signup && LoginRole(t) == role && t.loginEmail == e && t.loginPass == p;
    VerifySendsIffSixChars(t, reply);
  }

  /** Six one-character slots whose last character lies outside the Basic
      Multilingual Plane (an emoji, say) give a code of six characters but of
      JavaScript length 7, so nothing is posted. */
  lemma WideCharacterRefused(s: Modal, reply: Reply)
    requires |s.slots| == 6 && forall i :: 0 <= i < 6 ==> |s.slots[i]| == 1
    requires Wide(s.slots[5][0])
    ensures |Code(s)| == 6 && VerifyOtp(s, reply).request.None?
  {
    var q := s.slots;
    assert q == [q[0], q[1], q[2], q[3], q[4], q[5]];
    ConcatSix(q[0], q[1], q[2], q[3], q[4], q[5]);
    Utf16LengthAppend(q[0] + q[1] + q[2] + q[3] + q[4], q[5]);
    assert q[5] == [q[5][0]] && q[5][1..] == [];
    assert Utf16Length(q[5]) == 2;
    VerifySendsIffSixChars(s, reply);
  }

  /** The redirect follows the role the server returns, not the role posted. */
  lemma RedirectByServerRole(s: Modal, role: string)
    requires Utf16Length(Code(s)) == 6
    ensures VerifyOtp(s, Ok(role)).redirect ==
      Some(if role == "recruiter" then "/recruiter/dashboard" else "/candidate/dashboard")
    ensures VerifyOtp(s, Ok(role)).redirect == Some("/recruiter/dashboard") <==> role == "recruiter"
  {
  }

  /** Only a successful verify redirects. */
  lemma RedirectOnlyOnOk(s: Modal, reply: Reply)
    ensures VerifyOtp(s, reply).redirect.Some? <==> reply.Ok? && Utf16Length(Code(s)) == 6
  {
  }

  /** Typing 4, 2, 1, 0, 5, 9 into six cleared slots moves the focus along
      and makes the code "421059". */
  lemma TypingSixDigits(s: Modal)
    requires |s.slots| == 6
    ensures var t0 := ShowOtp(s);
      var t1 := InputSlot(t0, 0, "4");
      var t2 := InputSlot(t1, 1, "2");
      var t3 := InputSlot(t2, 2, "1");
      var t4 := InputSlot(t3, 3, "0");
      var t5 := InputSlot(t4, 4, "5");
      var t6 := InputSlot(t5, 5, "9");
      && t5.focus == Some(5) && t6.focus == Some(5)
      && Code(t6) == "421059"
  {
    var t0 := ShowOtp(s);
    var t6 := InputSlot(InputSlot(InputSlot(InputSlot(InputSlot(InputSlot(t0, 0, "4"), 1, "2"), 2, "1"), 3, "0"), 4, "5"), 5, "9");
    assert t6.slots == ["4", "2", "1", "0", "5", "9"];
    ConcatSix("4", "2", "1", "0", "5", "9");
  }
}
