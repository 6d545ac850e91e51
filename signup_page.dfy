/** The invite sign-up page: the ordered guards of the submit handler and the chain of
    one-shot reducer callbacks (invite used, then player created, then signed in). */
module SignupPage {
  import opened Wrappers

  const NotConnectedError := "Not connected to server. Please refresh and try again."
  const MismatchError := "Passwords do not match."
  const TooShortError := "Password must be at least 4 characters long."
  const SignupFailedError := "Signup failed. The invite token may be invalid or expired."
  const ConnectFailedError := "Failed to connect to server. Please try again."
  const MinPasswordLength: nat := 4

  /** The guards of the submit handler, in their order: the error the first failing one
      sets, or none when the submit may go ahead. */
  function SubmitError(hasConn: bool, connected: bool, password: string, confirmPassword: string): (e: Option<string>)
    ensures !(hasConn && connected) ==> e == Some(NotConnectedError)
    ensures hasConn && connected && password != confirmPassword ==> e == Some(MismatchError)
    ensures hasConn && connected && password == confirmPassword && |password| < MinPasswordLength ==> e == Some(TooShortError)
    ensures e.None? <==> hasConn && connected && password == confirmPassword && |password| >= MinPasswordLength
  {
    if !hasConn || !connected then Some(NotConnectedError)
    else if password != confirmPassword then Some(MismatchError)
    else if |password| < MinPasswordLength then Some(TooShortError)
    else None
  }

  /** The submit button's `disabled` attribute. */
  function SubmitDisabled(isLoading: bool, name: string, password: string, confirmPassword: string): (disabled: bool)
    ensures !disabled <==> !isLoading && name != "" && password != "" && confirmPassword != ""
  {
    isLoading || name == "" || password == "" || confirmPassword == ""
  }

  /** Whenever the guards let a submit through, the button was not disabled by an empty
      password or confirmation. */
  lemma AcceptedPasswordsAreNonEmpty(hasConn: bool, connected: bool, name: string, password: string, confirmPassword: string)
    requires SubmitError(hasConn, connected, password, confirmPassword).None?
    requires name != ""
    ensures !SubmitDisabled(false, name, password, confirmPassword)
  {
  }

  datatype Page = Redirect | Connecting | Form

  /** The `token` query parameter is truthy: present and not the empty string. */
  predicate HasToken(token: Option<string>)
  {
    token.Some? && token.value != ""
  }

  /** Without a token, or with an empty one (`?token=`), the page redirects home and
      renders nothing; before the connection is up it shows "Connecting..."; otherwise
      the form. */
  function RenderPage(token: Option<string>, connected: bool): (p: Page)
    ensures p == Redirect <==> token.None? || token.value == ""
    ensures p == Connecting <==> token.Some? && token.value != "" && !connected
    ensures p == Form <==> token.Some? && token.value != "" && connected
  {
    if !HasToken(token) then Redirect
    else if !connected then Connecting
    else Form
  }

  /** What the page asks of the server and of its parent, in the order it asks. */
  datatype Call =
    | UsePlayerInvite(token: string)
    | CreatePlayer(name: string, password: string)
    | SignIn(name: string, password: string)
    | SignupSuccess

  /** The name and password a handler captured when it was registered. */
  datatype Credentials = Credentials(name: string, password: string)

  function CreatePlayerCalls(hs: seq<Credentials>): (calls: seq<Call>)
    ensures |calls| == |hs|
    ensures forall i :: 0 <= i < |hs| ==> calls[i] == CreatePlayer(hs[i].name, hs[i].password)
  {
    seq(|hs|, i requires 0 <= i < |hs| => CreatePlayer(hs[i].name, hs[i].password))
  }

  function SignInCalls(hs: seq<Credentials>): (calls: seq<Call>)
    ensures |calls| == |hs|
    ensures forall i :: 0 <= i < |hs| ==> calls[i] == SignIn(hs[i].name, hs[i].password)
  {
    seq(|hs|, i requires 0 <= i < |hs| => SignIn(hs[i].name, hs[i].password))
  }

  function SuccessCalls(n: nat): (calls: seq<Call>)
    ensures |calls| == n
    ensures forall c :: c in calls ==> c == SignupSuccess
  {
    seq(n, _ => SignupSuccess)
  }

  /** The mounted page, for the value of the `token` query parameter (absent is read as
      the empty string, as both are falsy). */
  class SignupForm {
    const token: string
    var name: string
    var password: string
    var confirmPassword: string
    var isLoading: bool
    var error: string
    var hasConn: bool
    var connected: bool
    /** The reducer calls and success callbacks issued so far, in order. */
    var calls: seq<Call>
    /** The registered one-shot handlers, each with what it captured. */
    var inviteUsedHandlers: seq<Credentials>
    var playerCreatedHandlers: seq<Credentials>
    var signInHandlers: nat

    /** Mounting with a non-empty token builds the connection, which is not connected
        yet; with an empty token the page only redirects and builds none. */
    constructor (token: string)
      ensures this.token == token
      ensures name == "" && password == "" && confirmPassword == ""
      ensures !isLoading && error == "" && !connected
      ensures hasConn <==> token != ""
      ensures calls == [] && inviteUsedHandlers == [] && playerCreatedHandlers == [] && signInHandlers == 0
    {
      this.token := token;
      name, password, confirmPassword := "", "", "";
      isLoading, error := false, "";
      hasConn, connected := token != "", false;
      calls := [];
      inviteUsedHandlers, playerCreatedHandlers, signInHandlers := [], [], 0;
    }

    method OnConnect()
      modifies this`connected
      ensures connected
    {
      connected := true;
    }

    method OnDisconnect()
      modifies this`connected
      ensures !connected
    {
      connected := false;
    }

    method OnConnectError()
      modifies this`error
      ensures error == ConnectFailedError
    {
      error := ConnectFailedError;
    }

    /** `handleSubmit`. `callThrows` stands for the reducer call raising an exception. */
    method HandleSubmit(callThrows: bool)
      modifies this`error, this`isLoading, this`calls
      modifies this`inviteUsedHandlers, this`playerCreatedHandlers, this`signInHandlers
      ensures var e := SubmitError(hasConn, connected, password, confirmPassword);
              e.Some? ==> && error == e.value && isLoading == old(isLoading) && calls == old(calls)
                          && inviteUsedHandlers == old(inviteUsedHandlers)
                          && playerCreatedHandlers == old(playerCreatedHandlers)
                          && signInHandlers == old(signInHandlers)
      ensures var e := SubmitError(hasConn, connected, password, confirmPassword);
              e.None? && callThrows ==> && error == SignupFailedError && !isLoading && calls == old(calls)
                                        && inviteUsedHandlers == old(inviteUsedHandlers)
                                        && playerCreatedHandlers == old(playerCreatedHandlers)
                                        && signInHandlers == old(signInHandlers)
      ensures var e := SubmitError(hasConn, connected, password, confirmPassword);
              e.None? && !callThrows ==> && error == "" && isLoading
                                         && calls == old(calls) + [UsePlayerInvite(token)]
                                         && inviteUsedHandlers == old(inviteUsedHandlers) + [Credentials(name, password)]
                                         && playerCreatedHandlers == old(playerCreatedHandlers) + [Credentials(name, password)]
                                         && signInHandlers == old(signInHandlers) + 1
    {
      if !hasConn || !connected {
        error := NotConnectedError;
        return;
      }
      if password != confirmPassword {
        error := MismatchError;
        return;
      }
      if |password| < MinPasswordLength {
        error := TooShortError;
        return;
      }
      isLoading := true;
      error := "";
      if callThrows {
        error := SignupFailedError;
        isLoading := false;
        return;
      }
      calls := calls + [UsePlayerInvite(token)];
      var captured := Credentials(name, password);
      inviteUsedHandlers := inviteUsedHandlers + [captured];
      playerCreatedHandlers := playerCreatedHandlers + [captured];
      signInHandlers := signInHandlers + 1;
    }

    /** The invite reducer completed: every registered handler creates the player with
        what it captured and removes itself. */
    method InviteUsed()
      modifies this`calls, this`inviteUsedHandlers
      ensures calls == old(calls) + CreatePlayerCalls(old(inviteUsedHandlers))
      ensures inviteUsedHandlers == []
    {
      calls := calls + CreatePlayerCalls(inviteUsedHandlers);
      inviteUsedHandlers := [];
    }

    /** The create-player reducer completed: every registered handler removes itself and
        signs in with what it captured. */
    method PlayerCreated()
      modifies this`calls, this`playerCreatedHandlers
      ensures calls == old(calls) + SignInCalls(old(playerCreatedHandlers))
      ensures playerCreatedHandlers == []
    {
      calls := calls + SignInCalls(playerCreatedHandlers);
      playerCreatedHandlers := [];
    }

    /** The sign-in reducer completed: every registered handler removes itself and reports
        success to the parent. */
    method SignedIn()
      modifies this`calls, this`signInHandlers
      ensures calls == old(calls) + SuccessCalls(old(signInHandlers))
      ensures signInHandlers == 0
    {
      calls := calls + SuccessCalls(signInHandlers);
      signInHandlers := 0;
    }
  }

  /** For a non-empty token (the only one for which the form is shown), one accepted
      submit followed by the three completions in order issues exactly the
      chain invite, create, sign in, success; completions delivered again add nothing,
      since each handler removed itself. */
  method SignupInOrder(token: string, name: string, password: string) returns (f: SignupForm)
    requires token != ""
    requires |password| >= MinPasswordLength
    ensures f.calls == [UsePlayerInvite(token), CreatePlayer(name, password), SignIn(name, password), SignupSuccess]
    ensures f.isLoading && f.error == ""
  {
    f := new SignupForm(token);
    f.OnConnect();
    f.name, f.password, f.confirmPassword := name, password, password;
    assert SubmitError(f.hasConn, f.connected, f.password, f.confirmPassword).None?;
    f.HandleSubmit(false);
    assert f.calls == [UsePlayerInvite(token)];
    assert f.inviteUsedHandlers == [Credentials(name, password)];
    f.InviteUsed();
    assert f.calls == [UsePlayerInvite(token), CreatePlayer(name, password)];
    f.PlayerCreated();
    assert f.calls == [UsePlayerInvite(token), CreatePlayer(name, password), SignIn(name, password)];
    f.SignedIn();
    f.InviteUsed();
    f.PlayerCreated();
    f.SignedIn();
  }

  /** The handlers are all registered at submit time, so the order of the calls follows
      the order of the completions: a create-player completion that arrives before the
      invite completion signs in before the player is created. */
  method CompletionsOutOfOrder(token: string, name: string, password: string) returns (f: SignupForm)
    requires token != ""
    requires |password| >= MinPasswordLength
    ensures f.calls == [UsePlayerInvite(token), SignIn(name, password), CreatePlayer(name, password)]
  {
    f := new SignupForm(token);
    f.OnConnect();
    f.name, f.password, f.confirmPassword := name, password, password;
    f.HandleSubmit(false);
    f.PlayerCreated();
    f.InviteUsed();
  }

  /** A submit before the connection is up reports it and issues nothing. */
  method SubmitWhileConnecting(token: string, name: string, password: string, confirmPassword: string) returns (f: SignupForm)
    ensures f.error == NotConnectedError && f.calls == [] && !f.isLoading
  {
    f := new SignupForm(token);
    f.name, f.password, f.confirmPassword := name, password, confirmPassword;
    f.HandleSubmit(false);
  }
}
