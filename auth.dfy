/** The admin session: a flag in the browser's session storage, set by a successful PIN
    check and removed by signing out. */
module Auth {
  import opened Common

  /** The session-storage key of the flag. */
  const AuthStorageKey := "admin_authenticated"

  const RpcErrorMessage := "Erro ao verificar PIN. Tente novamente."
  const WrongPinMessage := "PIN incorreto."
  const UnexpectedMessage := "Erro inesperado. Tente novamente."

  /** What the `verify_admin_pin` call did: returned an error, answered (with a boolean
      or null), or threw. */
  datatype RpcResult = RpcError | RpcAnswered(isValid: Option<bool>) | RpcThrew

  datatype PinResult = PinResult(success: bool, error: Option<string>)

  /** The stored flag grants admin access only when it is exactly `"true"`. */
  predicate StoredAdmin(session: map<string, string>) {
    AuthStorageKey in session && session[AuthStorageKey] == "true"
  }

  /** `verifyPin`'s answer for a given RPC outcome. */
  function PinVerdict(rpc: RpcResult): (r: PinResult)
    ensures r.success <==> rpc == RpcAnswered(Some(true))
    ensures r.error.None? <==> r.success
    ensures rpc.RpcError? ==> r.error == Some(RpcErrorMessage)
    ensures rpc.RpcThrew? ==> r.error == Some(UnexpectedMessage)
    ensures rpc.RpcAnswered? && !r.success ==> r.error == Some(WrongPinMessage)
  {
    match rpc
    case RpcError => PinResult(false, Some(RpcErrorMessage))
    case RpcThrew => PinResult(false, Some(UnexpectedMessage))
    case RpcAnswered(isValid) =>
      if isValid == Some(true) then PinResult(true, None) else PinResult(false, Some(WrongPinMessage))
  }

  /** `AuthProvider`: `session` is the browser's session storage. */
  class AuthProvider {
    var isAdmin: bool
    var loading: bool
    var session: map<string, string>

    constructor(session: map<string, string>)
      ensures this.session == session && !isAdmin && loading
    {
      this.session := session;
      isAdmin := false;
      loading := true;
    }

    /** The mount effect: admin exactly when the stored flag is `"true"`. */
    method LoadSession()
      modifies this`isAdmin, this`loading
      ensures isAdmin <==> StoredAdmin(session)
      ensures !loading
    {
      isAdmin := AuthStorageKey in session && session[AuthStorageKey] == "true";
      loading := false;
    }

    /** `verifyPin`: only a valid answer stores the flag and grants access. */
    method VerifyPin(rpc: RpcResult) returns (result: PinResult)
      modifies this`isAdmin, this`session
      ensures result == PinVerdict(rpc)
      ensures result.success ==> isAdmin && session == old(session)[AuthStorageKey := "true"]
      ensures !result.success ==> isAdmin == old(isAdmin) && session == old(session)
    {
      result := PinVerdict(rpc);
      if result.success {
        session := session[AuthStorageKey := "true"];
        isAdmin := true;
      }
    }

    /** `signOut`: removes the flag and drops admin access. */
    method SignOut()
      modifies this`isAdmin, this`session
      ensures session == old(session) - {AuthStorageKey} && !isAdmin
    {
      session := session - {AuthStorageKey};
      isAdmin := false;
    }
  }

  /** A successful PIN check survives a reload of the page; a sign-out does not. */
  lemma SessionFlagRoundTrip(session: map<string, string>)
    ensures StoredAdmin(session[AuthStorageKey := "true"])
    ensures !StoredAdmin(session - {AuthStorageKey})
  {
  }

  /** The whole life of a session: a verified PIN grants access and a reload keeps it;
      signing out and reloading loses it. */
  method SessionScenario(rpc: RpcResult)
    requires rpc == RpcAnswered(Some(true))
  {
    var auth := new AuthProvider(map[]);
    auth.LoadSession();
    assert !auth.isAdmin;
    var result := auth.VerifyPin(rpc);
    assert result.success && auth.isAdmin;
    var reloaded := new AuthProvider(auth.session);
    reloaded.LoadSession();
    assert reloaded.isAdmin;
    reloaded.SignOut();
    var again := new AuthProvider(reloaded.session);
    again.LoadSession();
    assert !again.isAdmin;
  }
}
