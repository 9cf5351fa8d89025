/** The callbacks the authentication context hands to its consumers:
    sign-up (which also issues a verification code), sign-in, sign-out,
    e-mail verification and code resend, plus the `useAuth` guard.
    Each call to the hosted auth service is replaced by its outcome. */
module Auth {
  import opened Util
  import VC = VerificationCodes

  /** What an auth-service call reports in its `error` field. */
  datatype AuthResult = AuthOk | AuthError(message: string)

  const OUTSIDE_PROVIDER := "useAuth must be used within an AuthProvider"

  /** `if (error) throw error`: the promise rejects exactly when the auth
      service reports an error, and with that error's message. */
  function ThrowOnError(result: AuthResult): (r: Settled<()>)
    ensures r.Rejected? <==> result.AuthError?
    ensures r.Rejected? ==> r.reason == result.message
  {
    match result
    case AuthOk => Resolved(())
    case AuthError(message) => Rejected(message)
  }

  /** `signIn(email, password)`, given what `signInWithPassword` reports. */
  function SignIn(result: AuthResult): (r: Settled<()>)
    ensures r.Rejected? <==> result.AuthError?
    ensures r.Rejected? ==> r.reason == result.message
  {
    ThrowOnError(result)
  }

  /** `signOut()`, given what the auth service's `signOut` reports. */
  function SignOut(result: AuthResult): (r: Settled<()>)
    ensures r.Rejected? <==> result.AuthError?
    ensures r.Rejected? ==> r.reason == result.message
  {
    ThrowOnError(result)
  }

  /** One run of `verifyEmail`: its answer, and whether it asked the auth
      service to set `email_verified: true` in the user's metadata. */
  datatype VerifyEmailRun = VerifyEmailRun(verified: bool, metadataUpdateRequested: bool)

  /** `verifyEmail(email, code)`. A valid code leads to one metadata update;
      if that update reports an error the answer is downgraded to false. */
  function VerifyEmail(email: string, code: string, rpc: (string, string) -> VC.RpcResult,
                       update: AuthResult): (run: VerifyEmailRun)
    ensures !VC.VerifyCode(email, code, rpc) ==> run == VerifyEmailRun(false, false)
    ensures VC.VerifyCode(email, code, rpc) ==> run.metadataUpdateRequested
    ensures VC.VerifyCode(email, code, rpc) ==> (run.verified <==> update.AuthOk?)
  {
    var isValid := VC.VerifyCode(email, code, rpc);
    if isValid then
      match update
      case AuthError(_) => VerifyEmailRun(false, true)
      case AuthOk => VerifyEmailRun(true, true)
    else
      VerifyEmailRun(false, false)
  }

  /** A verified e-mail needs both a code the stored procedure accepts and
      a metadata write that succeeded; an RPC error never verifies. */
  lemma VerifiedNeedsValidCodeAndWrite(email: string, code: string,
                                       rpc: (string, string) -> VC.RpcResult, update: AuthResult)
    ensures VerifyEmail(email, code, rpc, update).verified <==>
              rpc(email, code) == VC.RpcData(true) && update.AuthOk?
    ensures rpc(email, code).RpcError? ==> !VerifyEmail(email, code, rpc, update).metadataUpdateRequested
  {
  }

  /** `signUp(email, password, username)`: an auth error is thrown before any
      code is sent; otherwise one verification code is issued for `email`,
      and a failed insert rejects with `Failed to send verification code`. */
  method SignUp(codes: VC.CodeTable, email: string, signUpResult: AuthResult,
                draw: VC.Draw, now: int, insertFails: bool) returns (r: Settled<()>)
    modifies codes
    ensures signUpResult.AuthError? ==> r == Rejected(signUpResult.message) && codes.rows == old(codes.rows)
    ensures signUpResult.AuthOk? && insertFails ==>
              r == Rejected(VC.SEND_FAILED) && codes.rows == old(codes.rows)
    ensures signUpResult.AuthOk? && !insertFails ==>
              && r == Resolved(())
              && codes.rows == old(codes.rows) + [VC.CodeRow(email, VC.GenerateCode(draw), now + 900_000)]
  {
    if signUpResult.AuthError? {
      return Rejected(signUpResult.message);
    }
    var sent := codes.SendVerificationCode(email, draw, now, insertFails);
    if sent.Rejected? {
      return Rejected(sent.reason);
    }
    return Resolved(());
  }

  /** `sendCode(email)`: issue a code and discard it. */
  method SendCode(codes: VC.CodeTable, email: string, draw: VC.Draw, now: int, insertFails: bool)
    returns (r: Settled<()>)
    modifies codes
    ensures insertFails ==> r == Rejected(VC.SEND_FAILED) && codes.rows == old(codes.rows)
    ensures !insertFails ==>
              && r == Resolved(())
              && codes.rows == old(codes.rows) + [VC.CodeRow(email, VC.GenerateCode(draw), now + 900_000)]
  {
    var sent := codes.SendVerificationCode(email, draw, now, insertFails);
    if sent.Rejected? {
      return Rejected(sent.reason);
    }
    return Resolved(());
  }

  /** `useAuth()`: the context value when a provider is present, otherwise
      a thrown error with a fixed message. */
  function UseAuth<C>(context: Option<C>): (r: Settled<C>)
    ensures context.None? ==> r == Rejected(OUTSIDE_PROVIDER)
    ensures context.Some? ==> r == Resolved(context.value)
  {
    match context
    case None => Rejected(OUTSIDE_PROVIDER)
    case Some(c) => Resolved(c)
  }
}
