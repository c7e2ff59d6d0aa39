/**
  Whether the current process runs with administrative privilege: the UAC
  policy flag, the role-membership answer when UAC is off, and the token
  inspection, with its nested handle and buffer scopes, when UAC is on.
 */
module Elevation {
  import opened Wrappers
  import opened Win32
  import opened Decimal
  import opened ScopedResources

  /** The exceptions the elevation check lets escape. */
  datatype Error =
    | NullReference                // NullReferenceException
    | OutOfMemory                  // OutOfMemoryException from AllocHGlobal
    | ApplicationError(message: string)  // ApplicationException with its message

  const TokenOpenMessagePrefix := "Could not get process token.  Win32 Error Code: "
  const UndeterminedMessage := "Unable to determine the current elevation."

  /** The message thrown when OpenProcessToken fails with Win32 error `code`. */
  function TokenOpenMessage(code: int32): string {
    TokenOpenMessagePrefix + IntToString(code as int)
  }

  /** The Win32 error code a message reports, if it is a token-open message. */
  function Win32CodeOf(message: string): Option<int> {
    if |TokenOpenMessagePrefix| <= |message| && message[..|TokenOpenMessagePrefix|] == TokenOpenMessagePrefix
    then ParseInt(message[|TokenOpenMessagePrefix|..])
    else None
  }

  /** A token-open failure reports its Win32 error code, recoverably. */
  lemma TokenOpenMessageCarriesCode(code: int32)
    ensures Win32CodeOf(TokenOpenMessage(code)) == Some(code as int)
  {
    var m := TokenOpenMessage(code);
    assert m[..|TokenOpenMessagePrefix|] == TokenOpenMessagePrefix;
    assert m[|TokenOpenMessagePrefix|..] == IntToString(code as int);
    IntToStringRoundTrip(code as int);
  }

  /** A token-query failure reports no Win32 error code. */
  lemma UndeterminedMessageCarriesNoCode()
    ensures Win32CodeOf(UndeterminedMessage) == None
  {
    assert |UndeterminedMessage| < |TokenOpenMessagePrefix|;
  }

  /**
    IsUacEnabled: reads EnableLUA under the policy key; only a REG_DWORD
    holding 1 (a boxed Int32 equal to 1) means enabled. A missing key or a
    missing value is dereferenced as null.
   */
  function IsUacEnabled(policyKey: Option<PolicyKey>): (r: Result<bool, Error>)
    ensures r.Failure? <==> policyKey.None? || policyKey.value.enableLua.None?
    ensures r.Failure? ==> r.error == NullReference
    ensures r == Success(true) <==> policyKey == Some(PolicyKey(Some(DWord(1))))
  {
    match policyKey
    case None => Failure(NullReference)
    case Some(key) =>
      match key.enableLua
      case None => Failure(NullReference)
      case Some(value) => Success(value.DWord? && value.dword == 1)
  }

  /** RunningAsAdministrator: membership of the current identity in the Administrators role. */
  function RunningAsAdministrator(env: Environment): bool {
    env.inAdministratorRole
  }

  predicate UacOn(env: Environment) {
    IsUacEnabled(env.policyKey) == Success(true)
  }

  predicate UacOff(env: Environment) {
    IsUacEnabled(env.policyKey) == Success(false)
  }

  /** The token was opened and the buffer allocated: the query ran. */
  predicate QueryRan(env: Environment) {
    UacOn(env) && env.tokenOpen.Opened? && env.allocation.Allocated?
  }

  /**
    IsProcessElevated. `log` records, in order, every acquisition, query and
    release of a token-inspection resource (token handle, buffer) the call performs.
   */
  method IsProcessElevated(env: Environment) returns (r: Result<bool, Error>, ghost log: seq<Event>)
    // the UAC flag could not be read
    ensures IsUacEnabled(env.policyKey).Failure? ==> r == Failure(NullReference) && log == []
    // UAC off: the role-membership answer, and none of the token inspection's resources is acquired
    ensures UacOff(env) ==> r == Success(RunningAsAdministrator(env)) && log == []
    // UAC on, token not opened: the Win32 code is reported, nothing is allocated or closed
    ensures UacOn(env) && env.tokenOpen.OpenFailed? ==>
              r == Failure(ApplicationError(TokenOpenMessage(env.tokenOpen.lastError))) && log == []
    // UAC on, token opened: the buffer scope sits inside the handle scope and
    // each release runs on success and failure alike, guarded by a zero test
    ensures UacOn(env) && env.tokenOpen.Opened? ==>
              log == ElevationTrace(env.allocation.Allocated?,
                                    env.allocation.Allocated? && env.allocation.address != 0,
                                    env.tokenOpen.handle != 0)
    ensures UacOn(env) && env.tokenOpen.Opened? && env.allocation.AllocationFailed? ==>
              r == Failure(OutOfMemory)
    // elevated exactly when the token's elevation type is Full; a failed query yields no value
    ensures QueryRan(env) && env.tokenQuery.Written? ==>
              r == Success(ElevationTypeOf(env.tokenQuery.raw) == Some(Full))
    ensures QueryRan(env) && env.tokenQuery.QueryFailed? ==>
              r == Failure(ApplicationError(UndeterminedMessage))
    // under the platform's guarantees, every scope opened is closed, innermost first
    ensures NativeContract(env) ==> WellNested(log)
  {
    log := [];
    var uacEnabled := IsUacEnabled(env.policyKey);
    if uacEnabled.Failure? {
      return Failure(uacEnabled.error), log;
    }
    if uacEnabled.value {
      if env.tokenOpen.OpenFailed? {
        return Failure(ApplicationError(TokenOpenMessage(env.tokenOpen.lastError))), log;
      }
      var tokenHandle := env.tokenOpen.handle;
      log := log + [Open];
      // try
      if env.allocation.AllocationFailed? {
        r := Failure(OutOfMemory);
      } else {
        var elevationTypePtr := env.allocation.address;
        log := log + [Alloc];
        // try
        log := log + [Query];
        match env.tokenQuery {
          case Written(raw) =>
            r := Success(raw == ElevationCode(Full));
          case QueryFailed =>
            r := Failure(ApplicationError(UndeterminedMessage));
        }
        // finally
        if elevationTypePtr != 0 {
          log := log + [Free];
        }
      }
      // finally
      if tokenHandle != 0 {
        log := log + [Close];
      }
      if NativeContract(env) {
        ElevationTraceNests(env.allocation.Allocated?);
      }
    } else {
      r := Success(RunningAsAdministrator(env));
    }
  }

  /** Of the three elevation types only Full reads as elevated. */
  lemma OnlyFullIsElevated(t: ElevationType)
    ensures ElevationTypeOf(ElevationCode(t)) == Some(Full) <==> t == Full
  {
    ElevationCodeRoundTrip(t);
  }

  /** Access denied (Win32 error 5) while opening the token. */
  lemma AccessDeniedMessage()
    ensures TokenOpenMessage(5) == "Could not get process token.  Win32 Error Code: 5"
  {
    assert IntToString(5) == "5";
  }
}
