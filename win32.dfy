/**
  What the Windows platform hands to the diagnostics code. Every native call
  the diagnostics code makes (registry, WMI, GetSystemMetrics, GetVersionEx,
  OpenProcessToken, AllocHGlobal, GetTokenInformation, the role lookup) is
  represented here by the value it returns, so that the decision logic can be
  stated over all possible answers.
 */
module Win32 {
  import opened Wrappers

  newtype int32 = x: int | -0x8000_0000 <= x < 0x8000_0000
  newtype int64 = x: int | -0x8000_0000_0000_0000 <= x < 0x8000_0000_0000_0000
  newtype uint32 = x: int | 0 <= x < 0x1_0000_0000

  /** A registry value as `RegistryKey.GetValue` boxes it. */
  datatype RegistryValue =
    | DWord(dword: int32)            // REG_DWORD, boxed as Int32
    | QWord(qword: int64)            // REG_QWORD, boxed as Int64
    | Text(text: string)             // REG_SZ and REG_EXPAND_SZ
    | MultiText(lines: seq<string>)  // REG_MULTI_SZ
    | Binary(bytes: seq<bv8>)        // REG_BINARY

  /**
    The policy key Software\Microsoft\Windows\CurrentVersion\Policies\System
    under HKEY_LOCAL_MACHINE, opened read-only; `enableLua` is its EnableLUA
    value, None when the key has no such value.
   */
  datatype PolicyKey = PolicyKey(enableLua: Option<RegistryValue>)

  /** `ProductType` of a Win32_OperatingSystem row that denotes a workstation. */
  const WorkstationProductType: uint32 := 1

  /** The GetSystemMetrics index SM_SERVERR2: nonzero on Windows Server 2003 R2. */
  const SmServerR2: int := 89

  /** Windows' TOKEN_ELEVATION_TYPE. */
  datatype ElevationType = Default | Full | Limited

  /** The 32-bit code Windows writes for each elevation type. */
  function ElevationCode(t: ElevationType): (code: int32)
    ensures 1 <= code <= 3
  {
    match t
    case Default => 1
    case Full => 2
    case Limited => 3
  }

  /** The elevation type a raw 32-bit code denotes, if any. */
  function ElevationTypeOf(raw: int32): (t: Option<ElevationType>)
    ensures t.Some? <==> 1 <= raw <= 3
    ensures t.Some? ==> ElevationCode(t.value) == raw
  {
    if raw == 1 then Some(Default)
    else if raw == 2 then Some(Full)
    else if raw == 3 then Some(Limited)
    else None
  }

  lemma ElevationCodeRoundTrip(t: ElevationType)
    ensures ElevationTypeOf(ElevationCode(t)) == Some(t)
  {
  }

  /** What OpenProcessToken reports: the handle it wrote, or failure and the last Win32 error. */
  datatype TokenOpen = Opened(handle: int) | OpenFailed(lastError: int32)

  /** What AllocHGlobal does: return an address, or throw OutOfMemoryException. */
  datatype Allocation = Allocated(address: int) | AllocationFailed

  /**
    What GetTokenInformation(TokenElevationType) does: succeed, after which the
    buffer holds the 32-bit value it wrote, or fail.
   */
  datatype TokenQuery = Written(raw: int32) | QueryFailed

  /** The answers of every native call the elevation check can make. */
  datatype Environment = Environment(
    policyKey: Option<PolicyKey>,   // None: OpenSubKey returned null
    inAdministratorRole: bool,      // WindowsPrincipal.IsInRole(Administrator)
    tokenOpen: TokenOpen,
    allocation: Allocation,
    tokenQuery: TokenQuery)

  /**
    The documented guarantees of the platform: a token handle returned by a
    successful OpenProcessToken and an address returned by AllocHGlobal are
    never zero.
   */
  predicate NativeContract(env: Environment) {
    (env.tokenOpen.Opened? ==> env.tokenOpen.handle != 0) &&
    (env.allocation.Allocated? ==> env.allocation.address != 0)
  }
}
