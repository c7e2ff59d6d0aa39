# DiagnosticInfo: environment and elevation resolution

A Dafny model of the diagnostics helper `DiagnosticInfo` (in `src/Static/DiagnosticInfo.cs`),
which tells support staff what the running process's environment is: the
operating-system name, its service-pack label, process and OS bitness, whether
User Account Control (UAC) is on, and whether the process is really running
elevated.

Every native call the class makes is represented by the value it returns, so
the decision logic is stated over all possible answers:

- `win32.dfy` (`Win32`): registry values as .NET boxes them, the policy key,
  the outcomes of `OpenProcessToken`, `AllocHGlobal` and `GetTokenInformation`,
  Windows' `TOKEN_ELEVATION_TYPE` codes, and the platform's documented
  guarantee that a returned handle or buffer address is never zero
  (`NativeContract`).
- `system_info.dfy` (`SystemInfo`): the bitness labels, the service-pack
  label, the server-edition test (a loop over the rows of the
  `Win32_OperatingSystem` query that decides on the first row), and the
  operating-system name table with lemmas that state it row by row.
- `scoped_resources.dfy` (`ScopedResources`): the events of the token
  inspection (`Open`, `Alloc`, `Query`, `Free`, `Close`), a replay of an event
  log against a stack of held resources that defines well-nested scopes, the
  theorem that a well-nested log releases everything it acquires, and the
  exact event sequence the elevation check produces.
- `elevation.dfy` (`Elevation`): the UAC flag, `RunningAsAdministrator`, and
  `IsProcessElevated` as a method returning a success-or-exception result and
  a ghost event log; the exception messages and the Win32 code they carry.
- `decimal.dfy` (`Decimal`): `Int32.ToString()` as used in the token-open
  exception message, and a parser proved to invert it.
- `wrappers.dfy` (`Wrappers`): `Option` (a possibly-null reference) and
  `Result` (a value or a thrown exception).

`RunningAsAdministrator` (`src/Static/DiagnosticInfo.cs:65-68`) is the
role-membership input itself; its property (it is what `IsProcessElevated`
answers when UAC is off) is part of `Elevation.IsProcessElevated`'s contract.
`ProcessBitness` and `OperatingSystemBitness` are one mapping applied to two
inputs and are modelled by the single function `SystemInfo.BitnessLabel`.

The model follows the code as written; in particular:

- A missing policy key or a missing `EnableLUA` value is dereferenced as null
  (`NullReference`), not reported as a dedicated configuration error.
- The elevation type read from the buffer is compared with the code of
  `Full` without a decoding check: an unrecognised code reads as "not
  elevated" rather than failing.
- The token-query failure message carries no Win32 error code; only the
  token-open failure does.
- The code also handles `AllocHGlobal` throwing `OutOfMemoryException`, after
  which the token handle is still closed.

## Model

| member | source | states |
|---|---|---|
| `SystemInfo.BitnessLabel` | src/Static/DiagnosticInfo.cs:70-78 | "64-Bit" exactly when the 64-bit flag is set, "32-Bit" exactly when it is not |
| `SystemInfo.OperatingSystemServicePack` | src/Static/DiagnosticInfo.cs:134-142 | never empty; a non-empty CSD string is returned unchanged; "No Service Pack" exactly when the string is null, empty or already that text |
| `SystemInfo.IsServerVersion` | src/Static/DiagnosticInfo.cs:205-220 | server edition exactly when there is at least one row and the first row's ProductType is not 1; no rows means workstation; later rows are never consulted |
| `SystemInfo.OperatingSystemVersion` | src/Static/DiagnosticInfo.cs:80-132 | total: every input yields one of the fourteen names the getter can return |
| `SystemInfo.EarlyReleasesIgnoreEditionAndMetric` | src/Static/DiagnosticInfo.cs:88-97 | major 3 is "Windows NT 3.51", major 4 "Windows NT 4.0", 5.0 "Windows 2000", 5.1 "Windows XP", whatever the edition and the metric |
| `SystemInfo.LaterFiveReleases` | src/Static/DiagnosticInfo.cs:99-106 | 5.x beyond 5.1: a server is "Windows Server 2003" when SM_SERVERR2 is 0 and "Windows Server 2003 R2" otherwise; a workstation is "Windows XP" |
| `SystemInfo.SixReleases` | src/Static/DiagnosticInfo.cs:108-127 | 6.0 Server 2008 / Vista, 6.1 Server 2008 R2 / 7 by edition; 6.2 "Windows 8" for both editions; any other minor Server 2012 R2 / 8.1 by edition |
| `SystemInfo.MetricOnlyDecidesServer2003` | src/Static/DiagnosticInfo.cs:99-104 | outside the server path of 5.x beyond 5.1 the SM_SERVERR2 metric cannot change the name |
| `SystemInfo.UnknownExactlyOutsideNt` | src/Static/DiagnosticInfo.cs:86-130 | "Unknown" exactly when the major version is outside 3 to 6 |
| `SystemInfo.ServerNamesExactlyForServers` | src/Static/DiagnosticInfo.cs:99-127 | a "Windows Server ..." name is given exactly to a server edition of 5.x beyond 5.1 or of 6.x other than 6.2; a workstation never gets one |
| `Win32.ElevationTypeOf` | src/Static/DiagnosticInfo.cs:171 | a raw 32-bit code denotes an elevation type exactly when it is 1, 2 or 3, and then that type's code is the raw value |
| `Win32.ElevationCodeRoundTrip` | src/Static/DiagnosticInfo.cs:171 | each elevation type's code decodes back to that type |
| `Elevation.OnlyFullIsElevated` | src/Static/DiagnosticInfo.cs:172 | of Default, Full and Limited, only Full compares equal to TokenElevationTypeFull |
| `Elevation.IsUacEnabled` | src/Static/DiagnosticInfo.cs:222-229 | fails (null dereference) exactly when the policy key or the EnableLUA value is missing; enabled exactly when the value is a REG_DWORD holding 1, so a QWORD 1 or the string "1" reads as disabled |
| `Elevation.IsProcessElevated` | src/Static/DiagnosticInfo.cs:144-203 | UAC off: the administrator-role answer (RunningAsAdministrator, lines 65-68) and none of the token inspection's resources acquired; token open fails: an exception with the Win32 code, nothing allocated or closed; query ran: true exactly when the raw code is Full's, a failed query yields no value; the event log is exactly open, allocate, query, free, close with each release behind its zero guard, and is well nested whenever handles and addresses are non-zero |
| `Elevation.TokenOpenMessageCarriesCode` | src/Static/DiagnosticInfo.cs:151-154 | the token-open exception message determines the Win32 error code it reports |
| `Elevation.UndeterminedMessageCarriesNoCode` | src/Static/DiagnosticInfo.cs:175-178 | the token-query exception message reports no Win32 error code |
| `Elevation.AccessDeniedMessage` | src/Static/DiagnosticInfo.cs:153 | Win32 error 5 gives the message "Could not get process token.  Win32 Error Code: 5" |
| `Decimal.IntToString` | src/Static/DiagnosticInfo.cs:153 | the rendering of the error code is non-empty and starts with '-' exactly for negative codes |
| `Decimal.IntToStringRoundTrip` | src/Static/DiagnosticInfo.cs:153 | parsing the rendering of an integer gives back that integer |
| `Decimal.IntToStringInjective` | src/Static/DiagnosticInfo.cs:153 | distinct error codes give distinct renderings |
| `ScopedResources.ReplayBalances` | src/Static/DiagnosticInfo.cs:150-194 | replaying any log keeps the books: held plus acquired equals released plus still held, for handles and for buffers |
| `ScopedResources.WellNestedReleasesAll` | src/Static/DiagnosticInfo.cs:150-194 | a well-nested log closes as many handles as it opens and frees as many buffers as it allocates |
| `ScopedResources.ElevationTraceNests` | src/Static/DiagnosticInfo.cs:156-194 | when both zero guards pass, the elevation check's log is well nested: the query runs while handle and buffer are held, the buffer is freed before the handle is closed |
| `ScopedResources.ElevationTraceAtMostOnce` | src/Static/DiagnosticInfo.cs:150-194 | the check opens, allocates, queries, frees and closes at most once each |
| `ScopedResources.ElevationTraceReleasesAll` | src/Static/DiagnosticInfo.cs:156-194 | when both zero guards pass, the handle is opened and closed exactly once, and the buffer is freed exactly once if and only if it was allocated |

## Left out

- The native and OS calls themselves (registry access, the WMI query, `GetSystemMetrics`, `GetVersionEx` and the `OSVERSIONINFO` marshalling, `OpenProcessToken`, `AllocHGlobal`, `GetTokenInformation`, `FreeHGlobal`, `CloseHandle`, the `WindowsIdentity`/`WindowsPrincipal` role lookup): each is represented by the value it returns; their exceptions (other than `OpenProcessToken`'s failure and `AllocHGlobal`'s `OutOfMemoryException`), such as those of `WindowsIdentity.GetCurrent`, `OpenSubKey` and the WMI query, are not modelled.
- `SystemInfo.OperatingSystemVersion`: takes the edition answer and the SM_SERVERR2 metric as inputs, so it does not capture that the getter runs the WMI query and the metric call only on the branches that need them (neither has an effect the result depends on).
- `SystemInfo.IsServerVersion`: the disposal of the WMI searcher by its `using` scope is not modelled, nor a `ProductType` property that is missing or not a `uint`.
- `Elevation.IsProcessElevated`: the size passed to `AllocHGlobal` and the byte count `GetTokenInformation` reports are not modelled; the source ignores the latter.
- `Elevation.IsProcessElevated`: the role lookup's `WindowsIdentity.GetCurrent()` (lines 67 and 198) opens a token handle held by an identity object the code never disposes, leaving its release to the finalizer; that handle is not in the event log, which records only the token inspection's resources.
- `Decimal.IntToString`: assumes a culture whose negative sign is '-'.
- `AssemblyVersion`, `AssemblyFileVersion` (reflection getters), `IsApplicationNetworkDeployed` and `DeploymentVersion` (deployment-service pass-throughs): thin wrappers with no logic.
- The `TOKEN_READ` access mask (a constant passed to `OpenProcessToken`).
- The Portuguese `ConversationAlpha` keyboard view: a UI constructor with no logic.
- Concurrent calls: the class holds no shared state.
- The numeric values of `TOKEN_ELEVATION_TYPE` (1, 2, 3) are Windows' own; the enum declaration in the native interop files is not part of this model.
