/**
  The descriptive diagnostics: bitness labels, the service-pack tag, the
  server-edition test and the operating-system name.
 */
module SystemInfo {
  import opened Wrappers
  import opened Win32

  /**
    The tag ProcessBitness and OperatingSystemBitness give for
    Environment.Is64BitProcess and Environment.Is64BitOperatingSystem.
   */
  function BitnessLabel(is64: bool): (tag: string)
    ensures tag == "64-Bit" <==> is64
    ensures tag == "32-Bit" <==> !is64
  {
    if is64 then "64-Bit" else "32-Bit"
  }

  const NoServicePack := "No Service Pack"

  /**
    OperatingSystemServicePack, given the szCSDVersion field GetVersionEx
    filled in (None when it is null).
   */
  function OperatingSystemServicePack(csdVersion: Option<string>): (tag: string)
    ensures tag != []
    ensures csdVersion.Some? && csdVersion.value != [] ==> tag == csdVersion.value
    ensures tag == NoServicePack <==>
              csdVersion.None? || csdVersion.value == [] || csdVersion.value == NoServicePack
  {
    if csdVersion.None? || csdVersion.value == [] then NoServicePack else csdVersion.value
  }

  /**
    IsServerVersion, given the ProductType of each row the query
    "SELECT * FROM Win32_OperatingSystem" yields, in order: the first row
    decides, and no row means a workstation.
   */
  method IsServerVersion(productTypes: seq<uint32>) returns (server: bool)
    ensures server <==> |productTypes| > 0 && productTypes[0] != WorkstationProductType
  {
    for i := 0 to |productTypes|
      invariant i == 0
    {
      return productTypes[i] != WorkstationProductType;
    }
    return false;
  }

  /** Every name OperatingSystemVersion can give. */
  const VersionNames: set<string> := {
    "Windows NT 3.51", "Windows NT 4.0", "Windows 2000", "Windows XP",
    "Windows Server 2003", "Windows Server 2003 R2",
    "Windows Server 2008", "Windows Vista", "Windows Server 2008 R2", "Windows 7",
    "Windows 8", "Windows Server 2012 R2", "Windows 8.1", "Unknown"
  }

  const ServerPrefix := "Windows Server "

  predicate IsServerName(name: string) {
    |ServerPrefix| <= |name| && name[..|ServerPrefix|] == ServerPrefix
  }

  /**
    OperatingSystemVersion for Environment.OSVersion.Version = major.minor,
    where `isServer` is what IsServerVersion answers and `serverR2Metric` is
    what GetSystemMetrics(SmServerR2) answers.
   */
  function OperatingSystemVersion(major: int, minor: int, isServer: bool, serverR2Metric: int): (name: string)
    ensures name in VersionNames
  {
    if major == 3 then "Windows NT 3.51"
    else if major == 4 then "Windows NT 4.0"
    else if major == 5 then
      if minor == 0 then "Windows 2000"
      else if minor == 1 then "Windows XP"
      else if isServer then
        if serverR2Metric == 0 then "Windows Server 2003" else "Windows Server 2003 R2"
      else "Windows XP"
    else if major == 6 then
      if minor == 0 then (if isServer then "Windows Server 2008" else "Windows Vista")
      else if minor == 1 then (if isServer then "Windows Server 2008 R2" else "Windows 7")
      else if minor == 2 then "Windows 8"
      else if isServer then "Windows Server 2012 R2"
      else "Windows 8.1"
    else "Unknown"
  }

  /** NT 3.51, NT 4.0, 2000 and XP (5.1) are named from the version alone. */
  lemma EarlyReleasesIgnoreEditionAndMetric(minor: int, isServer: bool, metric: int)
    ensures OperatingSystemVersion(3, minor, isServer, metric) == "Windows NT 3.51"
    ensures OperatingSystemVersion(4, minor, isServer, metric) == "Windows NT 4.0"
    ensures OperatingSystemVersion(5, 0, isServer, metric) == "Windows 2000"
    ensures OperatingSystemVersion(5, 1, isServer, metric) == "Windows XP"
  {
  }

  /** Version 5.x beyond 5.1: Server 2003 (R2 by the metric) on servers, XP otherwise. */
  lemma LaterFiveReleases(minor: int, isServer: bool, metric: int)
    requires minor != 0 && minor != 1
    ensures isServer && metric == 0 ==> OperatingSystemVersion(5, minor, isServer, metric) == "Windows Server 2003"
    ensures isServer && metric != 0 ==> OperatingSystemVersion(5, minor, isServer, metric) == "Windows Server 2003 R2"
    ensures !isServer ==> OperatingSystemVersion(5, minor, isServer, metric) == "Windows XP"
  {
  }

  /** Version 6.x: 6.2 is always Windows 8; the other minors split by edition. */
  lemma SixReleases(minor: int, isServer: bool, metric: int)
    ensures minor == 0 ==> OperatingSystemVersion(6, minor, isServer, metric) ==
                           if isServer then "Windows Server 2008" else "Windows Vista"
    ensures minor == 1 ==> OperatingSystemVersion(6, minor, isServer, metric) ==
                           if isServer then "Windows Server 2008 R2" else "Windows 7"
    ensures minor == 2 ==> OperatingSystemVersion(6, minor, isServer, metric) == "Windows 8"
    ensures minor !in {0, 1, 2} ==> OperatingSystemVersion(6, minor, isServer, metric) ==
                                    if isServer then "Windows Server 2012 R2" else "Windows 8.1"
  {
  }

  /** The SM_SERVERR2 metric matters only for a server edition of 5.x beyond 5.1. */
  lemma MetricOnlyDecidesServer2003(major: int, minor: int, isServer: bool, metric1: int, metric2: int)
    requires !(major == 5 && minor != 0 && minor != 1 && isServer)
    ensures OperatingSystemVersion(major, minor, isServer, metric1) ==
            OperatingSystemVersion(major, minor, isServer, metric2)
  {
  }

  /** "Unknown" is given exactly for the majors outside 3 to 6. */
  lemma UnknownExactlyOutsideNt(major: int, minor: int, isServer: bool, metric: int)
    ensures OperatingSystemVersion(major, minor, isServer, metric) == "Unknown" <==> !(3 <= major <= 6)
  {
  }

  /**
    A server name is given exactly to a server edition of a version whose
    name depends on the edition.
   */
  lemma ServerNamesExactlyForServers(major: int, minor: int, isServer: bool, metric: int)
    ensures IsServerName(OperatingSystemVersion(major, minor, isServer, metric)) <==>
            isServer && ((major == 5 && minor != 0 && minor != 1) || (major == 6 && minor != 2))
  {
    var name := OperatingSystemVersion(major, minor, isServer, metric);
    if !(isServer && ((major == 5 && minor != 0 && minor != 1) || (major == 6 && minor != 2))) {
      if |ServerPrefix| <= |name| {
        assert name == "Windows NT 3.51";
        assert name[8] != ServerPrefix[8];
      }
    }
  }
}
