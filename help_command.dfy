/** The help command (src/commands/help.ts). Its usage text is console
    output and is not modelled; what is modelled is its own copy of the
    platform label table, which must agree with the completion client's. */
module HelpCommand {
  import opened Types
  import CerebrasService

  const Info := Command("help", "Show help information")

  /** The platform table of the help command's switch. */
  const OsLabels: map<string, string> := map[
    "win32" := "Windows", "darwin" := "macOS", "linux" := "Linux",
    "freebsd" := "FreeBSD", "openbsd" := "OpenBSD", "sunos" := "Solaris"]

  /** `getOSType`: the switch's label, "Unix-like" in the default case. */
  function GetOsType(platform: string): (os: string)
    ensures platform == "win32" ==> os == "Windows"
    ensures platform == "darwin" ==> os == "macOS"
    ensures platform == "linux" ==> os == "Linux"
    ensures platform == "freebsd" ==> os == "FreeBSD"
    ensures platform == "openbsd" ==> os == "OpenBSD"
    ensures platform == "sunos" ==> os == "Solaris"
    ensures platform !in OsLabels ==> os == "Unix-like"
  {
    if platform in OsLabels then OsLabels[platform] else "Unix-like"
  }

  /** The two copies of `getOSType` give the same label for every platform string. */
  lemma GetOsTypeAgrees(platform: string)
    ensures GetOsType(platform) == CerebrasService.GetOsType(platform)
  {
    assert OsLabels == CerebrasService.PlatformLabels;
  }
}
