/**
 * Environment detection: which shell and package manager a platform offers,
 * and the install command for a package. The platform queries
 * (`platform.system()`, `shutil.which`, running `python --version`) are
 * parameters.
 */
module Environment {
  import opened Wrappers
  import PyStr

  /** What the probing functions report about the machine. */
  datatype Probe = Probe(
    os: string,
    osVersion: string,
    architecture: string,
    which: string -> Option<string>,  // `shutil.which`: the path of an executable, if any
    version: string -> Option<string>) // the stripped `--version` output of a successful run, if any

  datatype EnvInfo = EnvInfo(
    os: string,
    osVersion: string,
    architecture: string,
    pythonInstalled: Option<string>,
    pythonVersion: Option<string>,
    packageManager: Option<string>,
    shell: Option<string>)

  /** A `which` result is truthy. */
  predicate Found(p: Probe, exe: string) {
    p.which(exe).Some? && p.which(exe).value != ""
  }

  /** `which("python") or which("python3")` */
  function PythonCommand(p: Probe): (r: Option<string>)
    ensures Found(p, "python") ==> r == p.which("python")
    ensures !Found(p, "python") && Found(p, "python3") ==> r == p.which("python3")
    ensures !Found(p, "python") && !Found(p, "python3") ==> r.None? || r == Some("")
  {
    if Found(p, "python") then p.which("python") else p.which("python3")
  }

  /** The default shell of an OS. */
  function ShellFor(os: string): (r: Option<string>)
    ensures r == Some("powershell") <==> os == "Windows"
    ensures r == Some("bash") <==> os == "Linux" || os == "Darwin"
    ensures r.None? <==> os != "Windows" && os != "Linux" && os != "Darwin"
  {
    if os == "Windows" then Some("powershell")
    else if os == "Linux" || os == "Darwin" then Some("bash")
    else None
  }

  /** The package managers with a template. */
  const KnownManagers := ["chocolatey", "winget", "apt", "yum", "dnf", "homebrew", "pacman"]

  /** The package manager found, tried in the order of the OS's preference. */
  function ManagerFor(p: Probe): (r: Option<string>)
    ensures r.Some? ==> r.value in KnownManagers
    ensures r == Some("chocolatey") <==> p.os == "Windows" && Found(p, "choco")
    ensures r == Some("winget") <==> p.os == "Windows" && !Found(p, "choco") && Found(p, "winget")
    ensures r == Some("apt") <==> p.os == "Linux" && (Found(p, "apt-get") || Found(p, "apt"))
    ensures r == Some("yum") <==> p.os == "Linux" && !Found(p, "apt-get") && !Found(p, "apt") && Found(p, "yum")
    ensures r == Some("dnf") <==> p.os == "Linux" && !Found(p, "apt-get") && !Found(p, "apt") && !Found(p, "yum") && Found(p, "dnf")
    ensures r == Some("pacman") <==>
      p.os == "Linux" && !Found(p, "apt-get") && !Found(p, "apt") && !Found(p, "yum") && !Found(p, "dnf") && Found(p, "pacman")
    ensures r == Some("homebrew") <==> p.os == "Darwin" && Found(p, "brew")
    ensures r.None? && p.os == "Linux" ==> !Found(p, "apt-get") && !Found(p, "apt") && !Found(p, "yum") && !Found(p, "dnf") && !Found(p, "pacman")
    ensures p.os !in {"Windows", "Linux", "Darwin"} ==> r.None?
  {
    if p.os == "Windows" then
      if Found(p, "choco") then Some("chocolatey") else if Found(p, "winget") then Some("winget") else None
    else if p.os == "Linux" then
      if Found(p, "apt-get") || Found(p, "apt") then Some("apt")
      else if Found(p, "yum") then Some("yum")
      else if Found(p, "dnf") then Some("dnf")
      else if Found(p, "pacman") then Some("pacman")
      else None
    else if p.os == "Darwin" then
      if Found(p, "brew") then Some("homebrew") else None
    else None
  }

  /** `check_environment` */
  function CheckEnvironment(p: Probe): (r: EnvInfo)
    ensures r.os == p.os && r.shell == ShellFor(p.os) && r.packageManager == ManagerFor(p)
    ensures r.pythonVersion.Some? ==> r.pythonInstalled.Some?
    ensures r.osVersion == p.osVersion && r.architecture == p.architecture
    ensures Found(p, "python") ==> r.pythonInstalled == p.which("python")
    ensures !Found(p, "python") && Found(p, "python3") ==> r.pythonInstalled == p.which("python3")
    ensures !Found(p, "python") && !Found(p, "python3") ==> r.pythonInstalled.None? && r.pythonVersion.None?
    ensures r.pythonInstalled.Some? ==> r.pythonInstalled == PythonCommand(p) && r.pythonVersion == p.version(r.pythonInstalled.value)
  {
    var cmd := PythonCommand(p);
    var found := cmd.Some? && cmd.value != "";
    EnvInfo(p.os, p.osVersion, p.architecture,
            if found then cmd else None,
            if found then p.version(cmd.value) else None,
            ManagerFor(p), ShellFor(p.os))
  }

  /** A shell and a package manager always belong to a known OS, and match it. */
  lemma {:induction false} ManagerMatchesShell(p: Probe)
    ensures ManagerFor(p).Some? ==> ShellFor(p.os).Some?
    ensures ManagerFor(p) == Some("chocolatey") || ManagerFor(p) == Some("winget") ==> ShellFor(p.os) == Some("powershell")
    ensures ManagerFor(p) == Some("homebrew") ==> p.os == "Darwin"
  {
  }

  /** `winget_packages.get(package, package)` */
  function WingetId(package: string): string {
    if package == "python3" then "Python.Python.3"
    else if package == "nodejs" then "OpenJS.NodeJS"
    else if package == "git" then "Git.Git"
    else package
  }

  /** A command template with the package in the middle. */
  function Template(prefix: string, package: string, suffix: string): (r: string)
    ensures PyStr.Contains(r, package)
  {
    assert PyStr.OccursAt(package, package, 0);
    PyStr.OccursInMiddle(prefix, package, suffix, package, 0);
    prefix + package + suffix
  }

  /** The install command for a package under a package manager. */
  function InstallCommand(package: string, manager: Option<string>): (r: Option<string>)
    ensures r.Some? <==> manager.Some? && manager.value in KnownManagers
    ensures r.Some? && manager.value != "winget" ==> PyStr.Contains(r.value, package)
    ensures r.Some? && manager.value == "winget" ==> PyStr.Contains(r.value, WingetId(package))
  {
    if manager == Some("chocolatey") then Some(Template("choco install ", package, " -y"))
    else if manager == Some("winget") then Some(Template("winget install ", WingetId(package), " -e"))
    else if manager == Some("apt") then Some(Template("sudo apt-get install -y ", package, ""))
    else if manager == Some("yum") then Some(Template("sudo yum install -y ", package, ""))
    else if manager == Some("dnf") then Some(Template("sudo dnf install -y ", package, ""))
    else if manager == Some("homebrew") then Some(Template("brew install ", package, ""))
    else if manager == Some("pacman") then Some(Template("sudo pacman -S --noconfirm ", package, ""))
    else None
  }

  /** `get_install_command`: without environment information, the environment is probed first. */
  function GetInstallCommand(package: string, envInfo: Option<EnvInfo>, p: Probe): (r: Option<string>)
    ensures envInfo.None? ==> r == InstallCommand(package, ManagerFor(p))
    ensures envInfo.None? ==> (r.Some? <==> ManagerFor(p).Some?)
    ensures envInfo.Some? ==> r == InstallCommand(package, envInfo.value.packageManager)
  {
    var env := if envInfo.Some? then envInfo.value else CheckEnvironment(p);
    InstallCommand(package, env.packageManager)
  }

  /** winget passes any name it does not know through unchanged. */
  lemma {:induction false} WingetPassThrough(package: string)
    requires package != "python3" && package != "nodejs" && package != "git"
    ensures InstallCommand(package, Some("winget")) == Some("winget install " + package + " -e")
  {
  }

  datatype Suggestion = Suggestion(os: string, packageManager: Option<string>, installCommand: Option<string>, manualUrl: Option<string>)

  /** The download page for an OS. */
  function ManualUrl(os: string): (r: Option<string>)
    ensures r.None? <==> ShellFor(os).None?
  {
    if os == "Windows" then Some("https://www.python.org/downloads/windows/")
    else if os == "Linux" then Some("https://www.python.org/downloads/")
    else if os == "Darwin" then Some("https://www.python.org/downloads/macos/")
    else None
  }

  /** `suggest_python_install` */
  function SuggestPythonInstall(p: Probe): (r: Suggestion)
    ensures r.os == p.os && r.packageManager == ManagerFor(p)
    ensures r.installCommand == InstallCommand("python3", ManagerFor(p))
    ensures r.manualUrl == ManualUrl(p.os)
  {
    var env := CheckEnvironment(p);
    Suggestion(env.os, env.packageManager, GetInstallCommand("python3", Some(env), p), ManualUrl(env.os))
  }

  /** The manual download link depends on the OS alone. */
  lemma {:induction false} ManualUrlOnlyOs(p: Probe, q: Probe)
    requires p.os == q.os
    ensures SuggestPythonInstall(p).manualUrl == SuggestPythonInstall(q).manualUrl
  {
  }
}
