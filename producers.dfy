/** The small segment producers of prompt.py: the wrapping brackets, the virtual
    environment, ssh, read-only, user and host names, the exit status and the root
    indicator (prompt.py:228-296 and 598-625). Environment variables, `os.access` and the
    host name are given as parameters. */
module Producers {
  import opened Wrappers
  import opened Text
  import Colors
  import opened Renderer

  /** An environment variable as Python tests it: set and not empty. */
  predicate Truthy(v: Option<string>) {
    v.Some? && v.value != ""
  }

  // ---------------------------------------------------------------------------------------
  // Wrapping brackets

  function BeginWrapRequest(): Request {
    Request("[", Some(Colors.CmdPassedFg), Some(Colors.CmdPassedBg), Some(""), None)
  }

  function EndWrapRequest(): Request {
    Request("]", Some(Colors.CmdPassedFg), Some(Colors.CmdPassedBg), Some(""), None)
  }

  /** `add_begin_wrap` (prompt.py:229-232). */
  method AddBeginWrap(p: Powerline)
    modifies p
    ensures p.segments == old(p.segments) + Resolve([BeginWrapRequest()], p.separator)
  {
    p.Append("[", Some(Colors.CmdPassedFg), Some(Colors.CmdPassedBg), Some(""), None);
  }

  /** `add_end_wrap` (prompt.py:622-625). */
  method AddEndWrap(p: Powerline)
    modifies p
    ensures p.segments == old(p.segments) + Resolve([EndWrapRequest()], p.separator)
  {
    p.Append("]", Some(Colors.CmdPassedFg), Some(Colors.CmdPassedBg), Some(""), None);
  }

  // ---------------------------------------------------------------------------------------
  // Virtual environment

  /** Index just past the last separator of `s[..n]`, zero when there is none. */
  function NameStart(s: string, n: nat): (k: nat)
    requires n <= |s|
    ensures k <= n
    ensures k > 0 ==> s[k - 1] == '/'
    ensures forall i :: k <= i < n ==> s[i] != '/'
  {
    if n == 0 then 0 else if s[n - 1] == '/' then n else NameStart(s, n - 1)
  }

  /** `os.path.basename`: what follows the last `/`. */
  function Basename(path: string): (r: string)
    ensures '/' !in r
    ensures exists k :: 0 <= k <= |path| && r == path[k..] && (k == 0 || path[k - 1] == '/')
  {
    var k := NameStart(path, |path|);
    assert forall i :: 0 <= i < |path| - k ==> path[k..][i] == path[k + i];
    path[k..]
  }

  /** The environment `add_virtual_env_segment` names: `VIRTUAL_ENV` when set and not empty,
      else `CONDA_ENV_PATH`. */
  function VirtualEnv(virtualEnv: Option<string>, condaEnvPath: Option<string>): Option<string> {
    if Truthy(virtualEnv) then virtualEnv else condaEnvPath
  }

  function VirtualEnvRequests(virtualEnv: Option<string>, condaEnvPath: Option<string>): seq<Request> {
    match VirtualEnv(virtualEnv, condaEnvPath)
    case None => []
    case Some(env) => [Request(" " + Basename(env) + " ", Some(Colors.VirtualEnvFg), Some(Colors.VirtualEnvBg), None, None)]
  }

  /** `add_virtual_env_segment` (prompt.py:238-246). */
  method AddVirtualEnvSegment(p: Powerline, virtualEnv: Option<string>, condaEnvPath: Option<string>)
    modifies p
    ensures p.segments == old(p.segments) + Resolve(VirtualEnvRequests(virtualEnv, condaEnvPath), p.separator)
  {
    var env := if Truthy(virtualEnv) then virtualEnv else condaEnvPath;
    if env.None? {
      return;
    }
    var envName := Basename(env.value);
    p.Append(" " + envName + " ", Some(Colors.VirtualEnvFg), Some(Colors.VirtualEnvBg), None, None);
  }

  /** The segment names the last directory of the environment path. */
  lemma VirtualEnvNamesLastDirectory(virtualEnv: Option<string>, condaEnvPath: Option<string>)
    ensures VirtualEnvRequests(virtualEnv, condaEnvPath) == [] <==> !Truthy(virtualEnv) && condaEnvPath.None?
    ensures Truthy(virtualEnv) ==> VirtualEnvRequests(virtualEnv, condaEnvPath)[0].text == " " + Basename(virtualEnv.value) + " "
    ensures !Truthy(virtualEnv) && condaEnvPath.Some? ==> VirtualEnvRequests(virtualEnv, condaEnvPath)[0].text == " " + Basename(condaEnvPath.value) + " "
  {
  }

  lemma BasenameOfEnv()
    ensures Basename("/home/al/.venvs/" + "tools") == "tools"
  {
    var path := "/home/al/.venvs/" + "tools";
    assert path[15] == '/';
    assert forall i :: 16 <= i < |path| ==> path[i] != '/';
    assert NameStart(path, 16) == 16;
    assert NameStart(path, |path|) == 16;
    assert path[16..] == "tools";
  }

  // ---------------------------------------------------------------------------------------
  // ssh, read-only

  function SshRequests(sshClient: Option<string>, network: string): seq<Request> {
    if Truthy(sshClient) then [Request(network, Some(Colors.SshFg), Some(Colors.SshBg), Some(">"), None)] else []
  }

  /** `add_ssh_segment` (prompt.py:251-254). */
  method AddSshSegment(p: Powerline, sshClient: Option<string>)
    modifies p
    ensures p.segments == old(p.segments) + Resolve(SshRequests(sshClient, p.network), p.separator)
  {
    if Truthy(sshClient) {
      p.Append(p.network, Some(Colors.SshFg), Some(Colors.SshBg), Some(">"), None);
    }
  }

  function ReadOnlyRequests(writable: bool, lock: string): seq<Request> {
    if !writable then [Request(lock, Some(Colors.ReadonlyFg), Some(Colors.ReadonlyBg), Some(">"), None)] else []
  }

  /** `add_read_only_segment` (prompt.py:259-263); `writable` is `os.access(cwd, os.W_OK)`. */
  method AddReadOnlySegment(p: Powerline, writable: bool)
    modifies p
    ensures p.segments == old(p.segments) + Resolve(ReadOnlyRequests(writable, p.lock), p.separator)
  {
    if !writable {
      p.Append(p.lock, Some(Colors.ReadonlyFg), Some(Colors.ReadonlyBg), Some(">"), None);
    }
  }

  // ---------------------------------------------------------------------------------------
  // user and host names

  /** The user name escape of the shell; bare prompts print `USER` itself, `None` when unset. */
  function UserPrompt(shell: Shell, user: Option<string>): string {
    match shell
    case Bash => "\\u"
    case Zsh => "%n"
    case Bare => if user.Some? then user.value else "None"
  }

  function UsernameRequests(shell: Shell, sshClient: Option<string>, user: Option<string>): seq<Request> {
    if Truthy(sshClient) then
      var bg := if user == Some("root") then Colors.UsernameRootBg else Colors.UsernameBg;
      [Request(UserPrompt(shell, user), Some(Colors.UsernameFg), Some(bg), Some(""), None)]
    else []
  }

  /** `add_username_segment` (prompt.py:266-281). */
  method AddUsernameSegment(p: Powerline, sshClient: Option<string>, user: Option<string>)
    modifies p
    ensures p.segments == old(p.segments) + Resolve(UsernameRequests(p.shell, sshClient, user), p.separator)
  {
    if Truthy(sshClient) {
      var userPrompt := UserPrompt(p.shell, user);
      var bgcolor := Colors.UsernameBg;
      if user == Some("root") {
        bgcolor := Colors.UsernameRootBg;
      }
      p.Append(userPrompt, Some(Colors.UsernameFg), Some(bgcolor), Some(""), None);
    }
  }

  /** Only root gets the root background. */
  lemma RootUserHighlighted(shell: Shell, sshClient: Option<string>, user: Option<string>)
    requires Truthy(sshClient)
    ensures var r := UsernameRequests(shell, sshClient, user);
            |r| == 1 && (r[0].bg == Some(Colors.UsernameRootBg) <==> user == Some("root"))
  {
  }

  /** The host name up to its first dot, as `split('.')[0]` gives it. */
  function ShortHost(hostname: string): (r: string)
    ensures r <= hostname && '.' !in r
    ensures r != hostname ==> hostname[|r|] == '.'
  {
    if '.' in hostname then hostname[..IndexOf(hostname, '.')] else hostname
  }

  function HostPrompt(shell: Shell, hostname: string): string {
    match shell
    case Bash => "\\h "
    case Zsh => "%m "
    case Bare => ShortHost(hostname) + " "
  }

  function HostnameRequests(shell: Shell, sshClient: Option<string>, hostname: string): seq<Request> {
    if Truthy(sshClient) then
      [Request("@", Some(Colors.HostnameFg), Some(Colors.HostnameBg), Some(""), None),
       Request(HostPrompt(shell, hostname), Some(Colors.HostnameFg), Some(Colors.HostnameBg), Some(""), None)]
    else []
  }

  /** `add_hostname_segment` (prompt.py:284-296); `hostname` is `socket.gethostname()`. */
  method AddHostnameSegment(p: Powerline, sshClient: Option<string>, hostname: string)
    modifies p
    ensures p.segments == old(p.segments) + Resolve(HostnameRequests(p.shell, sshClient, hostname), p.separator)
  {
    if Truthy(sshClient) {
      var hostPrompt := HostPrompt(p.shell, hostname);
      p.Append("@", Some(Colors.HostnameFg), Some(Colors.HostnameBg), Some(""), None);
      p.Append(hostPrompt, Some(Colors.HostnameFg), Some(Colors.HostnameBg), Some(""), None);
      ResolveConcat(HostnameRequests(p.shell, sshClient, hostname)[..1], HostnameRequests(p.shell, sshClient, hostname)[1..], p.separator);
      assert HostnameRequests(p.shell, sshClient, hostname)[..1] + HostnameRequests(p.shell, sshClient, hostname)[1..]
             == HostnameRequests(p.shell, sshClient, hostname);
    }
  }

  /** The session segments (ssh, user, host) appear together, only over ssh. */
  lemma SshSegmentsTogether(shell: Shell, sshClient: Option<string>, user: Option<string>, hostname: string, network: string)
    ensures SshRequests(sshClient, network) == [] <==> !Truthy(sshClient)
    ensures UsernameRequests(shell, sshClient, user) == [] <==> !Truthy(sshClient)
    ensures HostnameRequests(shell, sshClient, hostname) == [] <==> !Truthy(sshClient)
  {
  }

  // ---------------------------------------------------------------------------------------
  // exit status, root indicator

  function ExitCodeRequests(prevError: int): seq<Request> {
    if prevError == 0 then []
    else [Request(" " + IntToString(prevError) + " ", Some(Colors.CmdFailedFg), Some(Colors.CmdFailedBg), None, None)]
  }

  /** `add_exit_code_segment` (prompt.py:600-605). */
  method AddExitCodeSegment(p: Powerline)
    modifies p
    ensures p.segments == old(p.segments) + Resolve(ExitCodeRequests(p.prevError), p.separator)
  {
    if p.prevError == 0 {
      return;
    }
    p.Append(" " + IntToString(p.prevError) + " ", Some(Colors.CmdFailedFg), Some(Colors.CmdFailedBg), None, None);
  }

  /** The exit segment shows exactly the failed status, which reads back from its text. */
  lemma ExitCodeReadsBack(prevError: int)
    ensures ExitCodeRequests(prevError) == [] <==> prevError == 0
    ensures prevError != 0 ==> var t := ExitCodeRequests(prevError)[0].text;
                               |t| >= 3 && t[0] == ' ' && t[|t| - 1] == ' '
                               && (prevError > 0 ==> IsDigits(t[1..|t| - 1]) && DigitsValue(t[1..|t| - 1]) == prevError)
                               && (prevError < 0 ==> t[1] == '-' && IsDigits(t[2..|t| - 1]) && DigitsValue(t[2..|t| - 1]) == -prevError)
  {
    if prevError != 0 {
      var n := IntToString(prevError);
      var t := " " + n + " ";
      assert t[1..|t| - 1] == n;
      if prevError < 0 {
        assert t[2..|t| - 1] == n[1..];
      }
    }
  }

  /** `root_indicators` (prompt.py:609-613). */
  function RootIndicator(shell: Shell): string {
    match shell
    case Bash => " \\$ "
    case Zsh => "%#"
    case Bare => " $ "
  }

  function RootRequests(shell: Shell, prevError: int): seq<Request> {
    var failed := prevError != 0;
    var fg := if failed then Colors.CmdFailedFg else Colors.CmdPassedFg;
    var bg := if failed then Colors.CmdFailedBg else Colors.CmdPassedBg;
    [Request(RootIndicator(shell), Some(fg), Some(bg), Some(""), None)]
  }

  /** `add_root_segment` (prompt.py:608-619). */
  method AddRootSegment(p: Powerline)
    modifies p
    ensures p.segments == old(p.segments) + Resolve(RootRequests(p.shell, p.prevError), p.separator)
  {
    var bg, fg := Colors.CmdPassedBg, Colors.CmdPassedFg;
    if p.prevError != 0 {
      fg, bg := Colors.CmdFailedFg, Colors.CmdFailedBg;
    }
    p.Append(RootIndicator(p.shell), Some(fg), Some(bg), Some(""), None);
  }

  /** The root indicator is painted in the exit segment's colours exactly when there is an
      exit segment, and in the wrapping brackets' colours otherwise. */
  lemma RootMatchesExitSegment(shell: Shell, prevError: int)
    ensures var root := RootRequests(shell, prevError)[0];
            (ExitCodeRequests(prevError) != [] ==> root.fg == ExitCodeRequests(prevError)[0].fg && root.bg == ExitCodeRequests(prevError)[0].bg)
            && (ExitCodeRequests(prevError) == [] <==> root.fg == BeginWrapRequest().fg && root.bg == BeginWrapRequest().bg)
  {
  }
}
