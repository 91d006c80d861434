/** The 256-colour palette indices of the `Color` table (prompt.py:174-227). */
module Colors {
  const UsernameFg: nat := 15
  const UsernameBg: nat := 0
  const UsernameRootBg: nat := 1

  const HostnameFg: nat := 15
  const HostnameBg: nat := 0

  const HomeFg: nat := 15
  const HomeBg: nat := 0
  const PathFg: nat := 3
  const PathBg: nat := 0
  const CwdFg: nat := 3
  const SeparatorFg: nat := 2
  const SeparatorThinFg: nat := 14

  const ReadonlyBg: nat := 0
  const ReadonlyFg: nat := 1

  const SshBg: nat := 0
  const SshFg: nat := 1

  const RepoCleanFg: nat := 14
  const RepoCleanBg: nat := 0
  const RepoDirtyFg: nat := 9
  const RepoDirtyBg: nat := 0

  const CmdPassedFg: nat := 13
  const CmdPassedBg: nat := 0
  const CmdFailedFg: nat := 0
  const CmdFailedBg: nat := 1

  const VirtualEnvBg: nat := 0
  const VirtualEnvFg: nat := 2

  const GitAheadBg: nat := 0
  const GitAheadFg: nat := 250
  const GitBehindBg: nat := 0
  const GitBehindFg: nat := 250
  const GitStagedBg: nat := 0
  const GitStagedFg: nat := 15
  const GitNotStagedBg: nat := 0
  const GitNotStagedFg: nat := 15
  const GitUntrackedBg: nat := 0
  const GitUntrackedFg: nat := 15
  const GitConflictedBg: nat := 9
  const GitConflictedFg: nat := 15
}
