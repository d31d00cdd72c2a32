/** Host platform detection: both `src/runcode.ts` and `src/helper.ts` decide
    "Windows or not" from Node's `os.platform()` name. */
module Platform {
  import Strings

  /** The names `os.platform()` reports. */
  const NodePlatforms: set<string> :=
    {"aix", "android", "darwin", "freebsd", "linux", "openbsd", "sunos", "win32"}

  /** The detection as written: `platform().indexOf('win') > -1`, i.e. the
      name contains "win" somewhere. */
  predicate IsWinAsWritten(platform: string) {
    Strings.Includes(platform, "win")
  }

  /** As written, macOS ("darwin") is taken for Windows, so the runner would
      probe with `where` and launch `.\bin\main.exe` there. */
  lemma DarwinTakenForWindows()
    ensures IsWinAsWritten("darwin")
    ensures !IsWindows("darwin")
  {
    assert "win" <= "darwin"[3..];
    assert "darwin"[3..] == "darwin"[1..][1..][1..];
  }

  /** The detection the rest of the model uses: only Node's name for Windows. */
  predicate IsWindows(platform: string) {
    platform == "win32"
  }

  /** The locate utility both files probe commands with: `where` on
      Windows, `whereis` elsewhere. */
  function Where(isWin: bool): string {
    if isWin then "where" else "whereis"
  }

  /** The corrected detection holds for Windows alone among Node's platforms,
      and it agrees with the written one on every platform except "darwin". */
  lemma IsWindowsOnlyOnWindows(platform: string)
    requires platform in NodePlatforms
    ensures IsWindows(platform) <==> platform == "win32"
    ensures platform != "darwin" ==> (IsWindows(platform) <==> IsWinAsWritten(platform))
  {
    if platform == "win32" {
      assert "win" <= platform;
    } else if platform != "darwin" {
      NoWin(platform);
    }
  }

  /** None of the other names contains "win": none of them has a 'w'. */
  lemma NoWin(platform: string)
    requires platform in NodePlatforms - {"darwin", "win32"}
    ensures !IsWinAsWritten(platform)
  {
    if IsWinAsWritten(platform) {
      Strings.IncludesHead(platform, "win");
      assert false;
    }
  }
}
