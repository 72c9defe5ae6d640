/** Translation of the file paths the analyzer announces (paths inside a WSL2
    distribution) into paths the Windows player can open
    (client/windows-native/winplay/src/path_translator.cpp). */
module PathTranslation {

  /** An ASCII letter, as `std::isalpha` in the "C" locale. */
  predicate IsAlpha(c: char) {
    'A' <= c <= 'Z' || 'a' <= c <= 'z'
  }

  /** The upper-case form of an ASCII letter; any other character unchanged. */
  function Upper(c: char): char {
    if 'a' <= c <= 'z' then (c as int - 32) as char else c
  }

  /** `s` with every '/' replaced by '\'. */
  function Backslashed(s: string): (r: string)
    ensures |r| == |s|
    ensures forall i :: 0 <= i < |s| ==> r[i] == (if s[i] == '/' then '\\' else s[i])
  {
    seq(|s|, i requires 0 <= i < |s| => if s[i] == '/' then '\\' else s[i])
  }

  /** A path Windows already understands: a drive letter and a colon, or a UNC path. */
  predicate IsWindowsPath(p: string) {
    |p| >= 2 && ((IsAlpha(p[0]) && p[1] == ':') || (p[0] == '\\' && p[1] == '\\'))
  }

  /** A WSL2 mount of a Windows drive: "/mnt/", a letter, then the end or '/'. */
  predicate IsDriveMount(p: string) {
    |p| >= 6 && p[..5] == "/mnt/" && IsAlpha(p[5]) && (|p| == 6 || p[6] == '/')
  }

  /** A translator for one distribution: native paths are reached through
      the UNC share `\\wsl.localhost\<distro>`. */
  datatype PathTranslator = PathTranslator(prefix: string)
  {
    /** Translates a path: empty and Windows paths unchanged; a drive mount
        to its drive letter, upper-cased, and the rest of the path (the drive
        root when there is none); any other path to the share. Separators
        become backslashes in both rewritten forms. */
    function Translate(p: string): string {
      if |p| == 0 then p
      else if IsWindowsPath(p) then p
      else if IsDriveMount(p) then
        Backslashed([Upper(p[5]), ':'] + (if |p| > 6 then p[6..] else "\\"))
      else Backslashed(prefix + p)
    }
  }

  function ShareOf(distro: string): string {
    "\\\\wsl.localhost\\" + distro
  }

  function ForDistro(distro: string): PathTranslator {
    PathTranslator(ShareOf(distro))
  }

  // ------------------------------------------------------------------ properties

  lemma EmptyUnchanged(t: PathTranslator)
    ensures t.Translate("") == ""
  {
  }

  /** Drive-letter and UNC paths come back unchanged. */
  lemma WindowsPathUnchanged(t: PathTranslator, p: string)
    requires IsWindowsPath(p)
    ensures t.Translate(p) == p
  {
  }

  /** "/mnt/x/rest" becomes "X:\rest" with backslashes; "/mnt/x" alone the drive root "X:\". */
  lemma DriveMount(t: PathTranslator, x: char, rest: string)
    requires IsAlpha(x) && (rest == [] || rest[0] == '/')
    ensures t.Translate("/mnt/" + [x] + rest) == [Upper(x), ':'] + (if rest == [] then "\\" else Backslashed(rest))
  {
    var p := "/mnt/" + [x] + rest;
    assert p[..5] == "/mnt/" && p[5] == x;
    if rest != [] {
      assert p[6..] == rest;
    }
    var r := t.Translate(p);
    assert IsDriveMount(p);
    assert r == [Upper(x), ':'] + (if rest == [] then "\\" else Backslashed(rest));
  }

  /** "/mnt/" and a letter followed by any character but '/' (as in
      "/mnt/cd/x") is not a drive mount, so the path goes to the share. */
  lemma LongMountNameIsNative(distro: string, p: string)
    requires |p| >= 7 && p[..5] == "/mnt/" && IsAlpha(p[5]) && p[6] != '/'
    ensures ForDistro(distro).Translate(p) == Backslashed(ShareOf(distro) + p)
  {
    assert p[0] == '/';
    assert !IsDriveMount(p);
    assert !IsWindowsPath(p);
  }

  /** A path that is neither Windows nor a drive mount goes to the share, and
      the result holds no '/'. */
  lemma NativeToShare(distro: string, p: string)
    requires |p| > 0 && !IsWindowsPath(p) && !IsDriveMount(p)
    ensures ForDistro(distro).Translate(p) == Backslashed(ShareOf(distro) + p)
    ensures '/' !in ForDistro(distro).Translate(p)
  {
  }

  /** Every rewritten path is free of '/'. */
  lemma RewrittenHasNoSlash(t: PathTranslator, p: string)
    requires |p| > 0 && !IsWindowsPath(p)
    ensures '/' !in t.Translate(p)
  {
  }

  /** Translation is idempotent: a drive mount becomes a drive-letter path and
      a native path a UNC path, both of which come back unchanged. */
  lemma Idempotent(distro: string, p: string)
    ensures ForDistro(distro).Translate(ForDistro(distro).Translate(p)) == ForDistro(distro).Translate(p)
  {
    var t := ForDistro(distro);
    var r := t.Translate(p);
    if |p| > 0 && !IsWindowsPath(p) {
      if IsDriveMount(p) {
        assert r[0] == Upper(p[5]) && r[1] == ':';
        assert IsAlpha(r[0]);
      } else {
        assert r[0] == '\\' && r[1] == '\\';
      }
      assert IsWindowsPath(r);
    }
  }
}
