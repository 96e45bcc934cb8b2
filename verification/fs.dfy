/**
 * Path resolution for a configuration-driven game: the cached home
 * directory, tilde expansion of a path's leading component, and the lookup
 * of theme and data files in an ordered list of candidate directories.
 *
 * External facts are parameters: the value of the HOME environment variable
 * at the moment of a call (`env`), the configuration values `game/theme` and
 * `system/path_data`, and the directory-existence test `isDir`.
 */
module Fs {

  /** A path, as the ordered sequence of its components. */
  type Path = seq<string>

  datatype Option<T> = None | Some(value: T)

  /** The one error the module raises: a configuration value that is empty. */
  datatype ConfigError = EmptyValue(key: string)

  datatype Result<T> = Ok(value: T) | Err(error: ConfigError)

  const ThemeKey := "game/theme"

  // ---------------------------------------------------------------------
  // Home directory cache
  // ---------------------------------------------------------------------

  /** The process-wide, write-once home directory. */
  class HomeCache {
    var initialized: bool
    var dir: Path

    /** Before the first lookup the cached directory is the empty path. */
    ghost predicate Valid()
      reads this
    {
      !initialized ==> dir == []
    }

    /** What a lookup made now returns, when HOME currently reads `env`. */
    ghost function Resolved(env: Option<Path>): (d: Path)
      reads this
      requires Valid()
    {
      if initialized then dir
      else if env.Some? then env.value
      else dir
    }

    constructor ()
      ensures Valid() && !initialized && dir == []
    {
      initialized := false;
      dir := [];
    }

    /**
     * Returns the home directory. The environment is consulted on the first
     * call only; a missing HOME leaves the empty path. Every later lookup,
     * whatever the environment says then, returns the same value.
     */
    method GetHomeDir(env: Option<Path>) returns (d: Path)
      requires Valid()
      modifies this
      ensures Valid() && initialized
      ensures d == dir
      ensures d == old(Resolved(env))
      ensures old(initialized) ==> d == old(dir)
      ensures !old(initialized) && env.Some? ==> d == env.value
      ensures !old(initialized) && env.None? ==> d == []
      ensures forall later: Option<Path> :: Resolved(later) == d
    {
      if !initialized {
        initialized := true;
        if env.Some? {
          dir := env.value;
        }
      }
      d := dir;
    }
  }

  // ---------------------------------------------------------------------
  // Tilde expansion
  // ---------------------------------------------------------------------

  /**
   * The result of processing the first `n` components of `p` the way the
   * mangling loop does: a leading "~" replaces the result by `home`, every
   * other component is appended.
   */
  function MangleUpTo(p: Path, home: Path, n: nat): Path
    requires n <= |p|
  {
    if n == 0 then []
    else if n == 1 && p[0] == "~" then home
    else MangleUpTo(p, home, n - 1) + [p[n - 1]]
  }

  /** Tilde expansion of `p` with home directory `home`. */
  function Mangle(p: Path, home: Path): Path
  {
    MangleUpTo(p, home, |p|)
  }

  /** The result's contribution from the first component of `p`. */
  function MangledHead(p: Path, home: Path): Path
    requires |p| > 0
  {
    if p[0] == "~" then home else [p[0]]
  }

  lemma {:induction false} MangleUpToClosedForm(p: Path, home: Path, n: nat)
    requires 0 < n <= |p|
    ensures MangleUpTo(p, home, n) == MangledHead(p, home) + p[1..n]
  {
    if n > 1 {
      MangleUpToClosedForm(p, home, n - 1);
      assert p[1..n] == p[1..n - 1] + [p[n - 1]];
    }
  }

  /**
   * The mangled path is the expansion of the first component followed by
   * every other component, unchanged and in order; the empty path stays empty.
   */
  lemma {:induction false} MangleClosedForm(p: Path, home: Path)
    ensures |p| == 0 ==> Mangle(p, home) == []
    ensures |p| > 0 ==> Mangle(p, home) == MangledHead(p, home) + p[1..]
  {
    if |p| > 0 {
      MangleUpToClosedForm(p, home, |p|);
    }
  }

  /** A path whose first component is not "~" is returned unchanged. */
  lemma {:induction false} MangleKeepsPlainPath(p: Path, home: Path)
    requires |p| == 0 || p[0] != "~"
    ensures Mangle(p, home) == p
  {
    MangleClosedForm(p, home);
    if |p| > 0 {
      assert p == [p[0]] + p[1..];
    }
  }

  /** A leading "~" becomes the home directory, followed by the rest of `p`. */
  lemma {:induction false} MangleExpandsLeadingTilde(p: Path, home: Path)
    requires |p| > 0 && p[0] == "~"
    ensures Mangle(p, home) == home + p[1..]
    ensures |p| == 1 ==> Mangle(p, home) == home
  {
    MangleClosedForm(p, home);
  }

  /**
   * A "~" anywhere but first is copied literally: the mangled path is the
   * mangled prefix, then "~" itself, then the remaining components.
   */
  lemma {:induction false} MangleCopiesLaterTilde(p: Path, home: Path, i: nat)
    requires 0 < i < |p| && p[i] == "~"
    ensures Mangle(p, home) == Mangle(p[..i], home) + ["~"] + p[i + 1..]
  {
    MangleClosedForm(p, home);
    MangleClosedForm(p[..i], home);
    assert p[..i][1..] == p[1..i];
    assert p[1..] == p[1..i] + [p[i]] + p[i + 1..];
  }

  /**
   * Expands a leading "~" of `p`, walking its components in order. The home
   * directory is looked up only when the first component is "~".
   */
  method PathMangle(home: HomeCache, env: Option<Path>, p: Path) returns (ret: Path)
    requires home.Valid()
    modifies home
    ensures home.Valid()
    ensures ret == Mangle(p, old(home.Resolved(env)))
    ensures |p| > 0 && p[0] == "~" ==>
      home.initialized && home.dir == old(home.Resolved(env))
    ensures !(|p| > 0 && p[0] == "~") ==>
      home.initialized == old(home.initialized) && home.dir == old(home.dir)
  {
    ghost var h := home.Resolved(env);
    ret := [];
    var i := 0;
    while i < |p|
      invariant 0 <= i <= |p|
      invariant home.Valid()
      invariant ret == MangleUpTo(p, h, i)
      invariant i == 0 || p[0] != "~" ==>
        home.initialized == old(home.initialized) && home.dir == old(home.dir)
      invariant i > 0 && p[0] == "~" ==> home.initialized && home.dir == h
    {
      if i == 0 && p[i] == "~" {
        ret := home.GetHomeDir(env);
        i := i + 1;
        continue;
      }
      ret := ret + [p[i]];
      i := i + 1;
    }
  }

  // ---------------------------------------------------------------------
  // Candidate search
  // ---------------------------------------------------------------------

  /**
   * The index of the first candidate satisfying `found`, or `|cands|` when
   * none does.
   */
  function FirstMatch(cands: seq<string>, found: string -> bool): (k: nat)
    ensures k <= |cands|
    ensures k < |cands| ==> found(cands[k])
    ensures forall j :: 0 <= j < k ==> !found(cands[j])
  {
    if |cands| == 0 then 0
    else if found(cands[0]) then 0
    else 1 + FirstMatch(cands[1..], found)
  }

  /**
   * Any index k <= |cands| at which the candidate passes (when k < |cands|)
   * and before which no candidate passes is the result of FirstMatch.
   */
  lemma FirstMatchUnique(cands: seq<string>, found: string -> bool, k: nat)
    requires k <= |cands|
    requires k < |cands| ==> found(cands[k])
    requires forall j :: 0 <= j < k ==> !found(cands[j])
    ensures FirstMatch(cands, found) == k
  {
  }

  /**
   * First match wins: candidates after a match play no part, and when no
   * earlier candidate matches, the search carries on into the later ones in
   * their own order.
   */
  lemma {:induction false} FirstMatchConcat(a: seq<string>, b: seq<string>, found: string -> bool)
    ensures FirstMatch(a, found) < |a| ==> FirstMatch(a + b, found) == FirstMatch(a, found)
    ensures FirstMatch(a, found) == |a| ==> FirstMatch(a + b, found) == |a| + FirstMatch(b, found)
  {
    if |a| > 0 {
      assert (a + b)[1..] == a[1..] + b;
      FirstMatchConcat(a[1..], b, found);
    } else {
      assert a + b == b;
    }
  }

  // ---------------------------------------------------------------------
  // Path strings
  // ---------------------------------------------------------------------

  /**
   * Appends the relative path `b` to `a`, inserting a separator unless `a` is
   * empty or already ends in one.
   */
  function Join(a: string, b: string): (r: string)
    ensures |r| >= |a| + |b| && r[..|a|] == a && r[|r| - |b|..] == b
    ensures |r| <= |a| + |b| + 1
    ensures |r| == |a| + |b| + 1 <==> a != "" && a[|a| - 1] != '/'
    ensures |r| == |a| + |b| + 1 ==> r[|a|] == '/'
  {
    if a == "" || a[|a| - 1] == '/' then a + b else a + "/" + b
  }

  /** The directory `<base>/themes/<theme>` probed for a bare theme name. */
  function ThemeDir(base: string, theme: string): string
  {
    Join(Join(base, "themes/"), theme)
  }

  /**
   * The probed directory starts with the base and ends with "themes/" and
   * the theme; one separator is inserted after the base exactly when the base
   * is non-empty and does not already end in one. Joining twice is joining
   * once with "themes/<theme>".
   */
  lemma ThemeDirShape(base: string, theme: string)
    ensures |ThemeDir(base, theme)| >= |base| + |theme| + 7
    ensures ThemeDir(base, theme)[..|base|] == base
    ensures ThemeDir(base, theme)[|ThemeDir(base, theme)| - |theme| - 7..] == "themes/" + theme
    ensures |ThemeDir(base, theme)| <= |base| + |theme| + 8
    ensures |ThemeDir(base, theme)| == |base| + |theme| + 8 <==> base != "" && base[|base| - 1] != '/'
    ensures |ThemeDir(base, theme)| == |base| + |theme| + 8 ==> ThemeDir(base, theme)[|base|] == '/'
    ensures ThemeDir(base, theme) == Join(base, "themes/" + theme)
  {
    // The first join ends in "themes/", so the second adds no separator.
  }

  /** The test the theme search applies to a candidate data directory. */
  function ThemeProbe(isDir: string -> bool, theme: string): string -> bool
  {
    c => isDir(ThemeDir(c, theme))
  }

  /** Removes one trailing separator, if there is one. */
  function TrimTrailingSlash(s: string): (r: string)
    requires s != ""
    ensures |s| - 1 <= |r| <= |s|
    ensures r == s[..|r|]
    ensures |r| < |s| <==> s[|s| - 1] == '/'
  {
    if s[|s| - 1] == '/' then s[..|s| - 1] else s
  }

  /** Only one separator is removed, however many there are. */
  lemma {:induction false} TrimRemovesOnlyOne(s: string)
    requires |s| >= 2 && s[|s| - 1] == '/' && s[|s| - 2] == '/'
    ensures TrimTrailingSlash(s) != "" && TrimTrailingSlash(s)[|TrimTrailingSlash(s)| - 1] == '/'
  {
    // TrimTrailingSlash drops exactly the last character, leaving s[|s| - 2].
  }

  /**
   * A theme directory found by the search ends with the theme's own last
   * character, so for a bare (slash-free) name there is no trailing separator
   * to strip.
   */
  lemma ThemeDirEndsLikeTheme(base: string, theme: string)
    requires theme != "" && '/' !in theme
    ensures ThemeDir(base, theme) != ""
    ensures ThemeDir(base, theme)[|ThemeDir(base, theme)| - 1] == theme[|theme| - 1]
    ensures TrimTrailingSlash(ThemeDir(base, theme)) == ThemeDir(base, theme)
  {
    // Join keeps its right operand as a suffix, and that suffix is the theme.
  }

  /**
   * With data directories "/a" and "/b", where only "/b/themes/mytheme"
   * exists, the bare theme "mytheme" resolves to that directory.
   */
  lemma ThemeSearchExample(isDir: string -> bool)
    requires !isDir("/a/themes/mytheme") && isDir("/b/themes/mytheme")
    ensures FirstMatch(["/a", "/b"], ThemeProbe(isDir, "mytheme")) == 1
    ensures ThemeDir("/b", "mytheme") == "/b/themes/mytheme"
  {
    assert Join("/a", "themes/") == "/a/themes/";
    assert Join("/a/themes/", "mytheme") == "/a/themes/mytheme";
    assert Join("/b", "themes/") == "/b/themes/";
    assert Join("/b/themes/", "mytheme") == "/b/themes/mytheme";
    assert ThemeDir("/a", "mytheme") == "/a/themes/mytheme";
    assert ThemeDir("/b", "mytheme") == "/b/themes/mytheme";
    FirstMatchUnique(["/a", "/b"], ThemeProbe(isDir, "mytheme"), 1);
  }

  // ---------------------------------------------------------------------
  // Theme and data paths
  // ---------------------------------------------------------------------

  /**
   * The path of `filename` inside the configured theme. A theme containing
   * no separator is a bare name, looked up as `<c>/themes/<theme>` in the
   * data directories in order; the first that exists is used, and when none
   * does the name is kept. One trailing separator is then removed.
   */
  method ThemePath(theme: string, pathData: seq<string>, isDir: string -> bool, filename: string)
    returns (r: Result<string>)
    ensures r.Err? <==> theme == ""
    ensures theme == "" ==> r == Err(EmptyValue(ThemeKey))
    ensures theme != "" && '/' in theme ==> r == Ok(TrimTrailingSlash(theme) + "/" + filename)
    ensures theme != "" && '/' !in theme ==>
      var k := FirstMatch(pathData, ThemeProbe(isDir, theme));
      r == Ok((if k < |pathData| then ThemeDir(pathData[k], theme) else theme) + "/" + filename)
  {
    if theme == "" {
      return Err(EmptyValue(ThemeKey));
    }
    var t := theme;
    if '/' !in t {
      ghost var found := ThemeProbe(isDir, theme);
      var i := 0;
      while i < |pathData|
        invariant 0 <= i <= |pathData|
        invariant t == theme
        invariant forall j :: 0 <= j < i ==> !found(pathData[j])
      {
        var p := ThemeDir(pathData[i], theme);
        assert found(pathData[i]) == isDir(p);
        if isDir(p) {
          t := p;
          break;
        }
        i := i + 1;
      }
      FirstMatchUnique(pathData, found, i);
      if i < |pathData| {
        ThemeDirEndsLikeTheme(pathData[i], theme);
      }
      assert theme[|theme| - 1] in theme;
    }
    if t[|t| - 1] == '/' {
      t := t[..|t| - 1];
    }
    return Ok(t + "/" + filename);
  }

  /**
   * The path of `filename` in the first data directory that exists; when
   * none exists the base is empty and the result is `/<filename>`.
   */
  method DataPath(pathData: seq<string>, isDir: string -> bool, filename: string) returns (r: string)
    ensures FirstMatch(pathData, isDir) < |pathData| ==>
      r == pathData[FirstMatch(pathData, isDir)] + "/" + filename
    ensures FirstMatch(pathData, isDir) == |pathData| ==> r == "/" + filename
  {
    var dataDir := "";
    var i := 0;
    while i < |pathData|
      invariant 0 <= i <= |pathData|
      invariant dataDir == ""
      invariant forall j :: 0 <= j < i ==> !isDir(pathData[j])
    {
      if isDir(pathData[i]) {
        dataDir := pathData[i];
        break;
      }
      i := i + 1;
    }
    FirstMatchUnique(pathData, isDir, i);
    r := dataDir + "/" + filename;
  }
}
