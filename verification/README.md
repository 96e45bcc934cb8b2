# Path resolution of performous (`game/fs.cc`)

A Dafny model of the game's path helpers. The module `Fs` in `fs.dfy` covers four operations:

- **The home directory** (`getHomeDir`). This is a process-wide value that is written once. The first call reads the `HOME` environment variable. A missing variable leaves the empty path, and every later call returns the cached value. It is modelled as the class `HomeCache` with the fields `initialized` and `dir`. The value `getenv("HOME")` would return at the moment of a call is the parameter `env: Option<Path>`.
- **Tilde expansion** (`pathMangle`). The loop walks the path's components in order. A leading `~` is replaced by the home directory, and every other component is appended unchanged. A path is its sequence of components (`Path = seq<string>`). `ret /= c` appends the component `c`.
- **The theme path** (`getThemePath`). The configured theme must not be empty; that is the module's only error (`Err(EmptyValue("game/theme"))`). A theme name without `/` is looked up as `<c>/themes/<theme>` in the configured data directories, and the first one that exists wins. One trailing `/` is then removed if there is one, and `"/" + filename` is appended.
- **The data path** (`getDataPath`). This is the first existing data directory, or the empty base when none exists, followed by `"/" + filename`.

The configuration values `game/theme` and `system/path_data` are parameters, and so is the directory test `fs::is_directory`, as `isDir: string -> bool`. `Join` models `fs::path::operator/=` for the only right operands the source gives it: `"themes/"` and a theme name without `/`, both relative and non-empty. A separator is inserted unless the left side is empty or already ends in `/`. Boost.Filesystem and `std::filesystem` agree on this case.

`FirstMatch` is the specification of both searches. Its contract says it returns the index of the first candidate that passes, or the list's length. `Mangle` is the specification of the mangling loop. `MangleClosedForm` gives it in closed form.

## Model

| member | source | states |
|---|---|---|
| `Fs.HomeCache.constructor` | game/fs.cc:7-8 | Before the first call the cache is uninitialised and the directory is the empty path. |
| `Fs.HomeCache.GetHomeDir` | game/fs.cc:6-15 | The first call takes the value of HOME, or the empty path when HOME is unset. A call on an initialised cache returns the cached value and changes nothing. After any call, every later lookup returns the same value, whatever the environment then holds. |
| `Fs.HomeCache.Resolved` | game/fs.cc:9-14 | The value a call to `GetHomeDir` returns now: the cached directory once initialised; otherwise the value of HOME, or the empty path when HOME is unset. |
| `Fs.PathMangle` | game/fs.cc:17-27 | The result is the tilde expansion `Mangle(p, home)` of the input. The home cache is consulted, and so initialised, only when the first component is `~`; otherwise the cache is untouched. |
| `Fs.MangleUpToClosedForm` | game/fs.cc:19-25 | After the loop has handled the first n components, the result is the expansion of the first component followed by components 1..n-1 unchanged. |
| `Fs.MangleClosedForm` | game/fs.cc:18-26 | The mangled path is the expansion of the first component (the home directory for `~`, otherwise the component itself) followed by all the other components in order. An empty path stays empty. |
| `Fs.MangleKeepsPlainPath` | game/fs.cc:19-25 | A path whose first component is not `~` (or an empty path) comes back unchanged. |
| `Fs.MangleExpandsLeadingTilde` | game/fs.cc:20-24 | A leading `~` becomes the home directory, followed by the remaining components. `~` alone becomes exactly the home directory. |
| `Fs.MangleCopiesLaterTilde` | game/fs.cc:20-24 | A `~` at any position after the first is copied literally. The result is the mangled prefix, then `~`, then the remaining components. |
| `Fs.FirstMatch` | game/fs.cc:50-53 | The index returned is that of a candidate passing the test, and no earlier candidate passes. When no candidate passes, the index is the list's length. |
| `Fs.FirstMatchUnique` | game/fs.cc:35-40 | Any index k ≤ the list's length is the search result if the candidate at k passes (when k is inside the list) and no earlier candidate passes. |
| `Fs.FirstMatchConcat` | game/fs.cc:35-40 | First match wins. Candidates after a match do not affect the result. When no earlier candidate matches, the search continues into the later ones in order. |
| `Fs.Join` | game/fs.cc:36-38 | Joining keeps the left side as a prefix and the right side as a suffix. It inserts exactly one `/` between them, and only when the left side is non-empty and does not already end in `/`. |
| `Fs.ThemeDir` | game/fs.cc:36-38 | The probed directory `<base>/themes/<theme>`: the base joined with `themes/`, then joined with the theme. |
| `Fs.ThemeDirShape` | game/fs.cc:36-38 | The probed directory is the base joined once with `themes/<theme>`. It starts with the base and ends with `themes/` followed by the theme. Exactly one `/` is inserted after the base, and only when the base is non-empty and does not already end in `/`. |
| `Fs.ThemeProbe` | game/fs.cc:39 | The directory test applied to a candidate during the theme search: whether `<c>/themes/<theme>` is a directory. |
| `Fs.MangleUpTo` | game/fs.cc:19-25 | The loop's result after its first n iterations: a leading `~` replaces the result by the home directory, and every other component is appended. Its closed form is `Fs.MangleUpToClosedForm`. |
| `Fs.Mangle` | game/fs.cc:17-27 | The value `pathMangle` returns: the loop run over all components. Its properties are the `Mangle…` lemmas. |
| `Fs.MangledHead` | game/fs.cc:20-24 | What the first component contributes: the home directory when it is `~`, otherwise the component itself. |
| `Fs.TrimTrailingSlash` | game/fs.cc:42 | The result is a prefix of the input that is at most one character shorter. It is shorter exactly when the input ends in `/`. |
| `Fs.TrimRemovesOnlyOne` | game/fs.cc:42 | Of two trailing `/`, one remains. |
| `Fs.ThemeDirEndsLikeTheme` | game/fs.cc:36-42 | For a non-empty theme name without `/`, the probed directory `<c>/themes/<theme>` is non-empty and ends with the theme's last character. So removing a trailing `/` leaves it unchanged, and the erase on line 42 never reaches an empty string. |
| `Fs.ThemeSearchExample` | game/fs.cc:33-40 | With data directories `/a` and `/b`, where only `/b/themes/mytheme` exists, the theme `mytheme` is found in the second directory, as `/b/themes/mytheme`. |
| `Fs.ThemePath` | game/fs.cc:29-44 | Fails exactly when the theme is empty, with the `game/theme` error. A theme containing `/` is never searched: the result is the theme with one trailing `/` removed, then `/filename`. For a bare name, the result is `<c>/themes/<theme>/filename` for the first data directory `c` where that directory exists. When no such directory exists, the result is `<theme>/filename`. |
| `Fs.DataPath` | game/fs.cc:46-55 | The result is `<c>/filename` for the first data directory `c` that exists. When none exists, the result is `/filename`. |

## Left out

- The process environment (`getenv`, game/fs.cc:11) is not read. Its value at each call is the `env` parameter, already split into path components.
- The filesystem (`fs::is_directory`, game/fs.cc:39 and 52) is not modelled. It is the parameter `isDir`, a fixed total predicate over path strings. So the model does not capture the `filesystem_error` that `fs::is_directory` throws on OS errors other than not-found, such as a permission error on a parent directory or a name that is too long. In the source, that error escapes from `getThemePath` and `getDataPath`.
- The configuration store (`config[...]`, game/fs.cc:30, 34, 49) is not part of this model. The values of `game/theme` and `system/path_data` are parameters.
- Splitting a path into components and `fs::path` platform rules are not modelled: root names, separator normalisation, the empty final component that a trailing separator produces, and `/=` with an absolute right operand. `PathMangle` works on a path that is already a component sequence, and appending a component is sequence concatenation.
- The static cache is not thread-safe. Concurrent first calls are not modelled.
- Strings are Dafny `string`s, sequences of Unicode characters, where the source's `std::string` holds bytes. No behaviour is lost: the source inspects only the ASCII `/`, and it removes the last byte only when that byte is `/`.
- The C++ exception on an empty theme is modelled as the `Err` result. Unwinding is not modelled.
