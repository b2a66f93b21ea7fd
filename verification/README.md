# pathhack, modelled in Dafny

`pathhack` is an `LD_PRELOAD` shim for a closed VPN client that is hard-wired to
use files under `/opt/sslvpnclient`. It intercepts `open`, `open64`, `openat`,
`fopen`, `fopen64`, `access`, `stat`, `lstat`, `__xstat`, `__lxstat` and
`realpath`. Each wrapper runs the path argument through `remap_path` and calls
the next implementation of the same symbol with every other argument unchanged,
except that the `open` forms drop a trailing mode when `O_CREAT` is clear.
`remap_path` leaves a NULL path alone. For a path that begins with
`/opt/sslvpnclient` it returns `$HOME` followed by the whole original path, with
the prefix kept. The result is written with `snprintf` into a `PATH_MAX` buffer,
so an overlong result is silently truncated. Every other path is returned as is.

The model is functional:

- `options.dfy`, module `Options`: `Option`. It stands for a C pointer that may
  be NULL, such as a path argument or the result of `getenv("HOME")`.
- `cstring.dfy`, module `CStrings`: C strings as NUL-free `seq<char>`, one `char`
  per byte. It also holds `strncmp` (`StrNCmp`) as the C library defines it. It
  stops at the first difference or at a shared NUL. It also holds
  `snprintf`-style truncation (`Snprintf`).
- `remap.dfy`, module `Remap`: the configured prefix, the prefix test exactly as
  written (`Matches`), and `remap_path` (`RemapPath`). `RemapPath` takes the
  value of `HOME` and the buffer capacity as explicit parameters.
- `forward.dfy`, module `Forward`: a `Call` datatype with one constructor per
  intercepted entry point. The `open` forms carry their optional trailing mode
  as `ModeArg` (`NoMode | Mode(m)`). The module also holds the wrappers'
  forwarding decision (`Intercept`) and a whole wrapper (`Shim`). `Shim` takes
  the next implementation as a function parameter and returns its result
  unchanged.

## Model

| member | source | states |
|---|---|---|
| CStrings.StrNCmpZeroIffPrefix | pathhack.c:21-22 | For NUL-free strings, `strncmp(a, b, n) == 0` with `n <= strlen(b)` holds exactly when `a` begins with the first `n` bytes of `b`, in both directions |
| CStrings.Snprintf | pathhack.c:25 | The text `snprintf` leaves in a buffer of capacity `size` is at most `size-1` bytes long and is a leading part of the formatted text. It is the whole text when that fits and exactly `size-1` bytes otherwise, with no error |
| Remap.MatchesIffPrefix | pathhack.c:21-22 | The test `strncmp(path, SRC_PREFIX, strlen(SRC_PREFIX)) == 0` holds if and only if the path begins with `/opt/sslvpnclient` |
| Remap.RemapPath | pathhack.c:18-29 | `remap_path` returns NULL exactly when it is given NULL, whatever `HOME` holds and whatever the capacity |
| Remap.RemapOffPrefix | pathhack.c:21-28 | A path that does not begin with the prefix comes back byte for byte, whatever `HOME` holds |
| Remap.RemapOnPrefix | pathhack.c:22-26 | When `home ++ path` fits in `size-1` bytes, a path under the prefix becomes exactly `home ++ path`. The prefix is not stripped, so the result ends with the whole original path, prefix included |
| Remap.RemapHomeUnset | pathhack.c:23-25 | With `HOME` unset, a fitting path under the prefix comes back with unchanged contents, the same as with `HOME=""` |
| Remap.RemapHomeUnsetIsEmpty | pathhack.c:18-29 | For every path, NULL included, and every capacity, an unset `HOME` gives the same result as `HOME=""` |
| Remap.RemapTruncates | pathhack.c:25 | Under the prefix the result is at most `size-1` bytes and is a leading part of `home ++ path`. When the concatenation does not fit, the result is exactly `size-1` bytes long |
| Remap.RemapCases | pathhack.c:18-29 | Every non-NULL outcome is either the path itself (off the prefix) or the longest leading part of `home ++ path` that the capacity allows |
| Remap.ShortPathNoMatch | pathhack.c:21-22 | A path shorter than the prefix never matches |
| Remap.DifferingByteNoMatch | pathhack.c:21-22 | A path that differs from the prefix in any byte within the prefix's length never matches |
| Remap.UpperCaseNotRemapped | pathhack.c:21-22 | `/OPT/sslvpnclient/config.db` is left alone: the comparison is case-sensitive |
| Remap.SiblingDirectoryRemapped | pathhack.c:21-26 | `/opt/sslvpnclient2/x` is redirected too: there is no separator check after the prefix |
| Remap.RemapExample | pathhack.c:14-26 | `/opt/sslvpnclient/config.db` with `HOME=/home/alice` becomes `/home/alice/opt/sslvpnclient/config.db` |
| Remap.RemapTwiceStable | pathhack.c:18-29 | Remapping a second time changes nothing when the first result is not under the prefix |
| Remap.RemapTwiceGrows | pathhack.c:22-26 | When `HOME` is itself under the prefix (so non-empty) and `home ++ home ++ path` fits in `size-1` bytes, a second pass prepends `HOME` again, so remapping is not idempotent |
| Remap.RemapNotIdempotent | pathhack.c:22-26 | A concrete case: `/opt/sslvpnclient/x` with `HOME=/opt/sslvpnclient/u` |
| Forward.ForwardMode | pathhack.c:40-48 | An `open` wrapper forwards a mode argument if and only if `O_CREAT` is set in `flags`. When it does, that mode is the caller's |
| Forward.Intercept | pathhack.c:33-167 | The forwarded call targets the same symbol and carries the remapped path. All other arguments are the same, except the trailing mode, which is present exactly when `O_CREAT` is set |
| Forward.InterceptPathOnly | pathhack.c:91-167 | `fopen`, `fopen64`, `access`, `stat`, `lstat`, `__xstat`, `__lxstat` and `realpath` forward the call with only the path replaced by `remap_path`'s result |
| Forward.InterceptOpen | pathhack.c:33-87 | `open`, `open64` and `openat` forward the remapped path and the same `flags` (`openat` also the same `dirfd`). They pass the caller's mode when `O_CREAT` is set and no mode otherwise |
| Forward.InterceptIgnoresStrayMode | pathhack.c:40-48 | Without `O_CREAT` the two-argument form is called, so a trailing mode argument is never forwarded, even one the C library would use (as with `O_TMPFILE`) |
| Forward.ShimTransparent | pathhack.c:33-167 | Off the prefix, or with a NULL path, a canonical call (an `open` form carries a mode exactly when `O_CREAT` is set) is forwarded unchanged. The application gets exactly what the next implementation returns for its own call |
| Forward.ShimRedirects | pathhack.c:33-167 | Under the prefix, with room in the buffer, a canonical call (an `open` form carries a mode exactly when `O_CREAT` is set) is forwarded and differs from the application's only in its path, which becomes `home ++ path`. The next implementation's result is returned as is |
| Forward.OpenUnderPrefixExample | pathhack.c:33-48 | `open("/opt/sslvpnclient/data/profile.cfg", O_RDONLY)` with `HOME=/home/bob` reaches the next `open` in its two-argument form, on the redirected path |
| Forward.OpenOffPrefixExample | pathhack.c:33-48 | `open("/etc/passwd", O_RDONLY)` is forwarded unchanged |
| Forward.CreateUnderPrefixExample | pathhack.c:71-87 | `openat` on `/opt/sslvpnclient/new.cfg` with `O_WRONLY`, `O_CREAT` and `O_TRUNC` set and mode 0644 is forwarded with the same `dirfd`, the redirected path, the same flags and mode 0644 |

## Left out

- Symbol lookup with `dlsym(RTLD_NEXT, ...)` and the lazily cached static function pointers are not modelled. They are dynamic-linker calls, and their unsynchronised check-then-set is a concurrency matter. The benign race is not represented, and neither is a failed lookup (a NULL pointer being called).
- The libc functions the wrappers forward to are not modelled. They are a function parameter `next: Call -> R` of `Shim`, so their effects and errors are opaque.
- `getenv("HOME")` is not modelled as process state. It is the `home: Option<CString>` parameter, `None` when unset.
- `PATH_MAX` is not fixed. The capacity is a parameter `size` with `size > 0`, which every wrapper satisfies by passing `sizeof(buf)`. Linux's 4096 (`LinuxPathMax`) appears only in the worked examples.
- `va_list` mechanics are not modelled. The caller's optional mode is `ModeArg`. `Intercept` requires a mode whenever `O_CREAT` is set (`Call.WellFormed`), because `va_arg` past the last argument is undefined behaviour. A mode passed without `O_CREAT` is allowed, and it is dropped.
- The `int`-to-`mode_t` conversion is not modelled separately. Flags and mode are 32-bit vectors (`bv32`), and the conversion keeps the bits. `O_CREAT` has its value on x86 and ARM Linux, octal 0100. No other flag bit is interpreted. In particular `O_TMPFILE`, with which the C library also reads a mode, gets no mode from the wrappers, as in the C code.
- Pointer identity is not modelled. `remap_path` returns either the caller's pointer or the local buffer, and the model returns the string that pointer designates. The lifetime of the stack buffer is not modelled.
- NUL terminators are not modelled. Paths and `HOME` are NUL-free `seq<char>` (`CString`), one `char` per byte. The sign of `strncmp`'s result is modelled but never used.
- `snprintf`'s return value is not modelled, because `remap_path` ignores it. A capacity of 0 is not modelled, because no caller passes one.
- The contents of `struct stat`, `FILE *` and `resolved` are not modelled. These pointers, and `fopen`'s mode string, are opaque addresses passed through unexamined.
