/** The interception wrappers. Each intercepted entry point receives the
    application's call, replaces the path argument by the remapper's result and
    hands everything else, unchanged, to the next implementation of the same
    symbol, whose result it returns as is.

    A call is described by a `Call` value: which entry point, and its arguments.
    Pointers the wrappers never look into (`FILE *` mode strings, `struct stat *`
    and `resolved` buffers) are opaque addresses. The three `open` forms carry
    their optional trailing mode as a `ModeArg`: `NoMode` when the call has no
    mode argument, `Mode(m)` when it has one. */
module Forward {
  import opened Options
  import opened CStrings
  import opened Remap

  /** An address passed through unexamined (0 stands for NULL). */
  type Address = nat

  /** The `O_CREAT` bit of the `open` flags (its Linux value, octal 0100). */
  const O_CREAT: bv32 := 0x40
  const O_RDONLY: bv32 := 0x0
  const O_WRONLY: bv32 := 0x1
  const O_TRUNC: bv32 := 0x200

  predicate Creates(flags: bv32) {
    flags & O_CREAT != 0
  }

  datatype ModeArg = NoMode | Mode(bits: bv32)

  datatype Call =
    | Open(path: Option<CString>, flags: bv32, mode: ModeArg)
    | Open64(path: Option<CString>, flags: bv32, mode: ModeArg)
    | OpenAt(dirfd: int, path: Option<CString>, flags: bv32, mode: ModeArg)
    | Fopen(path: Option<CString>, streamMode: Address)
    | Fopen64(path: Option<CString>, streamMode: Address)
    | Access(path: Option<CString>, amode: int)
    | Stat(path: Option<CString>, statBuf: Address)
    | Lstat(path: Option<CString>, statBuf: Address)
    | XStat(ver: int, path: Option<CString>, statBuf: Address)
    | LXStat(ver: int, path: Option<CString>, statBuf: Address)
    | RealPath(path: Option<CString>, resolved: Address)
  {
    /** The symbol the call goes to, and the one `dlsym(RTLD_NEXT, ...)` looks up. */
    function Symbol(): string {
      match this
      case Open(_, _, _) => "open"
      case Open64(_, _, _) => "open64"
      case OpenAt(_, _, _, _) => "openat"
      case Fopen(_, _) => "fopen"
      case Fopen64(_, _) => "fopen64"
      case Access(_, _) => "access"
      case Stat(_, _) => "stat"
      case Lstat(_, _) => "lstat"
      case XStat(_, _, _) => "__xstat"
      case LXStat(_, _, _) => "__lxstat"
      case RealPath(_, _) => "realpath"
    }

    predicate IsOpen() {
      Open? || Open64? || OpenAt?
    }

    /** What the caller of an `open` form owes it: a mode argument whenever
        `O_CREAT` is set (the wrapper then fetches it with `va_arg`). A mode
        passed without `O_CREAT` is allowed and ignored. */
    predicate WellFormed() {
      IsOpen() ==> (Creates(flags) ==> mode.Mode?)
    }

    /** The shape the wrappers forward: an `open` form carries a mode argument
        exactly when `O_CREAT` is set. */
    predicate Canonical() {
      IsOpen() ==> (Creates(flags) <==> mode.Mode?)
    }

    /** The same call with `p` as its path argument. */
    function WithPath(p: Option<CString>): (c: Call)
      ensures c.path == p
    {
      match this
      case Open(_, flags, mode) => Open(p, flags, mode)
      case Open64(_, flags, mode) => Open64(p, flags, mode)
      case OpenAt(dirfd, _, flags, mode) => OpenAt(dirfd, p, flags, mode)
      case Fopen(_, streamMode) => Fopen(p, streamMode)
      case Fopen64(_, streamMode) => Fopen64(p, streamMode)
      case Access(_, amode) => Access(p, amode)
      case Stat(_, statBuf) => Stat(p, statBuf)
      case Lstat(_, statBuf) => Lstat(p, statBuf)
      case XStat(ver, _, statBuf) => XStat(ver, p, statBuf)
      case LXStat(ver, _, statBuf) => LXStat(ver, p, statBuf)
      case RealPath(_, resolved) => RealPath(p, resolved)
    }

    /** An `open` form with `m` as its mode argument; other calls have none. */
    function WithMode(m: ModeArg): (c: Call)
      ensures c.IsOpen() <==> IsOpen()
      ensures c.IsOpen() ==> c.mode == m
    {
      match this
      case Open(p, flags, _) => Open(p, flags, m)
      case Open64(p, flags, _) => Open64(p, flags, m)
      case OpenAt(dirfd, p, flags, _) => OpenAt(dirfd, p, flags, m)
      case _ => this
    }

    /** The call with its path argument and its optional mode argument blanked:
        everything a wrapper must pass through untouched. */
    function Fixed(): Call {
      WithPath(None).WithMode(NoMode)
    }
  }

  /** The mode argument an `open` wrapper forwards: read (as `va_arg(ap, int)`)
      only when `O_CREAT` is set, otherwise none at all. */
  function ForwardMode(flags: bv32, mode: ModeArg): (fm: ModeArg)
    requires Creates(flags) ==> mode.Mode?
    ensures fm.Mode? <==> Creates(flags)
    ensures fm.Mode? ==> fm == mode
  {
    if Creates(flags) then Mode(mode.bits) else NoMode
  }

  /** The call a wrapper makes to the next implementation, given the
      application's call, the value of `HOME` and the buffer capacity. */
  function Intercept(c: Call, home: Option<CString>, size: nat): (f: Call)
    requires size > 0
    requires c.WellFormed()
    ensures f.Symbol() == c.Symbol()
    ensures f.Canonical()
    ensures f.Fixed() == c.Fixed()
    ensures f.path == RemapPath(c.path, home, size)
    ensures f.IsOpen() ==> f.mode == ForwardMode(c.flags, c.mode)
  {
    var p := RemapPath(c.path, home, size);
    match c
    case Open(_, flags, mode) => Open(p, flags, ForwardMode(flags, mode))
    case Open64(_, flags, mode) => Open64(p, flags, ForwardMode(flags, mode))
    case OpenAt(dirfd, _, flags, mode) => OpenAt(dirfd, p, flags, ForwardMode(flags, mode))
    case _ => c.WithPath(p)
  }

  /** A wrapper as a whole: whatever the next implementation `next` returns for
      the forwarded call is what the application gets back. */
  function Shim<R>(next: Call -> R, c: Call, home: Option<CString>, size: nat): R
    requires size > 0
    requires c.WellFormed()
  {
    next(Intercept(c, home, size))
  }

  /** The non-`open` wrappers replace the path argument and nothing else. */
  lemma InterceptPathOnly(c: Call, home: Option<CString>, size: nat)
    requires size > 0
    requires !c.IsOpen()
    ensures Intercept(c, home, size) == c.WithPath(RemapPath(c.path, home, size))
  {
  }

  /** The `open` wrappers forward the remapped path, the same `dirfd` and `flags`,
      and the caller's mode exactly when `O_CREAT` is set. */
  lemma InterceptOpen(c: Call, home: Option<CString>, size: nat)
    requires size > 0
    requires c.IsOpen() && c.WellFormed()
    ensures var f := Intercept(c, home, size);
            && f.path == RemapPath(c.path, home, size)
            && f.flags == c.flags
            && (c.OpenAt? ==> f.OpenAt? && f.dirfd == c.dirfd)
            && (Creates(c.flags) ==> f.mode == c.mode)
            && (!Creates(c.flags) ==> f.mode == NoMode)
  {
  }

  /** Without `O_CREAT` the wrappers call the form without a mode, so a
      trailing mode argument is never forwarded. The test is on `O_CREAT` alone:
      a call such as `open(dir, O_TMPFILE | O_RDWR, 0600)`, whose mode the C
      library does use, also loses it. */
  lemma InterceptIgnoresStrayMode(c: Call, m: bv32, home: Option<CString>, size: nat)
    requires size > 0
    requires c.IsOpen() && !Creates(c.flags)
    ensures Intercept(c.WithMode(Mode(m)), home, size) == Intercept(c.WithMode(NoMode), home, size)
    ensures Intercept(c.WithMode(Mode(m)), home, size).mode == NoMode
  {
  }

  /** Off the prefix (or with a NULL path) the shim is invisible to a canonical
      call (an `open` form that carries a mode exactly when `O_CREAT` is set),
      which is forwarded as it stands, and the application receives exactly what the
      next implementation would have returned for its own call. */
  lemma ShimTransparent<R>(next: Call -> R, c: Call, home: Option<CString>, size: nat)
    requires size > 0
    requires c.Canonical()
    requires c.path.Some? ==> !(SrcPrefix <= c.path.value)
    ensures Intercept(c, home, size) == c
    ensures Shim(next, c, home, size) == next(c)
  {
    if c.path.Some? {
      RemapOffPrefix(c.path.value, home, size);
    }
  }

  /** Under the prefix, with room in the buffer, a canonical call is forwarded
      differing from the application's only in its path, which becomes `home ++ path`. */
  lemma ShimRedirects<R>(next: Call -> R, c: Call, home: Option<CString>, size: nat)
    requires size > 0
    requires c.Canonical()
    requires c.path.Some? && SrcPrefix <= c.path.value
    requires |HomeOrEmpty(home)| + |c.path.value| < size
    ensures Intercept(c, home, size) == c.WithPath(Some(HomeOrEmpty(home) + c.path.value))
    ensures Shim(next, c, home, size) == next(c.WithPath(Some(HomeOrEmpty(home) + c.path.value)))
  {
    RemapOnPrefix(c.path.value, home, size);
  }

  /** `open("/opt/sslvpnclient/data/profile.cfg", O_RDONLY)` with `HOME=/home/bob`
      reaches the next `open` as a two-argument call on the redirected path. */
  lemma OpenUnderPrefixExample(p: CString, home: CString)
    requires p == SrcPrefix + "/data/profile.cfg" && home == "/home/bob"
    ensures Intercept(Open(Some(p), O_RDONLY, NoMode), Some(home), LinuxPathMax)
         == Open(Some(home + p), O_RDONLY, NoMode)
  {
    RemapOnPrefix(p, Some(home), LinuxPathMax);
    InterceptOpen(Open(Some(p), O_RDONLY, NoMode), Some(home), LinuxPathMax);
  }

  /** `open("/etc/passwd", O_RDONLY)` is forwarded unchanged. */
  lemma OpenOffPrefixExample(p: CString, home: CString)
    requires p == "/etc/passwd" && home == "/home/bob"
    ensures Intercept(Open(Some(p), O_RDONLY, NoMode), Some(home), LinuxPathMax)
         == Open(Some(p), O_RDONLY, NoMode)
  {
    DifferingByteNoMatch(p, 1);
  }

  /** Creating under the prefix with mode 0644 forwards the with-mode form
      carrying that mode, and `openat` keeps its directory descriptor. */
  lemma CreateUnderPrefixExample(dirfd: int, p: CString, home: CString)
    requires p == SrcPrefix + "/new.cfg" && home == "/home/bob"
    ensures var flags := O_WRONLY | O_CREAT | O_TRUNC;
            (Intercept(OpenAt(dirfd, Some(p), flags, Mode(0x1A4)), Some(home), LinuxPathMax)
             == OpenAt(dirfd, Some(home + p), flags, Mode(0x1A4)))
  {
    var flags := O_WRONLY | O_CREAT | O_TRUNC;
    assert Creates(flags);
    RemapOnPrefix(p, Some(home), LinuxPathMax);
    InterceptOpen(OpenAt(dirfd, Some(p), flags, Mode(0x1A4)), Some(home), LinuxPathMax);
  }
}
