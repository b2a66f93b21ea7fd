/** The C string primitives the remapper relies on, over `seq<char>` with one
    `char` per byte. A C string is its content up to (not including) the
    terminating NUL, so a well-formed string value holds no NUL. */
module CStrings {

  /** A NUL-terminated C string, without its terminator. */
  type CString = s: string | '\0' !in s

  /** The byte at offset `i` of a C string as the C code sees it: past the end
      it reads the terminating NUL. */
  function At(s: string, i: nat): char
  {
    if i < |s| then s[i] else '\0'
  }

  /** `strncmp(a, b, n)`: compares at most `n` bytes, stopping at the first
      difference (returning the difference of those bytes) or after a NUL
      common to both (returning 0). */
  function StrNCmp(a: string, b: string, n: nat): int
    decreases n
  {
    if n == 0 then 0
    else if At(a, 0) != At(b, 0) then At(a, 0) as int - At(b, 0) as int
    else if At(a, 0) == '\0' then 0
    else StrNCmp(a[1..], b[1..], n - 1)
  }

  /** For two NUL-free strings, `strncmp(a, b, n) == 0` with `n` no longer than `b`
      holds exactly when `a` begins with the first `n` bytes of `b`. */
  lemma {:induction false} StrNCmpZeroIffPrefix(a: CString, b: CString, n: nat)
    requires n <= |b|
    ensures StrNCmp(a, b, n) == 0 <==> b[..n] <= a
  {
    if n == 0 {
    } else if |a| == 0 {
      assert At(a, 0) == '\0' != b[0] == At(b, 0);
      assert StrNCmp(a, b, n) != 0;
    } else if a[0] != b[0] {
      assert StrNCmp(a, b, n) != 0;
      assert b[..n][0] != a[0];
    } else {
      assert a[0] != '\0';
      var a', b' := a[1..], b[1..];
      assert '\0' !in a' && '\0' !in b' by {
        forall x | x in a' ensures x != '\0' { assert x in a; }
        forall x | x in b' ensures x != '\0' { assert x in b; }
      }
      StrNCmpZeroIffPrefix(a', b', n - 1);
      assert StrNCmp(a, b, n) == StrNCmp(a', b', n - 1);
      assert b[..n] == [b[0]] + b'[..n - 1];
      if b'[..n - 1] <= a' {
        assert a == [a[0]] + a';
        assert b[..n] <= a;
      }
      if b[..n] <= a {
        assert b'[..n - 1] == b[..n][1..];
        assert b'[..n - 1] <= a';
      }
    }
  }

  /** `snprintf(buf, size, "%s", s)` as seen through `buf`: the formatted text cut
      to at most `size - 1` bytes (one byte stays for the NUL), silently. */
  function Snprintf(s: CString, size: nat): (r: CString)
    requires size > 0
    ensures |r| < size
    ensures r <= s
    ensures |s| < size ==> r == s
    ensures |s| >= size ==> |r| == size - 1
  {
    if |s| < size then s
    else
      var r := s[..size - 1];
      assert '\0' !in r by {
        forall x | x in r ensures x != '\0' { assert x in s; }
      }
      r
  }
}
