/** Fixed-width C integer types used by the component, and the conventions of
    NUL-terminated strings that strcpy and sprintf follow. */
module CTypes {

  /** `char` as stored in a response buffer: one byte. */
  newtype byte = b: int | 0 <= b < 0x100

  newtype uint16 = n: int | 0 <= n < 0x1_0000

  newtype int32 = n: int | -0x8000_0000 <= n < 0x8000_0000

  /** The C string held in `s`: everything before the first `nul`, or all of
      `s` when it holds none. */
  function CString<T(==)>(s: seq<T>, nul: T): (r: seq<T>)
    ensures r <= s && nul !in r
    ensures |r| < |s| ==> s[|r|] == nul
  {
    if s == [] || s[0] == nul then [] else [s[0]] + CString(s[1..], nul)
  }

  /** What `strcpy(dst, s)` or `sprintf(dst, ...)` producing the text `s`
      leaves in the array `dst`: the text, its terminator, and the old bytes
      behind the terminator. */
  function StoreCString<T>(dst: seq<T>, s: seq<T>, nul: T): (r: seq<T>)
    requires |s| < |dst|
    ensures |r| == |dst|
  {
    s + [nul] + dst[|s| + 1..]
  }

  /** A NUL-free text followed by a terminator reads back as that text. */
  lemma {:induction false} CStringOfTerminated<T>(s: seq<T>, nul: T, rest: seq<T>)
    requires nul !in s
    ensures CString(s + [nul] + rest, nul) == s
  {
    if s != [] {
      assert (s + [nul] + rest)[1..] == s[1..] + [nul] + rest;
      CStringOfTerminated(s[1..], nul, rest);
    }
  }

  /** Reading the C string back from a buffer just written by strcpy or
      sprintf yields exactly the text written. */
  lemma CStringOfStored<T>(dst: seq<T>, s: seq<T>, nul: T)
    requires |s| < |dst| && nul !in s
    ensures CString(StoreCString(dst, s, nul), nul) == s
  {
    CStringOfTerminated(s, nul, dst[|s| + 1..]);
  }

  /** Appending a terminator does not change the C string a sequence holds. */
  lemma {:induction false} CStringOfAppendedNul<T>(s: seq<T>, nul: T)
    ensures CString(s + [nul], nul) == CString(s, nul)
  {
    if s != [] && s[0] != nul {
      assert (s + [nul])[1..] == s[1..] + [nul];
      CStringOfAppendedNul(s[1..], nul);
    }
  }

  /** The copy loop of strcpy / sprintf: writes `s` and its terminator into
      `dst` and leaves every later element alone. */
  method CopyCString<T>(dst: array<T>, s: seq<T>, nul: T)
    requires |s| < dst.Length
    modifies dst
    ensures dst[..] == StoreCString(old(dst[..]), s, nul)
  {
    var i := 0;
    while i < |s|
      invariant 0 <= i <= |s|
      invariant dst[..i] == s[..i]
      invariant dst[i..] == old(dst[..])[i..]
    {
      dst[i] := s[i];
      i := i + 1;
      assert dst[..i] == dst[..i - 1] + [s[i - 1]];
    }
    dst[|s|] := nul;
    assert dst[..] == dst[..|s|] + [nul] + dst[|s| + 1..];
  }
}
