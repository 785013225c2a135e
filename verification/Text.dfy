/** `strncpy` (section 7.24.2.4 of ISO/IEC 9899:2011) on the byte buffers of the chat server. */
module Text {

  type Byte = bv8
  type Bytes = seq<Byte>

  function Zeros(n: nat): (r: Bytes)
    ensures |r| == n && forall i :: 0 <= i < n ==> r[i] == 0
  {
    seq(n, _ => 0)
  }

  /** What `strncpy` leaves of `s`: all bytes after the first zero byte are zero. */
  function Zeroed(s: Bytes): (r: Bytes)
    ensures |r| == |s|
  {
    if s == [] then []
    else if s[0] == 0 then Zeros(|s|)
    else [s[0]] + Zeroed(s[1..])
  }

  /** Copying changes nothing exactly when no non-zero byte follows a zero byte. */
  lemma {:induction false} ZeroedIdentity(s: Bytes)
    ensures Zeroed(s) == s <==> forall i, j :: 0 <= i < j < |s| && s[i] == 0 ==> s[j] == 0
  {
    if s != [] && s[0] != 0 {
      ZeroedIdentity(s[1..]);
      assert s == [s[0]] + s[1..];
      assert Zeroed(s)[1..] == Zeroed(s[1..]);
      if forall i, j :: 0 <= i < j < |s| && s[i] == 0 ==> s[j] == 0 {
        forall i, j | 0 <= i < j < |s[1..]| && s[1..][i] == 0
          ensures s[1..][j] == 0
        {
          assert s[i + 1] == 0 ==> s[j + 1] == 0;
        }
      } else {
        var i, j :| 0 <= i < j < |s| && s[i] == 0 && s[j] != 0;
        assert s[1..][i - 1] == 0 && s[1..][j - 1] != 0;
      }
    } else if s != [] {
      assert Zeroed(s)[0] == s[0];
      if forall i, j :: 0 <= i < j < |s| && s[i] == 0 ==> s[j] == 0 {
        assert Zeroed(s) == s;
      }
    }
  }

  /** A second copy changes nothing. */
  lemma {:induction false} ZeroedTwice(s: Bytes)
    ensures Zeroed(Zeroed(s)) == Zeroed(s)
  {
    if s != [] && s[0] != 0 {
      ZeroedTwice(s[1..]);
      assert Zeroed(s)[1..] == Zeroed(s[1..]);
    }
  }

  lemma {:induction false} ZeroedSplit(s: Bytes, i: nat)
    requires i <= |s| && (forall k :: 0 <= k < i ==> s[k] != 0) && (i < |s| ==> s[i] == 0)
    ensures Zeroed(s) == s[..i] + Zeros(|s| - i)
  {
    if i > 0 {
      ZeroedSplit(s[1..], i - 1);
      assert s[..i] == [s[0]] + s[1..][..i - 1];
    }
  }

  /** The first `n` bytes that a copy sees of a text which may end in a zero before. */
  function Padded(s: Bytes, n: nat): (r: Bytes)
    ensures |r| == n
  {
    if n <= |s| then s[..n] else s + Zeros(n - |s|)
  }

  /** Byte `k` of `s` is text: neither it nor a byte before it is zero or missing. */
  predicate IsText(s: Bytes, k: nat) {
    k < |s| && forall j :: 0 <= j <= k ==> s[j] != 0
  }

  /** `strncpy`; a text with fewer than `n` bytes must be terminated by a zero. */
  method StrNCpy(dst: array<Byte>, src: Bytes, n: nat)
    requires n <= dst.Length && (n <= |src| || 0 in src)
    modifies dst
    ensures dst[..n] == Zeroed(Padded(src, n))
    ensures forall k :: 0 <= k < n ==> dst[k] == if IsText(src, k) then src[k] else 0
    ensures dst[n..] == old(dst[n..])
  {
    ghost var text := Padded(src, n);
    assert n > |src| ==> exists z :: 0 <= z < |src| && src[z] == 0;
    ghost var z: nat :| z <= n && (if n <= |src| then z == n else z < |src| && src[z] == 0);
    var i := 0;
    while i < n && src[i] != 0
      invariant 0 <= i <= z
      invariant dst[..i] == text[..i]
      invariant forall k :: 0 <= k < i ==> k < |src| && src[k] != 0 && text[k] == src[k]
      invariant dst[n..] == old(dst[n..])
    {
      dst[i] := src[i];
      i := i + 1;
    }
    ghost var stop := i;
    ZeroedSplit(text, i);
    while i < n
      invariant stop <= i <= n
      invariant dst[..stop] == text[..stop]
      invariant forall k :: stop <= k < i ==> dst[k] == 0
      invariant dst[n..] == old(dst[n..])
    {
      dst[i] := 0;
      i := i + 1;
    }
    assert dst[..n] == text[..stop] + Zeros(n - stop);
  }
}
