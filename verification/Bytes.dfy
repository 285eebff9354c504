/** The byte type shared by the connection buffers, the codec and the logger. */
module Bytes {
  newtype byte = b: int | 0 <= b < 256

  const SPACE: byte := 32
  const CR: byte := 13
  const LF: byte := 10
  const CRLF: seq<byte> := [CR, LF]

  /** `n` value-initialised bytes, as `std::vector<char>` appends on growth. */
  function Zeros(n: nat): (r: seq<byte>)
    ensures |r| == n
  {
    seq(n, _ => 0 as byte)
  }

  function Concat(chunks: seq<seq<byte>>): seq<byte> {
    if chunks == [] then [] else chunks[0] + Concat(chunks[1..])
  }

  /** `FixedBuffer::append` in a buffer of `size`: all of `more` or, unless one element stays free, none. */
  function BoundedAppend<T>(held: seq<T>, more: seq<T>, size: nat): seq<T> {
    if |held| + |more| < size then held + more else held
  }

  predicate CrlfAt(s: seq<byte>, k: int) {
    0 <= k <= |s| - 2 && s[k] == CR && s[k + 1] == LF
  }

  ghost predicate NoCRLF(s: seq<byte>) {
    forall k :: !CrlfAt(s, k)
  }

  /** `std::search` for CR LF from index `i`: its least index, or the length when there is none. */
  function SearchFrom(s: seq<byte>, i: nat): (at: nat)
    requires i <= |s|
    ensures i <= at <= |s|
    ensures at < |s| ==> CrlfAt(s, at)
    decreases |s| - i
  {
    if |s| < i + 2 then |s| else if CrlfAt(s, i) then i else SearchFrom(s, i + 1)
  }

  function SearchCRLF(s: seq<byte>): (at: nat)
    ensures at <= |s|
    ensures at < |s| ==> CrlfAt(s, at)
  {
    SearchFrom(s, 0)
  }

  lemma {:induction false} SearchFindsLeast(s: seq<byte>, i: nat, k: int)
    requires CrlfAt(s, k) && i <= k
    ensures SearchFrom(s, i) <= k
    decreases k - i
  {
    if !CrlfAt(s, i) {
      SearchFindsLeast(s, i + 1, k);
    }
  }

  // ----- Slices, kept apart from the recursive searches -----

  lemma TakeCRLF(s: seq<byte>, at: nat)
    requires CrlfAt(s, at)
    ensures s[..at + 2] == s[..at] + CRLF
  {
  }

  lemma DropAppend(s: seq<byte>, t: seq<byte>, n: nat)
    requires n <= |s|
    ensures (s + t)[..n] == s[..n] && (s + t)[n..] == s[n..] + t
  {
  }

  lemma TakeDrop(s: seq<byte>, n: nat)
    requires n <= |s|
    ensures s == s[..n] + s[n..] && s[0..] == s && s[0..n] == s[..n]
  {
  }

  lemma DropTake(s: seq<byte>, m: nat, n: nat)
    requires m + n <= |s|
    ensures s[m..m + n] == s[m..][..n] && s[..m + n] == s[..m] + s[m..][..n]
  {
  }

  lemma AppendAssoc<T>(a: seq<T>, b: seq<T>, c: seq<T>)
    ensures (a + b) + c == a + (b + c) && a + [] == a && [] + a == a
  {
  }
}
