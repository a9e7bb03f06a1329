/**
 The FreeBSD get_tty_path of common/terminal.c: /dev/ttyv followed by the
 number of the terminal in base 32, in a buffer of 16 bytes.
 */
module Terminal {
  import opened Sequences

  const TTYPATHLEN: nat := 16
  const PREFIX: string := "/dev/ttyv"

  function Digit(v: nat): char
    requires v < 32
  {
    if v >= 10 then 'a' + (v - 10) as char else '0' + v as char
  }

  /** The digits of n in base 32 without leading zeros; none for 0 */
  function Digits(n: nat): string {
    if n == 0 then [] else Digits(n / 32) + [Digit(n % 32)]
  }

  /** The canonical base-32 form */
  function Base32(n: nat): string {
    if n == 0 then "0" else Digits(n)
  }

  /** FreeBSD numbers its terminals from 0; 0 and 1 name the same one. */
  function Internal(tty: nat): nat {
    if tty > 0 then tty - 1 else tty
  }

  function Pow32(k: nat): nat {
    if k == 0 then 1 else 32 * Pow32(k - 1)
  }

  lemma {:induction false} DigitsLength(n: nat, k: nat)
    ensures |Digits(n)| <= k <==> n < Pow32(k)
  {
    if n > 0 && k > 0 {
      DigitsLength(n / 32, k - 1);
    } else if n > 0 {
      assert |Digits(n)| > 0;
    } else {
      PowPositive(k);
    }
  }

  lemma {:induction false} PowPositive(k: nat)
    ensures Pow32(k) > 0
  {
    if k > 0 { PowPositive(k - 1); }
  }

  function DigitValue(c: char): int {
    if 'a' <= c then c as int - 'a' as int + 10 else c as int - '0' as int
  }

  /** The number a digit string stands for */
  function Value(s: string): int {
    if s == [] then 0 else 32 * Value(s[..|s| - 1]) + DigitValue(s[|s| - 1])
  }

  lemma {:induction false} ValueOfDigits(n: nat)
    ensures Value(Digits(n)) == n
  {
    if n > 0 {
      ValueOfDigits(n / 32);
      var s := Digits(n);
      assert s[..|s| - 1] == Digits(n / 32) && s[|s| - 1] == Digit(n % 32);
    }
  }

  /** The name of a terminal reads back as its number from 0 on; two terminals share
      a name exactly if they are the same or are 0 and 1. */
  lemma NamesAreInjective(a: nat, b: nat)
    ensures Value(Base32(Internal(a))) == if a == 0 then 0 else a - 1
    ensures Base32(Internal(a)) == Base32(Internal(b)) <==> a == b || (a <= 1 && b <= 1)
  {
    ValueOfDigits(Internal(a));
    ValueOfDigits(Internal(b));
    assert "0"[..0] == [] && Value("0") == 0;
  }

  /** strcpy of the prefix, without its NUL, which is overwritten later */
  method CopyPrefix(path: array<char>)
    requires path.Length == TTYPATHLEN
    modifies path
    ensures path[..|PREFIX|] == PREFIX
  {
    forall i | 0 <= i < |PREFIX| {
      path[i] := PREFIX[i];
    }
  }

  /** The first loop: the digits from the least significant one on */
  method WriteDigits(tty: nat, path: array<char>) returns (ok: bool, offset: nat)
    requires path.Length == TTYPATHLEN && tty > 0 && path[..|PREFIX|] == PREFIX
    modifies path
    ensures ok <==> tty < Pow32(6)
    ensures ok ==> |PREFIX| <= offset < TTYPATHLEN && path[..|PREFIX|] == PREFIX
                   && Digits(tty) == Reversed(path[|PREFIX|..offset])
  {
    offset := |PREFIX|;
    var remaining := tty;
    while remaining > 0
      invariant |PREFIX| <= offset < TTYPATHLEN && path[..|PREFIX|] == PREFIX
      invariant Digits(tty) == Digits(remaining) + Reversed(path[|PREFIX|..offset])
    {
      if offset + 1 >= TTYPATHLEN {
        DigitsLength(tty, 6);
        return false, offset;
      }
      ghost var written := path[|PREFIX|..offset];
      path[offset] := Digit(remaining % 32);
      assert path[|PREFIX|..offset + 1] == written + [Digit(remaining % 32)];
      assert Reversed(written + [Digit(remaining % 32)]) == [Digit(remaining % 32)] + Reversed(written);
      remaining := remaining / 32;
      offset := offset + 1;
    }
    DigitsLength(tty, 6);
    ok := true;
  }

  /** The second loop: reverse the digits in place */
  method ReverseDigits(path: array<char>, lo: nat, offset: nat)
    requires lo <= offset <= path.Length
    modifies path
    ensures path[lo..offset] == Reversed(old(path[lo..offset]))
    ensures path[..lo] == old(path[..lo])
  {
    var n := offset - lo;
    var i := 0;
    ghost var was := path[..];
    while i < n / 2
      invariant 0 <= i <= n / 2
      invariant path[..lo] == was[..lo]
      invariant forall k :: lo <= k < lo + i || offset - i <= k < offset ==> path[k] == was[lo + offset - 1 - k]
      invariant forall k :: lo + i <= k < offset - i ==> path[k] == was[k]
    {
      var p1, p2 := lo + i, offset - 1 - i;
      path[p1], path[p2] := path[p2], path[p1];
      i := i + 1;
    }
    assert forall k :: lo <= k < offset ==> path[k] == was[lo + offset - 1 - k];
    ReversedSlice(path[..], was, lo, offset);
    assert path[lo..offset] == path[..][lo..offset] && was[lo..offset] == old(path[lo..offset]);
  }

  lemma ReversedSlice(s: string, was: string, lo: nat, hi: nat)
    requires |s| == |was| && lo <= hi <= |s|
    requires forall k :: lo <= k < hi ==> s[k] == was[lo + hi - 1 - k]
    ensures s[lo..hi] == Reversed(was[lo..hi])
  {
    forall j | 0 <= j < hi - lo ensures s[lo..hi][j] == Reversed(was[lo..hi])[j] {
      assert s[lo..hi][j] == s[lo + j];
    }
  }

  /** get_tty_path: succeeds exactly up to terminal 2^30, with the canonical name, NUL-terminated */
  method GetTtyPath(tty: nat, path: array<char>) returns (ok: bool)
    requires path.Length == TTYPATHLEN
    modifies path
    ensures ok <==> tty <= 0x4000_0000
    ensures ok ==> PREFIX + Base32(Internal(tty)) + ['\0'] <= path[..]
  {
    CopyPrefix(path);
    var n := Internal(tty);
    assert Pow32(6) == 0x4000_0000;
    if n == 0 {
      path[9] := '0';
      path[10] := '\0';
      return true;
    }
    var offset;
    ok, offset := WriteDigits(n, path);
    if !ok {
      return;
    }
    ReverseDigits(path, |PREFIX|, offset);
    assert path[|PREFIX|..offset] == Digits(n);
    path[offset] := '\0';
    assert path[..offset] == PREFIX + Digits(n);
  }
}
