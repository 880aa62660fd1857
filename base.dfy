/// Small value types shared by every module: optional values, results,
/// the one-slot mailbox a background task delivers into, three-way
/// comparison results, and the saturating `usize` arithmetic the source uses.
module Base {

  datatype Option<+T> = None | Some(value: T)

  datatype Result<+T, +E> = Ok(value: T) | Err(error: E)

  /// What a non-blocking `try_recv` on a one-slot channel observes: nothing
  /// yet, a sender that went away without sending, or a delivered value.
  datatype Mailbox<+T> = Empty | Disconnected | Delivered(content: T)

  /// `std::cmp::Ordering`.
  datatype Ordering = Less | Equal | Greater {
    function Reverse(): Ordering {
      match this
      case Less => Greater
      case Equal => Equal
      case Greater => Less
    }
  }

  /// The largest `usize` on a 64-bit target.
  const USIZE_MAX: nat := 0xFFFF_FFFF_FFFF_FFFF

  /// `usize::saturating_add`.
  function SatAdd(x: nat, y: nat): (r: nat)
    ensures x + y <= USIZE_MAX ==> r == x + y
    ensures x + y > USIZE_MAX ==> r == USIZE_MAX
  {
    if x + y <= USIZE_MAX then x + y else USIZE_MAX
  }

  /// `usize::saturating_sub`.
  function SatSub(x: nat, y: nat): (r: nat)
    ensures y <= x ==> r + y == x
    ensures y > x ==> r == 0
  {
    if y <= x then x - y else 0
  }

  /// `str::starts_with`.
  predicate StartsWith(s: string, prefix: string) {
    |prefix| <= |s| && s[..|prefix|] == prefix
  }

  /// `str::ends_with`.
  predicate EndsWith(s: string, suffix: string) {
    |suffix| <= |s| && s[|s| - |suffix|..] == suffix
  }

  /// `str::contains` for a string needle.
  predicate Contains(s: string, needle: string) {
    exists i {:trigger s[i..]} :: 0 <= i <= |s| - |needle| && StartsWith(s[i..], needle)
  }

  /// Sum of a sequence of reals, as `Iterator::sum`.
  function Sum(xs: seq<real>): real {
    if |xs| == 0 then 0.0 else Sum(xs[..|xs| - 1]) + xs[|xs| - 1]
  }

  lemma {:induction false} SumAppend(xs: seq<real>, ys: seq<real>)
    ensures Sum(xs + ys) == Sum(xs) + Sum(ys)
    decreases |ys|
  {
    if |ys| == 0 {
      assert xs + ys == xs;
    } else {
      assert (xs + ys)[..|xs + ys| - 1] == xs + ys[..|ys| - 1];
      SumAppend(xs, ys[..|ys| - 1]);
    }
  }

  lemma {:induction false} SumNonNegative(xs: seq<real>)
    requires forall i :: 0 <= i < |xs| ==> xs[i] >= 0.0
    ensures Sum(xs) >= 0.0
    decreases |xs|
  {
    if |xs| > 0 {
      SumNonNegative(xs[..|xs| - 1]);
    }
  }
}
