/** The resolution table: the pixel resolutions of the tile pyramid, one per
    level, kept in strictly descending order, and the lookup of the level a
    view resolution belongs to (a binary search in the `binary-search` npm
    package's convention, with the comparator `(a, b) => b - a`). */
module ResolutionTable {

  /** The table invariant: coarser levels come first. */
  ghost predicate StrictlyDescending(ps: seq<real>) {
    forall i, j :: 0 <= i < j < |ps| ==> ps[i] > ps[j]
  }

  /** Reference definition of a level: the number of entries strictly
      greater (coarser) than `v`. */
  function CountAbove(ps: seq<real>, v: real): (n: nat)
    ensures n <= |ps|
  {
    if ps == [] then 0 else (if ps[0] > v then 1 else 0) + CountAbove(ps[1..], v)
  }

  /** When the first `k` entries are above `v` and the rest are not, the
      count is `k`. */
  lemma {:induction false} CountAboveSplit(ps: seq<real>, v: real, k: nat)
    requires k <= |ps|
    requires forall j :: 0 <= j < k ==> ps[j] > v
    requires forall j :: k <= j < |ps| ==> ps[j] <= v
    ensures CountAbove(ps, v) == k
  {
    if ps != [] {
      CountAboveSplit(ps[1..], v, if k == 0 then 0 else k - 1);
    }
  }

  /** Looking up a table entry gives its own level, and a value strictly
      between two neighbouring entries gives the level of the finer one. */
  lemma LevelOfEntryAndGap(ps: seq<real>, i: nat, v: real)
    requires StrictlyDescending(ps)
    requires i < |ps|
    ensures CountAbove(ps, ps[i]) == i
    ensures 0 < i && ps[i] < v < ps[i - 1] ==> CountAbove(ps, v) == i
  {
    CountAboveSplit(ps, ps[i], i);
    if 0 < i && ps[i] < v < ps[i - 1] {
      CountAboveSplit(ps, v, i);
    }
  }

  /** `binarySearch(haystack, needle, (a, b) => b - a)`: the index of
      `needle` when it is present, otherwise `~low`, that is `-(low + 1)` for
      the insertion point `low`. */
  method BinarySearch(haystack: seq<real>, needle: real) returns (r: int)
    requires StrictlyDescending(haystack)
    ensures 0 <= r ==> r < |haystack| && haystack[r] == needle
    ensures r < 0 ==> needle !in haystack && -(r + 1) <= |haystack|
    ensures r < 0 ==> forall j :: 0 <= j < -(r + 1) ==> haystack[j] > needle
    ensures r < 0 ==> forall j :: -(r + 1) <= j < |haystack| ==> haystack[j] < needle
  {
    var low, high := 0, |haystack| - 1;
    while low <= high
      invariant 0 <= low <= high + 1 <= |haystack|
      invariant forall j :: 0 <= j < low ==> haystack[j] > needle
      invariant forall j :: high < j < |haystack| ==> haystack[j] < needle
    {
      var mid := low + (high - low) / 2;
      var cmp := needle - haystack[mid];
      if cmp < 0.0 {
        low := mid + 1;
      } else if cmp > 0.0 {
        high := mid - 1;
      } else {
        return mid;
      }
    }
    return -(low + 1);
  }

  /** The level index decoded from a search result: the match itself, or the
      insertion point recovered from `-(insertionPoint + 1)`. It is always the
      reference level, so it lies in `[0, |ps|]`, and it names an entry equal
      to `v` exactly when `v` is in the table. */
  method LevelOf(ps: seq<real>, v: real) returns (level: nat)
    requires StrictlyDescending(ps)
    ensures level == CountAbove(ps, v) && level <= |ps|
    ensures (level < |ps| && ps[level] == v) <==> v in ps
  {
    var found := BinarySearch(ps, v);
    level := if found >= 0 then found else -(found + 1);
    CountAboveSplit(ps, v, level);
  }
}
