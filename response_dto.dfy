/** The decoders of three backend responses: the signal range of a tile
    set (per-level lower and upper bounds and their global extremes), a
    rendered tile with its signal range, and the progress of the file
    converter.

    A JSON object is given by its entries in `Object.entries` order. A
    bound's value is given by its string form, which is what
    `Number.parseInt` reads of it. */
module ResponseDto {
  import opened Wrappers
  import opened JsNumber

  /** A JavaScript array with holes: element `k` is `None` when index `k`
      was never assigned. */
  type SparseArray = seq<Option<Number>>

  /** Array indices lie below 2^32 - 1; a larger key is an ordinary property. */
  const ArrayIndexLimit: nat := 0xFFFF_FFFF

  /** `a[k] = v` for an array index `k`: the array grows to `k + 1`
      elements when it is shorter, the new elements before `k` being holes. */
  function Store(a: SparseArray, k: nat, v: Number): (r: SparseArray)
    ensures |r| == if k < |a| then |a| else k + 1
    ensures r[k] == Some(v)
    ensures forall j :: 0 <= j < |r| && j != k ==> r[j] == if j < |a| then a[j] else None
  {
    if k < |a| then a[k := Some(v)] else a + seq(k - |a|, _ => None) + [Some(v)]
  }

  /** The element a key of a bounds object is stored at: `Number.parseInt`
      of the key when that is finite and an array index. A key that parses
      to NaN is skipped; one that parses to a negative or too large number
      names an ordinary property, which the elements never see. */
  function ElementIndex(key: string): (k: Option<nat>)
    ensures k.Some? <==> ParseInt(key).Finite? && 0.0 <= ParseInt(key).v < ArrayIndexLimit as real
    ensures k.Some? ==> ParseInt(key) == Finite(k.value as real)
  {
    var n := ParseInt(key);
    if n.Finite? && 0.0 <= n.v < ArrayIndexLimit as real then Some(n.v.Floor) else None
  }

  /** An entry as the filling loop sees it: the element its key addresses
      and `Number.parseInt` of its value. */
  function Parsed(entries: seq<(string, string)>): (ps: seq<(Option<nat>, Number)>)
    ensures |ps| == |entries|
    ensures forall i :: 0 <= i < |entries| ==> ps[i] == (ElementIndex(entries[i].0), ParseInt(entries[i].1))
  {
    seq(|entries|, i requires 0 <= i < |entries| => (ElementIndex(entries[i].0), ParseInt(entries[i].1)))
  }

  /** The array after the parsed entries have been stored one after the other. */
  function StoreAll(ps: seq<(Option<nat>, Number)>): SparseArray {
    if ps == [] then []
    else
      var a := StoreAll(ps[..|ps| - 1]);
      match ps[|ps| - 1].0
      case Some(k) => Store(a, k, ps[|ps| - 1].1)
      case None => a
  }

  /** One per-level array after all entries of a bounds object. */
  function Levels(entries: seq<(string, string)>): SparseArray {
    StoreAll(Parsed(entries))
  }

  /** The filling loop of one per-level array: each entry whose key parses
      to a finite index stores `Number.parseInt` of its value there. */
  method FillLevels(entries: seq<(string, string)>) returns (a: SparseArray)
    ensures a == Levels(entries)
  {
    ghost var ps := Parsed(entries);
    a := [];
    for i := 0 to |entries|
      invariant a == StoreAll(ps[..i])
    {
      assert ps[..i + 1][..i] == ps[..i];
      var (indexString, value) := entries[i];
      var indexInt := ParseInt(indexString);
      if indexInt.Finite? {
        if 0.0 <= indexInt.v < ArrayIndexLimit as real {
          a := Store(a, indexInt.v.Floor, ParseInt(value));
        }
      }
    }
    assert ps[..|entries|] == ps;
  }

  /** The filled array is just long enough: its last element is present. */
  lemma {:induction false} StoreAllLastPresent(ps: seq<(Option<nat>, Number)>)
    ensures StoreAll(ps) == [] || StoreAll(ps)[|StoreAll(ps)| - 1].Some?
  {
    if ps != [] {
      StoreAllLastPresent(ps[..|ps| - 1]);
    }
  }

  /** Every element an entry addresses lies inside the filled array and is
      present. */
  lemma {:induction false} StoreAllCovers(ps: seq<(Option<nat>, Number)>, i: nat)
    requires i < |ps| && ps[i].0.Some?
    ensures ps[i].0.value < |StoreAll(ps)| && StoreAll(ps)[ps[i].0.value].Some?
  {
    var n := |ps| - 1;
    if i < n {
      assert ps[..n][i] == ps[i];
      StoreAllCovers(ps[..n], i);
    }
  }

  /** A present element was addressed by some entry. */
  lemma {:induction false} StoreAllPresentAddressed(ps: seq<(Option<nat>, Number)>, k: nat)
    requires k < |StoreAll(ps)| && StoreAll(ps)[k].Some?
    ensures exists i :: 0 <= i < |ps| && ps[i].0 == Some(k)
  {
    var n := |ps| - 1;
    if ps[n].0 != Some(k) {
      StoreAllPresentAddressed(ps[..n], k);
      var i :| 0 <= i < n && ps[..n][i].0 == Some(k);
      assert ps[i] == ps[..n][i];
    }
  }

  /** The last entry that addresses an element decides its value. */
  lemma {:induction false} StoreAllLastWins(ps: seq<(Option<nat>, Number)>, i: nat)
    requires i < |ps| && ps[i].0.Some?
    requires forall j :: i < j < |ps| ==> ps[j].0 != ps[i].0
    ensures ps[i].0.value < |StoreAll(ps)| && StoreAll(ps)[ps[i].0.value] == Some(ps[i].1)
  {
    var n := |ps| - 1;
    StoreAllCovers(ps, i);
    if i < n {
      assert ps[..n][i] == ps[i];
      StoreAllLastWins(ps[..n], i);
    }
  }

  /** Whether some entry is stored at element `k`. */
  ghost predicate Addressed(entries: seq<(string, string)>, k: nat) {
    exists i :: 0 <= i < |entries| && ElementIndex(entries[i].0) == Some(k)
  }

  /** Entry `i` is the last one stored at its element. */
  ghost predicate LastAtIndex(entries: seq<(string, string)>, i: nat)
    requires i < |entries|
  {
    forall j :: i < j < |entries| ==> ElementIndex(entries[j].0) != ElementIndex(entries[i].0)
  }

  /** An element of the filled array is present exactly when some entry is
      stored there. */
  lemma LevelsPresent(entries: seq<(string, string)>, k: nat)
    requires k < |Levels(entries)|
    ensures Levels(entries)[k].Some? <==> Addressed(entries, k)
  {
    var ps := Parsed(entries);
    if StoreAll(ps)[k].Some? {
      StoreAllPresentAddressed(ps, k);
      var i :| 0 <= i < |ps| && ps[i].0 == Some(k);
      assert ElementIndex(entries[i].0) == Some(k);
    }
    if Addressed(entries, k) {
      var i :| 0 <= i < |entries| && ElementIndex(entries[i].0) == Some(k);
      assert ps[i].0 == Some(k);
      StoreAllCovers(ps, i);
    }
  }

  /** The last entry stored at an element decides its value: the parsed
      value of that entry. */
  lemma LevelsLastWins(entries: seq<(string, string)>, i: nat)
    requires i < |entries| && ElementIndex(entries[i].0).Some? && LastAtIndex(entries, i)
    ensures ElementIndex(entries[i].0).value < |Levels(entries)|
    ensures Levels(entries)[ElementIndex(entries[i].0).value] == Some(ParseInt(entries[i].1))
  {
    var ps := Parsed(entries);
    assert ps[i] == (ElementIndex(entries[i].0), ParseInt(entries[i].1));
    forall j | i < j < |ps| ensures ps[j].0 != ps[i].0 {
      assert ps[j].0 == ElementIndex(entries[j].0);
    }
    StoreAllLastWins(ps, i);
  }

  /** The filled array ends with a present element: its length is one past
      the largest index stored. */
  lemma LevelsLength(entries: seq<(string, string)>)
    ensures Levels(entries) == [] || Levels(entries)[|Levels(entries)| - 1].Some?
  {
    StoreAllLastPresent(Parsed(entries));
  }

  /** `a.filter((v) => Number.isFinite(v))`: the finite elements in index
      order; holes and NaN are left out. */
  function FiniteValues(a: SparseArray): (xs: seq<real>)
    ensures forall x :: x in xs <==> exists k :: 0 <= k < |a| && a[k] == Some(Finite(x))
  {
    if a == [] then []
    else
      var n := |a| - 1;
      var init := FiniteValues(a[..n]);
      assert forall k :: 0 <= k < n ==> a[..n][k] == a[k];
      match a[n]
      case Some(Finite(x)) => init + [x]
      case _ => init
  }

  /** A NaN element can be removed without changing the finite values. */
  lemma {:induction false} NaNLeftOut(a: SparseArray, k: nat)
    requires k < |a| && a[k] == Some(NaN)
    ensures FiniteValues(a[k := None]) == FiniteValues(a)
  {
    var n := |a| - 1;
    assert a[k := None][..n] == if k < n then a[..n][k := None] else a[..n];
    if k < n {
      NaNLeftOut(a[..n], k);
    }
  }

  /** `Math.min(...xs)`: +Infinity for no arguments, otherwise the least. */
  function MinOfAll(xs: seq<real>): (r: Number)
    ensures r == Infinity <==> xs == []
    ensures xs != [] ==> r.Finite? && r.v in xs && forall x <- xs :: r.v <= x
  {
    if xs == [] then Infinity
    else
      var n := |xs| - 1;
      assert forall x <- xs :: x in xs[..n] || x == xs[n];
      Min(MinOfAll(xs[..n]), Finite(xs[n]))
  }

  /** `Math.max(...xs)`: -Infinity for no arguments, otherwise the greatest. */
  function MaxOfAll(xs: seq<real>): (r: Number)
    ensures r == NegInfinity <==> xs == []
    ensures xs != [] ==> r.Finite? && r.v in xs && forall x <- xs :: x <= r.v
  {
    if xs == [] then NegInfinity
    else
      var n := |xs| - 1;
      assert forall x <- xs :: x in xs[..n] || x == xs[n];
      Max(MaxOfAll(xs[..n]), Finite(xs[n]))
  }

  /** The wire form of a signal range: the per-level bounds objects. */
  datatype SignalRangeDto = SignalRangeDto(lowerBounds: seq<(string, string)>, upperBounds: seq<(string, string)>)

  datatype CurrentSignalRangeResponse = CurrentSignalRangeResponse(
    minSignalAtLevel: SparseArray,
    maxSignalAtLevel: SparseArray,
    globalMinSignal: Number,
    globalMaxSignal: Number)

  /** The decoded signal range, as a value. */
  function SignalRangeOf(json: SignalRangeDto): CurrentSignalRangeResponse {
    var lower := Levels(json.lowerBounds);
    var upper := Levels(json.upperBounds);
    CurrentSignalRangeResponse(lower, upper, MinOfAll(FiniteValues(lower)), MaxOfAll(FiniteValues(upper)))
  }

  /** Element `k` holds a finite number. */
  predicate FiniteAt(a: SparseArray, k: nat)
    requires k < |a|
  {
    a[k].Some? && a[k].value.Finite?
  }

  /** The global minimum over a per-level array: +Infinity exactly when no
      element is finite, otherwise a finite element that no finite element
      is below. The global maximum likewise, from -Infinity. */
  lemma GlobalExtremes(a: SparseArray)
    ensures var m := MinOfAll(FiniteValues(a));
            && (m == Infinity <==> forall k :: 0 <= k < |a| ==> !FiniteAt(a, k))
            && (m != Infinity ==> m.Finite? && exists k :: 0 <= k < |a| && a[k] == Some(m))
            && (forall k :: 0 <= k < |a| && FiniteAt(a, k) ==> m.Finite? && m.v <= a[k].value.v)
    ensures var m := MaxOfAll(FiniteValues(a));
            && (m == NegInfinity <==> forall k :: 0 <= k < |a| ==> !FiniteAt(a, k))
            && (m != NegInfinity ==> m.Finite? && exists k :: 0 <= k < |a| && a[k] == Some(m))
            && (forall k :: 0 <= k < |a| && FiniteAt(a, k) ==> m.Finite? && a[k].value.v <= m.v)
  {
    var xs := FiniteValues(a);
    forall k | 0 <= k < |a| && FiniteAt(a, k) ensures a[k].value.v in xs {
      assert a[k] == Some(Finite(a[k].value.v));
    }
    if xs != [] {
      assert xs[0] in xs;
      var k :| 0 <= k < |a| && a[k] == Some(Finite(xs[0]));
      assert FiniteAt(a, k);
    }
  }

  /** `CurrentSignalRangeResponseDTO.toEntity`: fills both per-level arrays
      and takes the global minimum of the finite lower bounds and the global
      maximum of the finite upper bounds. */
  method SignalRangeToEntity(json: SignalRangeDto) returns (r: CurrentSignalRangeResponse)
    ensures r == SignalRangeOf(json)
    ensures forall k :: 0 <= k < |r.minSignalAtLevel| && FiniteAt(r.minSignalAtLevel, k) ==>
              r.globalMinSignal.Finite? && r.globalMinSignal.v <= r.minSignalAtLevel[k].value.v
    ensures forall k :: 0 <= k < |r.maxSignalAtLevel| && FiniteAt(r.maxSignalAtLevel, k) ==>
              r.globalMaxSignal.Finite? && r.maxSignalAtLevel[k].value.v <= r.globalMaxSignal.v
  {
    var minSignalAtLevel := FillLevels(json.lowerBounds);
    var maxSignalAtLevel := FillLevels(json.upperBounds);
    GlobalExtremes(minSignalAtLevel);
    GlobalExtremes(maxSignalAtLevel);
    r := CurrentSignalRangeResponse(
      minSignalAtLevel,
      maxSignalAtLevel,
      MinOfAll(FiniteValues(minSignalAtLevel)),
      MaxOfAll(FiniteValues(maxSignalAtLevel)));
  }

  /** The wire form of a rendered tile. */
  datatype TilePostDto = TilePostDto(image: string, ranges: SignalRangeDto)

  datatype TilePostResponse = TilePostResponse(imageBase64Source: string, ranges: CurrentSignalRangeResponse)

  /** `TilePOSTResponseDTO.toEntity`: the image is passed through and the
      ranges are decoded as a signal range. */
  method TilePostToEntity(json: TilePostDto) returns (r: TilePostResponse)
    ensures r.imageBase64Source == json.image
    ensures r.ranges == SignalRangeOf(json.ranges)
  {
    var ranges := SignalRangeToEntity(json.ranges);
    r := TilePostResponse(json.image, ranges);
  }

  /** The wire form of the converter's progress. */
  datatype ConverterStatusDto = ConverterStatusDto(isConverting: bool, resolutionProgress: Number, totalProgress: Number)

  datatype ConverterStatusResponse = ConverterStatusResponse(
    isConverting: bool,
    resolutionProgress: Number,
    totalProgress: Number)

  /** `ConverterStatusResponseDTO.toEntity`: the three fields unchanged. */
  function ConverterStatusToEntity(json: ConverterStatusDto): (r: ConverterStatusResponse)
    ensures r.isConverting == json.isConverting
    ensures r.resolutionProgress == json.resolutionProgress
    ensures r.totalProgress == json.totalProgress
  {
    ConverterStatusResponse(json.isConverting, json.resolutionProgress, json.totalProgress)
  }
}
