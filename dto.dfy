/** The decoders of the inbound wire objects that describe an assembly: the
    enumerations sent as table indices, contig and scaffold descriptors, and
    the assembly as a whole.

    A JSON object is given by its entries in `Object.entries` order; a
    JSON number is a `Number`. The unchecked field casts of the source are
    taken at their word: a field declared a number is one. */
module Dto {
  import opened Wrappers
  import opened JsNumber
  import opened DomainCommon

  // ---------------------------------------------------------------------
  // Enumerations

  /** Whether `dto` reads an element of an array of length `n`: a finite
      integer in `[0, n)`. Any other number reads a missing property. */
  predicate IsIndexOf(dto: Number, n: nat) {
    dto.Finite? && dto.v == dto.v.Floor as real && 0 <= dto.v.Floor < n
  }

  /** `table[dto]`, `None` standing for `undefined`. */
  function Element<T>(table: seq<T>, dto: Number): Option<T> {
    if IsIndexOf(dto, |table|) then Some(table[dto.v.Floor]) else None
  }

  /** `queryLengthUnitFromDTO`: defined exactly on 0, 1 and 2, where it gives
      the unit of that value. */
  function QueryLengthUnitFromDto(dto: Number): (u: Option<QueryLengthUnit>)
    ensures u.Some? <==> IsIndexOf(dto, 3)
    ensures u.Some? ==> dto == Finite(u.value.Value() as real)
  {
    Element([BasePairs, Bins, Pixels], dto)
  }

  /** `contigDirectionFromDTO`: 0 is reversed, 1 forward, nothing else. */
  function ContigDirectionFromDto(dto: Number): (d: Option<ContigDirection>)
    ensures d.Some? <==> IsIndexOf(dto, 2)
    ensures d.Some? ==> dto == Finite(d.value.Value() as real)
  {
    Element([ContigDirection.Reversed, ContigDirection.Forward], dto)
  }

  /** `scaffoldDirectionFromDTO`: 0 is reversed, 1 forward, nothing else. */
  function ScaffoldDirectionFromDto(dto: Number): (d: Option<ScaffoldDirection>)
    ensures d.Some? <==> IsIndexOf(dto, 2)
    ensures d.Some? ==> dto == Finite(d.value.Value() as real)
  {
    Element([ScaffoldDirection.Reversed, ScaffoldDirection.Forward], dto)
  }

  /** `contigHideTypeFromDTO`: defined exactly on 0..3, where it gives the
      hide type of that value. */
  function ContigHideTypeFromDto(dto: Number): (h: Option<ContigHideType>)
    ensures h.Some? <==> IsIndexOf(dto, 4)
    ensures h.Some? ==> dto == Finite(h.value.Value() as real)
  {
    Element([AutoHidden, AutoShown, ForcedHidden, ForcedShown], dto)
  }

  /** Decoding the value of an enumeration constant gives that constant back. */
  lemma DecodersRoundTrip(u: QueryLengthUnit, c: ContigDirection, s: ScaffoldDirection, h: ContigHideType)
    ensures QueryLengthUnitFromDto(Finite(u.Value() as real)) == Some(u)
    ensures ContigDirectionFromDto(Finite(c.Value() as real)) == Some(c)
    ensures ScaffoldDirectionFromDto(Finite(s.Value() as real)) == Some(s)
    ensures ContigHideTypeFromDto(Finite(h.Value() as real)) == Some(h)
  {
    assert (u.Value() as real).Floor == u.Value();
    assert (c.Value() as real).Floor == c.Value();
    assert (s.Value() as real).Floor == s.Value();
    assert (h.Value() as real).Floor == h.Value();
  }

  // ---------------------------------------------------------------------
  // JavaScript maps

  /** A JavaScript `Map`: its entries in insertion order. */
  type JsMap<K, V> = seq<(K, V)>

  function KeySet<K, V>(m: seq<(K, V)>): set<K> {
    set i | 0 <= i < |m| :: m[i].0
  }

  predicate DistinctKeys<K(==), V>(m: JsMap<K, V>) {
    forall i, j :: 0 <= i < j < |m| ==> m[i].0 != m[j].0
  }

  /** `m.get(k)`, `None` standing for `undefined`. */
  function MapGet<K(==), V>(m: JsMap<K, V>, k: K): (r: Option<V>)
    ensures r.Some? <==> k in KeySet(m)
  {
    if m == [] then None
    else if m[0].0 == k then Some(m[0].1)
    else
      assert KeySet(m) == {m[0].0} + KeySet(m[1..]) by {
        forall x | x in KeySet(m) ensures x == m[0].0 || x in KeySet(m[1..]) {
          var i :| 0 <= i < |m| && m[i].0 == x;
          if i > 0 { assert m[1..][i - 1] == m[i]; }
        }
      }
      MapGet(m[1..], k)
  }

  /** `m.set(k, v)`: an existing key keeps its place and takes the new
      value, a new key goes last. Afterwards `k` maps to `v`, every other
      key is as before, and the keys stay distinct. */
  function MapSet<K(==,!new), V>(m: JsMap<K, V>, k: K, v: V): (r: JsMap<K, V>)
    ensures KeySet(r) == KeySet(m) + {k}
    ensures MapGet(r, k) == Some(v)
    ensures forall k' :: k' != k ==> MapGet(r, k') == MapGet(m, k')
    ensures DistinctKeys(m) ==> DistinctKeys(r)
  {
    if m == [] then
      KeySetCons([(k, v)]);
      [(k, v)]
    else
      KeySetCons(m);
      if m[0].0 == k then
        KeySetCons([(k, v)] + m[1..]);
        assert ([(k, v)] + m[1..])[1..] == m[1..];
        [(k, v)] + m[1..]
      else
        var rest := MapSet(m[1..], k, v);
        KeySetCons([m[0]] + rest);
        assert ([m[0]] + rest)[1..] == rest;
        [m[0]] + rest
  }

  lemma KeySetCons<K, V>(m: seq<(K, V)>)
    requires m != []
    ensures KeySet(m) == {m[0].0} + KeySet(m[1..])
  {
    forall x | x in KeySet(m) ensures x == m[0].0 || x in KeySet(m[1..]) {
      var i :| 0 <= i < |m| && m[i].0 == x;
      if i > 0 { assert m[1..][i - 1] == m[i]; }
    }
    forall x | x in KeySet(m[1..]) ensures x in KeySet(m) {
      var i :| 0 <= i < |m[1..]| && m[1..][i].0 == x;
      assert m[i + 1].0 == x;
    }
  }

  /** `new Map(entries)`: the entries set one after the other. */
  function MapOf<K(==,!new), V>(entries: seq<(K, V)>): (m: JsMap<K, V>)
    ensures DistinctKeys(m)
    ensures KeySet(m) == KeySet(entries)
  {
    if entries == [] then []
    else
      var n := |entries| - 1;
      assert KeySet(entries) == KeySet(entries[..n]) + {entries[n].0} by {
        forall x | x in KeySet(entries) ensures x in KeySet(entries[..n]) || x == entries[n].0 {
          var i :| 0 <= i < |entries| && entries[i].0 == x;
          if i < n { assert entries[..n][i] == entries[i]; }
        }
      }
      MapSet(MapOf(entries[..n]), entries[n].0, entries[n].1)
  }

  /** Entry `i` is the last one with its key. */
  predicate LastOfKey<K(==), V>(entries: seq<(K, V)>, i: nat)
    requires i < |entries|
  {
    forall j :: i < j < |entries| ==> entries[j].0 != entries[i].0
  }

  /** A map built from entries holds exactly their keys, each with the value
      of its last entry. */
  lemma {:induction false} MapOfLastWins<K(!new), V>(entries: seq<(K, V)>, i: nat)
    requires i < |entries| && LastOfKey(entries, i)
    ensures MapGet(MapOf(entries), entries[i].0) == Some(entries[i].1)
  {
    var n := |entries| - 1;
    if i < n {
      assert LastOfKey(entries[..n], i);
      MapOfLastWins(entries[..n], i);
    }
  }

  // ---------------------------------------------------------------------
  // Descriptors

  /** `Object.entries(o).map(([k, value]) => [key(k), f(value)])`; the
      descriptors convert keys with `Number`. */
  function Keyed<V, W>(entries: seq<(string, V)>, key: string -> Number, f: V -> W): (r: seq<(Number, W)>)
    ensures |r| == |entries|
    ensures forall i :: 0 <= i < |entries| ==> r[i] == (key(entries[i].0), f(entries[i].1))
  {
    if entries == [] then []
    else [(key(entries[0].0), f(entries[0].1))] + Keyed(entries[1..], key, f)
  }

  /** The map a JSON object of per-resolution values decodes to: every key
      converted, each converted key holding `f` of the value of the last
      entry whose key converts to it, and no other key. */
  lemma KeyedMap<V, W>(entries: seq<(string, V)>, key: string -> Number, f: V -> W)
    ensures var m := MapOf(Keyed(entries, key, f));
            && DistinctKeys(m)
            && (forall k :: MapGet(m, k).Some? <==> exists i :: 0 <= i < |entries| && key(entries[i].0) == k)
            && (forall i :: 0 <= i < |entries| && (forall j :: i < j < |entries| ==> key(entries[j].0) != key(entries[i].0))
                  ==> MapGet(m, key(entries[i].0)) == Some(f(entries[i].1)))
  {
    var es := Keyed(entries, key, f);
    forall k ensures k in KeySet(es) <==> exists i :: 0 <= i < |entries| && key(entries[i].0) == k {
      if k in KeySet(es) {
        var i :| 0 <= i < |es| && es[i].0 == k;
        assert key(entries[i].0) == k;
      }
    }
    forall i | 0 <= i < |entries| && (forall j :: i < j < |entries| ==> key(entries[j].0) != key(entries[i].0))
      ensures MapGet(MapOf(es), key(entries[i].0)) == Some(f(entries[i].1))
    {
      assert LastOfKey(es, i);
      MapOfLastWins(es, i);
    }
  }

  /** A JSON field that may hold `null`, be absent, or hold a number. */
  datatype NullableNumber = Null | Absent | Present(n: Number)

  /** The wire form of a contig descriptor. */
  datatype ContigDescriptorDto = ContigDescriptorDto(
    contigId: Number,
    contigName: string,
    contigLengthBp: Number,
    contigLengthBins: seq<(string, Number)>,
    contigDirection: Number,
    contigPresenceAtResolution: seq<(string, Number)>,
    scaffoldId: NullableNumber)

  datatype ContigDescriptor = ContigDescriptor(
    contigId: Number,
    contigName: string,
    contigLengthBp: Number,
    contigLengthBins: JsMap<Number, Number>,
    direction: Option<ContigDirection>,
    presenceAtResolution: JsMap<Number, Option<ContigHideType>>,
    scaffoldId: Option<Number>)

  /** `ContigDescriptorDTO.toEntity`: a `null` scaffold id becomes
      `undefined`, and so stays an absent one; a present one is kept. */
  function ContigDescriptorToEntity(json: ContigDescriptorDto): (c: ContigDescriptor)
    ensures c.contigId == json.contigId && c.contigName == json.contigName
    ensures c.contigLengthBp == json.contigLengthBp
    ensures c.direction == ContigDirectionFromDto(json.contigDirection)
    ensures c.scaffoldId.None? <==> !json.scaffoldId.Present?
    ensures c.scaffoldId.Some? ==> c.scaffoldId.value == json.scaffoldId.n
  {
    ContigDescriptor(
      json.contigId,
      json.contigName,
      json.contigLengthBp,
      MapOf(Keyed(json.contigLengthBins, ToNumber, (n: Number) => n)),
      ContigDirectionFromDto(json.contigDirection),
      MapOf(Keyed(json.contigPresenceAtResolution, ToNumber, ContigHideTypeFromDto)),
      if json.scaffoldId.Present? then Some(json.scaffoldId.n) else None)
  }

  /** The two per-resolution maps of a decoded contig: keyed by `Number` of
      the JSON keys, the bin lengths carried over and the presence values
      decoded as hide types, the last entry of a key winning. */
  lemma ContigDescriptorMaps(json: ContigDescriptorDto)
    ensures var c := ContigDescriptorToEntity(json);
            var bins := json.contigLengthBins;
            && DistinctKeys(c.contigLengthBins)
            && (forall k :: MapGet(c.contigLengthBins, k).Some? <==>
                  exists i :: 0 <= i < |bins| && ToNumber(bins[i].0) == k)
            && (forall i :: 0 <= i < |bins| && (forall j :: i < j < |bins| ==> ToNumber(bins[j].0) != ToNumber(bins[i].0))
                  ==> MapGet(c.contigLengthBins, ToNumber(bins[i].0)) == Some(bins[i].1))
    ensures var c := ContigDescriptorToEntity(json);
            var ps := json.contigPresenceAtResolution;
            && DistinctKeys(c.presenceAtResolution)
            && (forall k :: MapGet(c.presenceAtResolution, k).Some? <==>
                  exists i :: 0 <= i < |ps| && ToNumber(ps[i].0) == k)
            && (forall i :: 0 <= i < |ps| && (forall j :: i < j < |ps| ==> ToNumber(ps[j].0) != ToNumber(ps[i].0))
                  ==> MapGet(c.presenceAtResolution, ToNumber(ps[i].0)) == Some(ContigHideTypeFromDto(ps[i].1)))
  {
    KeyedMap(json.contigLengthBins, ToNumber, (n: Number) => n);
    KeyedMap(json.contigPresenceAtResolution, ToNumber, ContigHideTypeFromDto);
  }

  /** The wire form of a scaffold's first and last contig. */
  datatype ScaffoldBordersDto = ScaffoldBordersDto(startContigId: Number, endContigId: Number)

  datatype ScaffoldBorders = ScaffoldBorders(startContigId: Number, endContigId: Number)

  /** `ScaffoldBordersDTO.toEntity`: both ids are carried over. */
  function ScaffoldBordersToEntity(json: ScaffoldBordersDto): (b: ScaffoldBorders)
    ensures b.startContigId == json.startContigId && b.endContigId == json.endContigId
  {
    ScaffoldBorders(json.startContigId, json.endContigId)
  }

  /** The wire form of a scaffold descriptor; `scaffoldBorders` is `None`
      when the JSON field is falsy (absent or `null`). */
  datatype ScaffoldDescriptorDto = ScaffoldDescriptorDto(
    scaffoldId: Number,
    scaffoldName: string,
    scaffoldBorders: Option<ScaffoldBordersDto>,
    scaffoldDirection: Number,
    spacerLength: Number)

  /** `scaffoldBorders` is `None` for `null`. */
  datatype ScaffoldDescriptor = ScaffoldDescriptor(
    scaffoldId: Number,
    scaffoldName: string,
    scaffoldBorders: Option<ScaffoldBorders>,
    direction: Option<ScaffoldDirection>,
    spacerLength: Number)

  /** `ScaffoldDescriptorDTO.toEntity`: borders are `null` exactly when the
      JSON field is falsy, and otherwise name the same start and end
      contigs. */
  function ScaffoldDescriptorToEntity(json: ScaffoldDescriptorDto): (s: ScaffoldDescriptor)
    ensures s.scaffoldId == json.scaffoldId && s.scaffoldName == json.scaffoldName
    ensures s.spacerLength == json.spacerLength
    ensures s.direction == ScaffoldDirectionFromDto(json.scaffoldDirection)
    ensures s.scaffoldBorders.None? <==> json.scaffoldBorders.None?
    ensures s.scaffoldBorders.Some? ==>
              && s.scaffoldBorders.value.startContigId == json.scaffoldBorders.value.startContigId
              && s.scaffoldBorders.value.endContigId == json.scaffoldBorders.value.endContigId
  {
    ScaffoldDescriptor(
      json.scaffoldId,
      json.scaffoldName,
      match json.scaffoldBorders
      case Some(b) => Some(ScaffoldBordersToEntity(b))
      case None => None,
      ScaffoldDirectionFromDto(json.scaffoldDirection),
      json.spacerLength)
  }

  /** The wire form of an assembly: its contigs and scaffolds in order. */
  datatype AssemblyInfoDto = AssemblyInfoDto(
    contigDescriptors: seq<ContigDescriptorDto>,
    scaffoldDescriptors: seq<ScaffoldDescriptorDto>)

  datatype AssemblyInfo = AssemblyInfo(
    contigDescriptors: seq<ContigDescriptor>,
    scaffoldDescriptors: seq<ScaffoldDescriptor>)

  /** `contigDescriptors.map(...)`: one descriptor per element, in order. */
  function ContigDescriptorsToEntity(js: seq<ContigDescriptorDto>): (cs: seq<ContigDescriptor>)
    ensures |cs| == |js|
    ensures forall i :: 0 <= i < |js| ==> cs[i] == ContigDescriptorToEntity(js[i])
  {
    if js == [] then [] else [ContigDescriptorToEntity(js[0])] + ContigDescriptorsToEntity(js[1..])
  }

  /** `scaffoldDescriptors.map(...)`: one descriptor per element, in order. */
  function ScaffoldDescriptorsToEntity(js: seq<ScaffoldDescriptorDto>): (ss: seq<ScaffoldDescriptor>)
    ensures |ss| == |js|
    ensures forall i :: 0 <= i < |js| ==> ss[i] == ScaffoldDescriptorToEntity(js[i])
  {
    if js == [] then [] else [ScaffoldDescriptorToEntity(js[0])] + ScaffoldDescriptorsToEntity(js[1..])
  }

  /** `AssemblyInfoDTO.toEntity`: both lists decoded element by element,
      keeping their lengths and order; in particular the contigs keep the
      ids they were sent with. */
  function AssemblyInfoToEntity(json: AssemblyInfoDto): (a: AssemblyInfo)
    ensures |a.contigDescriptors| == |json.contigDescriptors|
    ensures |a.scaffoldDescriptors| == |json.scaffoldDescriptors|
    ensures forall i :: 0 <= i < |json.contigDescriptors| ==>
              a.contigDescriptors[i] == ContigDescriptorToEntity(json.contigDescriptors[i])
              && a.contigDescriptors[i].contigId == json.contigDescriptors[i].contigId
    ensures forall i :: 0 <= i < |json.scaffoldDescriptors| ==>
              a.scaffoldDescriptors[i] == ScaffoldDescriptorToEntity(json.scaffoldDescriptors[i])
              && a.scaffoldDescriptors[i].scaffoldId == json.scaffoldDescriptors[i].scaffoldId
  {
    AssemblyInfo(ContigDescriptorsToEntity(json.contigDescriptors),
                 ScaffoldDescriptorsToEntity(json.scaffoldDescriptors))
  }
}
