/** Sensor readings: the `AirQuality` class, its severity legend, and the
    parsing of the air-quality API payload (`parse_aqi`). */
module Readings {
  import opened Wrappers

  /** The six severity bands of the legend, mildest first. */
  datatype Band = Libre | Maso | NoTanBien | Insalubre | MuyInsalubre | Peligroso

  /** Reference definition of the bands as closed ranges of the index. */
  predicate InBand(index: int, b: Band) {
    match b
    case Libre => index <= 50
    case Maso => 51 <= index <= 100
    case NoTanBien => 101 <= index <= 150
    case Insalubre => 151 <= index <= 200
    case MuyInsalubre => 201 <= index <= 300
    case Peligroso => 301 <= index
  }

  function Rank(b: Band): nat {
    match b
    case Libre => 0
    case Maso => 1
    case NoTanBien => 2
    case Insalubre => 3
    case MuyInsalubre => 4
    case Peligroso => 5
  }

  /** The `if`/`elif` chain of the constructor, with its strict thresholds. */
  function BandOf(index: int): (b: Band)
    ensures InBand(index, b)
  {
    if index < 51 then Libre
    else if index < 101 then Maso
    else if index < 151 then NoTanBien
    else if index < 201 then Insalubre
    else if index < 301 then MuyInsalubre
    else Peligroso
  }

  /** The legend text of each band, emoji included. */
  function Legend(b: Band): string {
    match b
    case Libre => "\U{1F7E2}\U{1F44D} Libre"
    case Maso => "\U{1F7E1}\U{1F610} Maso"
    case NoTanBien => "\U{1F7E0}\U{26A0}\U{1F637}\U{FE0F}\U{1F476}\U{1F494}\U{1F474}\U{1F930} No tan bien"
    case Insalubre => "\U{1F534}\U{26A0}\U{1F637}\U{203C}\U{FE0F} Insalubre"
    case MuyInsalubre => "\U{1F7E3}\U{2623}\U{FE0F}\U{2623}\U{FE0F} Muy Insalubre"
    case Peligroso => "\U{1F7E4}\U{2620}\U{FE0F}\U{2620}\U{FE0F} Peligroso"
  }

  /** Every index lies in exactly one band, and that band is the one chosen. */
  lemma BandsPartition(index: int, b: Band)
    ensures InBand(index, b) <==> b == BandOf(index)
  {
  }

  /** The values on each side of every threshold, and the negative indices. */
  lemma BandBoundaries()
    ensures BandOf(50) == Libre && BandOf(51) == Maso
    ensures BandOf(100) == Maso && BandOf(101) == NoTanBien
    ensures BandOf(150) == NoTanBien && BandOf(151) == Insalubre
    ensures BandOf(200) == Insalubre && BandOf(201) == MuyInsalubre
    ensures BandOf(300) == MuyInsalubre && BandOf(301) == Peligroso
    ensures forall i :: i < 0 ==> BandOf(i) == Libre
  {
  }

  /** A higher index never gets a milder band. */
  lemma BandMonotone(i: int, j: int)
    requires i <= j
    ensures Rank(BandOf(i)) <= Rank(BandOf(j))
  {
  }

  /** Distinct bands have distinct legends: each opens with its own colour. */
  lemma LegendsDistinct(b: Band, c: Band)
    ensures Legend(b) == Legend(c) <==> b == c
  {
    if b != c {
      assert Legend(b)[0] != Legend(c)[0];
    }
  }

  /** No legend spans two lines. */
  lemma LegendOneLine(b: Band)
    ensures forall k :: 0 <= k < |Legend(b)| ==> Legend(b)[k] != '\n'
  {
    match b
    case Libre =>
    case Maso =>
    case NoTanBien =>
    case Insalubre =>
    case MuyInsalubre =>
    case Peligroso =>
  }

  /** One sensor reading. The fields never change after construction. */
  class AirQuality {
    const index: int
    const source: string
    const legend: string

    /** The legend is the one of the band the index falls in. */
    ghost predicate Valid() {
      legend == Legend(BandOf(index))
    }

    constructor (aqiIndex: int, source: string)
      ensures this.index == aqiIndex && this.source == source
      ensures legend == Legend(BandOf(aqiIndex)) && Valid()
    {
      this.index := aqiIndex;
      this.source := source;
      this.legend := Legend(BandOf(aqiIndex));
    }
  }

  // ---------------------------------------------------------------------
  // The API payload
  // ---------------------------------------------------------------------

  /** The `quality` object of a record; `index` may be missing from it. */
  datatype Quality = Quality(index: Option<int>)

  /** One JSON object of the payload. `None` stands for a missing key (or a
      JSON null, for `description`); `source` holds the identifier as the
      f-string renders it. */
  datatype Record = Record(description: Option<string>, source: Option<string>, quality: Option<Quality>)

  /** The `KeyError` that `parse_aqi` raises: which key, at which record. */
  datatype KeyError = KeyError(position: nat, key: string)

  /** A description is used when present and truthy, that is non-empty. */
  predicate HasDescription(r: Record) {
    r.description.Some? && r.description.value != ""
  }

  /** The label of a record, or `None` when `source` is needed but missing. */
  function SourceLabel(r: Record): Option<string> {
    if HasDescription(r) then Some(r.description.value)
    else if r.source.Some? then Some("Sensor " + r.source.value)
    else None
  }

  /** The key whose lookup fails first on this record, in evaluation order:
      `source` (only when there is no description), then `quality`, then
      `index`. */
  function MissingKey(r: Record): Option<string> {
    if SourceLabel(r).None? then Some("source")
    else if r.quality.None? then Some("quality")
    else if r.quality.value.index.None? then Some("index")
    else None
  }

  predicate WellFormed(r: Record) {
    MissingKey(r).None?
  }

  /** `parse_aqi`: one reading per record, in order, or the first `KeyError`. */
  method ParseAqi(response: seq<Record>) returns (result: Result<seq<AirQuality>, KeyError>)
    ensures result.Success? <==> forall i :: 0 <= i < |response| ==> WellFormed(response[i])
    ensures result.Success? ==> |result.value| == |response|
    ensures result.Success? ==> forall i :: 0 <= i < |response| ==>
      && response[i].quality.Some? && response[i].quality.value.index.Some?
      && result.value[i].index == response[i].quality.value.index.value
      && result.value[i].source
         == (if HasDescription(response[i]) then response[i].description.value
             else "Sensor " + response[i].source.value)
      && result.value[i].Valid()
    ensures result.Failure? ==>
      && result.error.position < |response|
      && MissingKey(response[result.error.position]) == Some(result.error.key)
      && forall j :: 0 <= j < result.error.position ==> WellFormed(response[j])
  {
    var sensors: seq<AirQuality> := [];
    for i := 0 to |response|
      invariant |sensors| == i
      invariant forall j :: 0 <= j < i ==> WellFormed(response[j])
      invariant forall j :: 0 <= j < i ==>
        && sensors[j].index == response[j].quality.value.index.value
        && Some(sensors[j].source) == SourceLabel(response[j])
        && sensors[j].Valid()
    {
      var sensor := response[i];
      var source := SourceLabel(sensor);
      if source.None? {
        return Failure(KeyError(i, "source"));
      }
      if sensor.quality.None? {
        return Failure(KeyError(i, "quality"));
      }
      if sensor.quality.value.index.None? {
        return Failure(KeyError(i, "index"));
      }
      var aq := new AirQuality(sensor.quality.value.index.value, source.value);
      sensors := sensors + [aq];
    }
    return Success(sensors);
  }
}
