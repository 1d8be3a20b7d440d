/**
 * The transformations `ai/fetch_pipeline_data.py` applies to the parsed
 * backend responses before it writes the pipeline's CSV: the facility
 * scarcity proxy, the temperature and heat-risk readings, the population
 * records, the facility-count fill-in and the assembly of the rows.
 * JSON object keys are strings already, so the script's `str(k)` leaves
 * them as they are.
 */
module Fetch {
  import opened Wrappers
  import opened Dicts
  import opened Json
  import opened Schema
  import opened Stats
  import Features

  // ---------------------------------------------------------------------
  // facility_count_to_distance

  /** `1.0 / (1.0 + count)`: fewer facilities give a larger value; a count of -1 divides by zero. */
  function FacilityCountToDistance(count: int): (d: real)
    requires count != -1
    ensures d * (1.0 + count as real) == 1.0
    ensures count == 0 ==> d == 1.0
    ensures count >= 0 ==> 0.0 < d <= 1.0
    ensures count < -1 ==> d < 0.0
  {
    var den := 1.0 + count as real;
    var d := 1.0 / den;
    assert d * den == 1.0;
    if count >= 0 then
      DivBounds(1.0, den, 0.0, 1.0);
      d
    else
      d
  }

  /** More facilities give a strictly smaller value. */
  lemma DistanceDecreasing(a: int, b: int)
    requires 0 <= a < b
    ensures FacilityCountToDistance(b) < FacilityCountToDistance(a)
  {
    var da, db := FacilityCountToDistance(a), FacilityCountToDistance(b);
    var ea, eb := 1.0 + a as real, 1.0 + b as real;
    assert da * ea == 1.0 && db * eb == 1.0;
    var p := da * db;
    assert p > 0.0;
    assert p * (eb - ea) == da * (db * eb) - db * (da * ea);
    assert p * (eb - ea) > 0.0;
  }

  /** The count can be read back from the value. */
  lemma DistanceDeterminesCount(count: int)
    requires count != -1
    ensures 1.0 / FacilityCountToDistance(count) - 1.0 == count as real
  {
    var d := FacilityCountToDistance(count);
    assert d != 0.0;
    assert 1.0 / d == 1.0 + count as real by {
      assert d * (1.0 + count as real) == 1.0;
    }
  }

  // ---------------------------------------------------------------------
  // get_barangay_temperatures

  /** `data.get("temperatures") or {}`. */
  function TemperaturesOf(data: Json): Json
    requires data.JObj?
  {
    Or(GetOr(data.fields, "temperatures", JNull), JObj([]))
  }

  /**
   * `{k: float(v) for k, v in temps.items() if v is not None}`; the first
   * value `float` refuses raises.
   */
  function NonNullFloats(temps: Dict<Json>, parse: string -> Option<real>): (r: Result<Dict<real>, PyError>)
    ensures r.Success? <==> forall i :: 0 <= i < |temps| && temps[i].1 != JNull ==> PyFloat(temps[i].1, parse).Success?
    ensures r.Failure? ==> r.error != AttributeError
  {
    if temps == [] then Success([])
    else
      var (k, v) := temps[0];
      var rest := NonNullFloats(temps[1..], parse);
      assert forall i :: 1 <= i < |temps| ==> temps[i] == temps[1..][i - 1];
      if v == JNull then rest
      else
        match PyFloat(v, parse)
        case Failure(e) => Failure(e)
        case Success(x) =>
          match rest
          case Failure(e) => Failure(e)
          case Success(out) => Success([(k, x)] + out)
  }

  /**
   * The readings kept are exactly the non-null ones, each under its own
   * key, converted by `float`.
   */
  lemma {:induction false} NonNullFloatsLookup(temps: Dict<Json>, parse: string -> Option<real>, k: string)
    requires NonNullFloats(temps, parse).Success? && DistinctKeys(temps)
    ensures DistinctKeys(NonNullFloats(temps, parse).value)
    ensures HasKey(NonNullFloats(temps, parse).value, k) ==> HasKey(temps, k)
    ensures HasKey(temps, k) ==> var v := Lookup(temps, k).value;
              Lookup(NonNullFloats(temps, parse).value, k) == if v == JNull then None else Some(PyFloat(v, parse).value)
  {
    if temps != [] {
      var (k0, v0) := temps[0];
      Unfold(temps);
      var out := NonNullFloats(temps[1..], parse).value;
      NonNullFloatsLookup(temps[1..], parse, k);
      NonNullFloatsLookup(temps[1..], parse, k0);
      if v0 != JNull {
        var r := [(k0, PyFloat(v0, parse).value)] + out;
        assert r == NonNullFloats(temps, parse).value;
        assert r[1..] == out;
        Unfold(r);
      }
    }
  }

  /**
   * `get_barangay_temperatures` after the response is decoded: the readings
   * that are not null, as floats. A response or a `temperatures` entry that
   * is not an object has no `.get` or `.items`.
   */
  function GetBarangayTemperatures(data: Json, parse: string -> Option<real>): (r: Result<Dict<real>, PyError>)
    ensures r == Failure(AttributeError) <==> !data.JObj? || !TemperaturesOf(data).JObj?
    ensures data.JObj? && TemperaturesOf(data).JObj? ==> r == NonNullFloats(TemperaturesOf(data).fields, parse)
  {
    if !data.JObj? then Failure(AttributeError)
    else
      var temps := TemperaturesOf(data);
      if !temps.JObj? then Failure(AttributeError)
      else
        var r := NonNullFloats(temps.fields, parse);
        assert r.Failure? ==> r.error != AttributeError;
        r
  }

  // ---------------------------------------------------------------------
  // get_barangay_heat_risk

  /** The response of the heat-risk endpoint, after decoding. */
  datatype HeatRisk = HeatRisk(temperatures: Dict<real>, usedHeatIndex: bool, temperaturesSource: Json)

  /** `data.get("risks") or {}`. */
  function RisksOf(data: Json): Json
    requires data.JObj?
  {
    Or(GetOr(data.fields, "risks", JNull), JObj([]))
  }

  /** `data.get("meta") or {}`. */
  function MetaOf(data: Json): Json
    requires data.JObj?
  {
    Or(GetOr(data.fields, "meta", JNull), JObj([]))
  }

  /** The entry is an object whose `heat_index_c` is a number. */
  predicate FromHeatIndex(risk: Json)
  {
    risk.JObj? && IsNumber(GetOr(risk.fields, "heat_index_c", JNull))
  }

  /**
   * The reading an entry gives, and whether it is the heat index: a numeric
   * `heat_index_c` is preferred to a numeric `temp_c`; an entry that is not
   * an object, or has neither, gives none.
   */
  function HeatChoice(risk: Json): (c: Option<(real, bool)>)
    ensures c.Some? && c.value.1 <==> FromHeatIndex(risk)
    ensures FromHeatIndex(risk) ==> c.value.0 == AsReal(GetOr(risk.fields, "heat_index_c", JNull))
    ensures c.Some? && !c.value.1 ==> (risk.JObj? && IsNumber(GetOr(risk.fields, "temp_c", JNull))
                                       && c.value.0 == AsReal(GetOr(risk.fields, "temp_c", JNull)))
    ensures c.None? <==> !risk.JObj? || (!IsNumber(GetOr(risk.fields, "heat_index_c", JNull)) && !IsNumber(GetOr(risk.fields, "temp_c", JNull)))
  {
    if !risk.JObj? then None
    else
      var hi := GetOr(risk.fields, "heat_index_c", JNull);
      var temp := GetOr(risk.fields, "temp_c", JNull);
      if IsNumber(hi) then Some((AsReal(hi), true))
      else if IsNumber(temp) then Some((AsReal(temp), false))
      else None
  }

  /** The readings the loop collects from the first entries of `risks`, in order. */
  function Selected(risks: Dict<Json>): (out: Dict<real>)
    ensures DistinctKeys(out)
    ensures forall k :: HasKey(out, k) ==> HasKey(risks, k)
  {
    if risks == [] then []
    else
      var n := |risks| - 1;
      var init := Selected(risks[..n]);
      assert forall k :: HasKey(risks[..n], k) ==> HasKey(risks, k) by {
        assert forall i :: 0 <= i < n ==> risks[..n][i] == risks[i];
      }
      var c := HeatChoice(risks[n].1);
      if c.Some? then
        PutKeys(init, risks[n].0, c.value.0);
        assert Keys(risks)[n] == risks[n].0;
        Put(init, risks[n].0, c.value.0)
      else init
  }

  /** One more entry through the loop. */
  lemma SelectedStep(risks: Dict<Json>, i: int)
    requires 0 <= i < |risks|
    ensures var c := HeatChoice(risks[i].1);
      Selected(risks[..i + 1]) == if c.Some? then Put(Selected(risks[..i]), risks[i].0, c.value.0) else Selected(risks[..i])
    ensures AnyHeatIndex(risks[..i + 1]) <==> AnyHeatIndex(risks[..i]) || FromHeatIndex(risks[i].1)
  {
    assert risks[..i + 1][..i] == risks[..i];
    assert forall j :: 0 <= j < i ==> risks[..i + 1][j] == risks[..i][j];
  }

  /** Some entry among `risks` gave its heat index. */
  predicate AnyHeatIndex(risks: Dict<Json>)
  {
    exists i :: 0 <= i < |risks| && FromHeatIndex(risks[i].1)
  }

  /** The reading an entry contributes, if any. */
  function Reading(entry: Option<Json>): Option<real>
  {
    if entry.Some? && HeatChoice(entry.value).Some? then Some(HeatChoice(entry.value).value.0) else None
  }

  /** For a dictionary, each id's reading is the one its own entry gives. */
  lemma {:induction false} SelectedLookup(risks: Dict<Json>, k: string)
    requires DistinctKeys(risks)
    ensures Lookup(Selected(risks), k) == Reading(Lookup(risks, k))
  {
    if risks != [] {
      var n := |risks| - 1;
      assert risks == risks[..n] + [risks[n]];
      assert DistinctKeys(risks[..n]);
      SelectedLookup(risks[..n], k);
      LookupConcat(risks[..n], [risks[n]], k);
      var init := Selected(risks[..n]);
      PrefixLacksNext(risks, n);
      var c := HeatChoice(risks[n].1);
      if c.Some? {
        var r := init + [(risks[n].0, c.value.0)];
        LookupConcat(init, [(risks[n].0, c.value.0)], k);
      }
    }
  }

  lemma SelectedLookupAll(risks: Dict<Json>)
    requires DistinctKeys(risks)
    ensures forall k :: Lookup(Selected(risks), k) == Reading(Lookup(risks, k))
  {
    forall k ensures Lookup(Selected(risks), k) == Reading(Lookup(risks, k)) {
      SelectedLookup(risks, k);
    }
  }

  /** The `risks` object of a decoded response is a dictionary. */
  lemma RisksDistinct(data: Json)
    requires Decoded(data) && data.JObj? && RisksOf(data).JObj?
    ensures DistinctKeys(RisksOf(data).fields)
  {
    GetDecoded(data.fields, "risks", JNull);
  }

  /**
   * The loop of `get_barangay_heat_risk` over the `risks` entries: each
   * entry's reading under its id, and whether any was a heat index.
   */
  method CollectReadings(risks: Dict<Json>) returns (out: Dict<real>, usedHi: bool)
    ensures out == Selected(risks)
    ensures usedHi <==> AnyHeatIndex(risks)
  {
    out, usedHi := [], false;
    var i := 0;
    while i < |risks|
      invariant 0 <= i <= |risks|
      invariant out == Selected(risks[..i])
      invariant usedHi <==> AnyHeatIndex(risks[..i])
    {
      var bid, risk := risks[i].0, risks[i].1;
      SelectedStep(risks, i);
      if risk.JObj? {
        var hi := GetOr(risk.fields, "heat_index_c", JNull);
        var temp := GetOr(risk.fields, "temp_c", JNull);
        if IsNumber(hi) {
          out := Put(out, bid, AsReal(hi));
          usedHi := true;
        } else if IsNumber(temp) {
          out := Put(out, bid, AsReal(temp));
        }
      }
      i := i + 1;
    }
    assert risks[..i] == risks;
  }

  /**
   * `get_barangay_heat_risk` after the response is decoded. A response, a
   * `risks` entry or a `meta` entry that is not an object has no `.get` or
   * `.items`.
   */
  method GetBarangayHeatRisk(data: Json) returns (r: Result<HeatRisk, PyError>)
    requires Decoded(data)
    ensures r.Success? <==> data.JObj? && RisksOf(data).JObj? && MetaOf(data).JObj?
    ensures r.Failure? ==> r.error == AttributeError
    ensures r.Success? ==> r.value.temperatures == Selected(RisksOf(data).fields)
    ensures r.Success? ==> forall k :: Lookup(r.value.temperatures, k) == Reading(Lookup(RisksOf(data).fields, k))
    ensures r.Success? ==> (r.value.usedHeatIndex <==> AnyHeatIndex(RisksOf(data).fields))
    ensures r.Success? ==> r.value.temperaturesSource == Or(GetOr(MetaOf(data).fields, "temperaturesSource", JNull), JStr(""))
  {
    if !data.JObj? {
      return Failure(AttributeError);
    }
    var risksJ := RisksOf(data);
    if !risksJ.JObj? {
      return Failure(AttributeError);
    }
    var risks := risksJ.fields;
    var out, usedHi := CollectReadings(risks);
    var meta := MetaOf(data);
    if !meta.JObj? {
      return Failure(AttributeError);
    }
    var source := Or(GetOr(meta.fields, "temperaturesSource", JNull), JStr(""));
    RisksDistinct(data);
    SelectedLookupAll(risks);
    return Success(HeatRisk(out, usedHi, source));
  }

  // ---------------------------------------------------------------------
  // get_barangay_population_density

  /** A barangay's `{"population": …, "density": …}` record. */
  datatype PopDensity = PopDensity(population: int, density: real)

  /**
   * The record for one response entry: `int(v.get("population", 0) or 0)`
   * and `float(v.get("density", 0) or 0)`, or 0 and 0.0 when the entry is
   * not an object or either conversion raises.
   */
  function NormalizeEntry(v: Json, parseInt: string -> Option<int>, parseFloat: string -> Option<real>): (e: PopDensity)
    ensures !v.JObj? ==> e == PopDensity(0, 0.0)
    ensures v.JObj? && !HasKey(v.fields, "population") && !HasKey(v.fields, "density") ==> e == PopDensity(0, 0.0)
    ensures (v.JObj? && PyFloat(Or(GetOr(v.fields, "density", JInt(0)), JInt(0)), parseFloat).Success?
             && GetOr(v.fields, "population", JInt(0)).JInt?)
            ==> e.population == GetOr(v.fields, "population", JInt(0)).i
    ensures (v.JObj? && PyInt(Or(GetOr(v.fields, "population", JInt(0)), JInt(0)), parseInt).Success?
             && IsNumber(GetOr(v.fields, "density", JInt(0))))
            ==> e.density == AsReal(GetOr(v.fields, "density", JInt(0)))
    ensures (v.JObj? && (PyInt(Or(GetOr(v.fields, "population", JInt(0)), JInt(0)), parseInt).Failure?
                         || PyFloat(Or(GetOr(v.fields, "density", JInt(0)), JInt(0)), parseFloat).Failure?))
            ==> e == PopDensity(0, 0.0)
    ensures (v.JObj? && PyInt(Or(GetOr(v.fields, "population", JInt(0)), JInt(0)), parseInt).Success?
                     && PyFloat(Or(GetOr(v.fields, "density", JInt(0)), JInt(0)), parseFloat).Success?)
            ==> e == PopDensity(PyInt(Or(GetOr(v.fields, "population", JInt(0)), JInt(0)), parseInt).value,
                                PyFloat(Or(GetOr(v.fields, "density", JInt(0)), JInt(0)), parseFloat).value)
  {
    if !v.JObj? then PopDensity(0, 0.0)
    else
      var pop := PyInt(Or(GetOr(v.fields, "population", JInt(0)), JInt(0)), parseInt);
      var dens := PyFloat(Or(GetOr(v.fields, "density", JInt(0)), JInt(0)), parseFloat);
      if pop.Success? && dens.Success? then PopDensity(pop.value, dens.value) else PopDensity(0, 0.0)
  }

  /** Every entry of `entries` normalized, under its own key. */
  function Normalized(entries: Dict<Json>, parseInt: string -> Option<int>, parseFloat: string -> Option<real>): Dict<PopDensity>
  {
    seq(|entries|, j requires 0 <= j < |entries| => (entries[j].0, NormalizeEntry(entries[j].1, parseInt, parseFloat)))
  }

  lemma NormalizedKeys(entries: Dict<Json>, parseInt: string -> Option<int>, parseFloat: string -> Option<real>)
    ensures Keys(Normalized(entries, parseInt, parseFloat)) == Keys(entries)
  {
  }

  lemma NormalizedStep(entries: Dict<Json>, i: int, parseInt: string -> Option<int>, parseFloat: string -> Option<real>)
    requires 0 <= i < |entries|
    ensures Normalized(entries[..i + 1], parseInt, parseFloat)
            == Normalized(entries[..i], parseInt, parseFloat) + [(entries[i].0, NormalizeEntry(entries[i].1, parseInt, parseFloat))]
  {
    var a := Normalized(entries[..i + 1], parseInt, parseFloat);
    var b := Normalized(entries[..i], parseInt, parseFloat) + [(entries[i].0, NormalizeEntry(entries[i].1, parseInt, parseFloat))];
    forall j | 0 <= j < |a| ensures a[j] == b[j] {
      if j < i {
        assert entries[..i + 1][j] == entries[..i][j];
      }
    }
  }

  /**
   * `get_barangay_population_density` after the response is decoded: a
   * record for every key of an object response, in its order; nothing for
   * any other response.
   */
  method GetBarangayPopulationDensity(data: Json, parseInt: string -> Option<int>, parseFloat: string -> Option<real>)
    returns (out: Dict<PopDensity>)
    requires data.JObj? ==> DistinctKeys(data.fields)
    ensures !data.JObj? ==> out == []
    ensures data.JObj? ==> Keys(out) == Keys(data.fields)
    ensures data.JObj? ==> forall i :: 0 <= i < |out| ==> out[i].1 == NormalizeEntry(data.fields[i].1, parseInt, parseFloat)
    ensures DistinctKeys(out)
  {
    if !data.JObj? {
      return [];
    }
    var entries := data.fields;
    out := [];
    var i := 0;
    while i < |entries|
      invariant 0 <= i <= |entries|
      invariant out == Normalized(entries[..i], parseInt, parseFloat)
    {
      var (k, v) := entries[i];
      NormalizedKeys(entries[..i], parseInt, parseFloat);
      PrefixLacksNext(entries, i);
      NormalizedStep(entries, i, parseInt, parseFloat);
      out := Put(out, k, NormalizeEntry(v, parseInt, parseFloat));
      i := i + 1;
    }
    assert entries[..i] == entries;
    NormalizedKeys(entries, parseInt, parseFloat);
  }

  // ---------------------------------------------------------------------
  // The facility-count fill-in of `main`

  /** Entries added by the fill-in: ids of `ids` that had no count, each with 0. */
  predicate NewZeros(counts: Dict<int>, ids: seq<string>, extra: Dict<int>)
  {
    forall j :: 0 <= j < |extra| ==> extra[j].1 == 0 && extra[j].0 in ids && !HasKey(counts, extra[j].0)
  }

  lemma NewZerosStep(counts: Dict<int>, ids: seq<string>, extra: Dict<int>, bid: string)
    requires NewZeros(counts, ids, extra) && bid in ids && !HasKey(counts, bid)
    ensures NewZeros(counts, ids, extra + [(bid, 0)])
  {
  }

  /** After the fill-in, an old count is found as before and a new one is 0. */
  lemma FilledLookup(counts: Dict<int>, ids: seq<string>, extra: Dict<int>, k: string)
    requires NewZeros(counts, ids, extra)
    ensures Lookup(counts + extra, k) == if HasKey(counts, k) then Lookup(counts, k) else if HasKey(extra, k) then Some(0) else None
    ensures GetOr(counts + extra, k, 0) == GetOr(counts, k, 0)
  {
    LookupConcat(counts, extra, k);
    HasKeyConcat(counts, extra, k);
  }

  /**
   * When the batch endpoint returned fewer counts than there are
   * barangays, every barangay without a count is given 0. The old counts
   * keep their places and values; new ones come last.
   */
  method FillMissingCounts(counts: Dict<int>, ids: seq<string>) returns (filled: Dict<int>)
    ensures |counts| >= |ids| ==> filled == counts
    ensures |filled| >= |counts| && filled[..|counts|] == counts
    ensures NewZeros(counts, ids, filled[|counts|..])
    ensures |counts| < |ids| ==> forall k :: HasKey(filled, k) <==> HasKey(counts, k) || k in ids
    ensures forall k :: Lookup(filled, k) == if HasKey(counts, k) then Lookup(counts, k) else if HasKey(filled, k) then Some(0) else None
    ensures forall k :: GetOr(filled, k, 0) == GetOr(counts, k, 0)
    ensures DistinctKeys(counts) ==> DistinctKeys(filled)
  {
    filled := counts;
    ghost var extra: Dict<int> := [];
    if |counts| < |ids| {
      var i := 0;
      while i < |ids|
        invariant 0 <= i <= |ids|
        invariant filled == counts + extra && NewZeros(counts, ids, extra)
        invariant forall k :: HasKey(filled, k) <==> HasKey(counts, k) || k in ids[..i]
        invariant DistinctKeys(counts) ==> DistinctKeys(filled)
      {
        var bid := ids[i];
        assert ids[..i + 1] == ids[..i] + [bid];
        if !HasKey(filled, bid) {
          PutKeys(filled, bid, 0);
          NewZerosStep(counts, ids, extra, bid);
          filled := Put(filled, bid, 0);
          extra := extra + [(bid, 0)];
        }
        i := i + 1;
      }
      assert ids[..i] == ids;
    }
    assert filled[..|counts|] == counts && filled[|counts|..] == extra;
    forall k ensures Lookup(filled, k) == if HasKey(counts, k) then Lookup(counts, k) else if HasKey(filled, k) then Some(0) else None
      ensures GetOr(filled, k, 0) == GetOr(counts, k, 0)
    {
      FilledLookup(counts, ids, extra, k);
      HasKeyConcat(counts, extra, k);
    }
  }

  // ---------------------------------------------------------------------
  // Row assembly in `main`

  /** A row of the CSV the fetch script writes. */
  datatype FetchedRow = FetchedRow(
    barangayId: string,
    date: string,
    temperature: real,
    facilityDistance: real,
    population: int,
    density: real)

  /** `facility_count_to_distance` of a count of -1 divides by zero. */
  datatype AssemblyError = ZeroDivision(barangayId: string)

  /**
   * One row per temperature reading, in the readings' order, dated
   * `today`, with the barangay's facility proxy (a missing count is 0)
   * and its population record (a missing one is 0 and 0).
   */
  function AssembleRows(temps: Dict<real>, today: string, counts: Dict<int>, records: Dict<PopDensity>)
    : (r: Result<seq<FetchedRow>, AssemblyError>)
    ensures r.Success? <==> forall i :: 0 <= i < |temps| ==> GetOr(counts, temps[i].0, 0) != -1
    ensures r.Failure? ==> exists i :: 0 <= i < |temps| && GetOr(counts, temps[i].0, 0) == -1 && r.error == ZeroDivision(temps[i].0)
    ensures r.Success? ==> |r.value| == |temps|
    ensures r.Success? ==> forall i :: 0 <= i < |temps| ==> RowFor(r.value[i], temps[i], today, counts, records)
  {
    if temps == [] then Success([])
    else
      var (id, temp) := temps[0];
      var count := GetOr(counts, id, 0);
      if count == -1 then Failure(ZeroDivision(id))
      else
        var record := GetOr(records, id, PopDensity(0, 0.0));
        var row := FetchedRow(id, today, temp, FacilityCountToDistance(count), record.population, record.density);
        assert RowFor(row, temps[0], today, counts, records);
        match AssembleRows(temps[1..], today, counts, records)
        case Failure(e) => Failure(e)
        case Success(rest) =>
          Success([row] + rest)
  }

  /**
   * The row written for one reading: its id, `today`, the reading, the
   * facility proxy of its count (0 when missing) and its population record
   * (0 and 0 when missing).
   */
  predicate RowFor(row: FetchedRow, reading: (string, real), today: string, counts: Dict<int>, records: Dict<PopDensity>)
  {
    var (id, temp) := reading;
    var record := GetOr(records, id, PopDensity(0, 0.0));
    && GetOr(counts, id, 0) != -1
    && row.barangayId == id && row.date == today && row.temperature == temp
    && row.facilityDistance == FacilityCountToDistance(GetOr(counts, id, 0))
    && row.population == record.population && row.density == record.density
  }

  /** The rows depend on the counts only through `get(barangay_id, 0)`, so the fill-in leaves them as they were. */
  lemma {:induction false} AssemblyIgnoresFill(temps: Dict<real>, today: string, counts: Dict<int>, filled: Dict<int>, records: Dict<PopDensity>)
    requires forall k :: GetOr(filled, k, 0) == GetOr(counts, k, 0)
    ensures AssembleRows(temps, today, filled, records) == AssembleRows(temps, today, counts, records)
  {
    if temps != [] {
      AssemblyIgnoresFill(temps[1..], today, counts, filled, records);
    }
  }

  /** Every facility proxy of an assembled table lies in (0, 1] when no count is negative. */
  lemma AssembledDistancesInUnit(temps: Dict<real>, today: string, counts: Dict<int>, records: Dict<PopDensity>)
    requires forall i :: 0 <= i < |counts| ==> counts[i].1 >= 0
    ensures AssembleRows(temps, today, counts, records).Success?
    ensures forall row :: row in AssembleRows(temps, today, counts, records).value ==> 0.0 < row.facilityDistance <= 1.0
  {
    forall k ensures GetOr(counts, k, 0) >= 0 {
      if HasKey(counts, k) {
        var i :| 0 <= i < |counts| && counts[i] == (k, Lookup(counts, k).value);
      }
    }
  }

  /**
   * The written CSV as the pipeline reads it back: the six columns it
   * writes, every reading present.
   */
  function AsFrame(rows: seq<FetchedRow>): (t: Frame)
    ensures Acceptable(t.columns) && FacilityScore !in t.columns
    ensures |t.rows| == |rows|
    ensures forall i :: 0 <= i < |rows| ==>
              && t.rows[i].barangayId == rows[i].barangayId && t.rows[i].date == rows[i].date
              && t.rows[i].temperature == Some(rows[i].temperature)
              && t.rows[i].facilityDistance == Some(rows[i].facilityDistance)
              && t.rows[i].population == Number(rows[i].population as real)
              && t.rows[i].density == Number(rows[i].density)
  {
    Frame({BarangayId, Date, Temperature, FacilityDistance, Population, Density},
          seq(|rows|, i requires 0 <= i < |rows| =>
            var row := rows[i];
            CsvRow(row.barangayId, row.date, Some(row.temperature), Some(row.facilityDistance), None,
                   Number(row.population as real), Number(row.density))))
  }

  /**
   * A freshly fetched snapshot has a single date, so the pipeline's rolling
   * mean is not applied to it, whatever it is asked for.
   */
  lemma SnapshotIsNotRolled(temps: Dict<real>, today: string, counts: Dict<int>, records: Dict<PopDensity>, useRolling: bool)
    requires AssembleRows(temps, today, counts, records).Success?
    ensures !Features.UsesRolling(AsFrame(AssembleRows(temps, today, counts, records).value).rows, useRolling)
  {
    var t := AsFrame(AssembleRows(temps, today, counts, records).value);
    assert Features.DistinctDates(t.rows) <= {today};
    SubsetOfSingleton(Features.DistinctDates(t.rows), today);
  }

  lemma SubsetOfSingleton(s: set<string>, x: string)
    requires s <= {x}
    ensures |s| <= 1
  {
    if s != {} {
      assert s == {x};
    }
  }
}
