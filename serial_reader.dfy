/**
 * Validation of one sensor frame coming from the microcontroller
 * (`parse_serial_line`). The frame is the decoded JSON value of one text line;
 * the result is either the normalised five-key reading or the first error in
 * a fixed check order.
 */
module SerialFrame {
  import opened Wrappers
  import opened JsonValue

  /** The keys every frame must carry, in the order they are checked. */
  const RequiredSensorKeys: seq<string> :=
    ["pir", "dht11_temp_c", "dht11_humidity", "lm393_raw", "lm393_lux"]

  const Dht11TempMinC: real := 0.0
  const Dht11TempMaxC: real := 50.0
  const Dht11HumidityMin: real := 20.0
  const Dht11HumidityMax: real := 90.0
  const Lm393RawMin: int := 0
  const Lm393RawMax: int := 1023
  const Lm393LuxMin: real := 0.0
  const Lm393LuxMax: real := 10000.0

  /** The normalised reading: key to numeric value. */
  type Reading = map<string, Num>

  /** Why a frame was refused; `Message` gives the text of the `ValueError`. */
  datatype FrameError =
    | InvalidJsonFrame
    | NotAnObject
    | MissingKey(key: string)
    | NotNumeric(key: string)
    | PirNotBinary
    | RawOutOfRange
    | LuxOutOfRange
    | TempOutOfRange
    | HumidityOutOfRange

  function Message(e: FrameError): string
  {
    match e
    case InvalidJsonFrame => "Invalid JSON frame"
    case NotAnObject => "Serial frame must be a JSON object"
    case MissingKey(k) => "Missing required key: " + k
    case NotNumeric(k) => "Sensor key " + k + " must be numeric"
    case PirNotBinary => "pir must be 0 or 1"
    case RawOutOfRange => "lm393_raw out of range [0, 1023]"
    case LuxOutOfRange => "lm393_lux out of range [0.0, 10000.0]"
    case TempOutOfRange => "dht11_temp_c out of range [0.0, 50.0]"
    case HumidityOutOfRange => "dht11_humidity out of range [20.0, 90.0]"
  }

  /**
   * The numeric test of one value: a boolean is first turned into 0 or 1,
   * then only integers and floats pass.
   */
  function Normalize(v: Json): (r: Option<Num>)
    ensures r.Some? <==> v.JBool? || v.JNum?
    ensures v.JNum? ==> r == Some(v.n)
    ensures v.JBool? ==> r == Some(Int(if v.b then 1 else 0))
  {
    match v
    case JBool(b) => Some(Int(if b then 1 else 0))
    case JNum(n) => Some(n)
    case _ => None
  }

  /** A key is acceptable when it is present and its value is numeric. */
  predicate KeyOk(payload: map<string, Json>, k: string)
  {
    k in payload && Normalize(payload[k]).Some?
  }

  /** The error the key checks report for a key that is not acceptable. */
  function KeyFault(payload: map<string, Json>, k: string): FrameError
  {
    if k !in payload then MissingKey(k) else NotNumeric(k)
  }

  /**
   * The key checks over `keys`, in order: the first absent or non-numeric key
   * is the error, otherwise the normalised values of exactly those keys.
   */
  function NormalizeKeys(payload: map<string, Json>, keys: seq<string>): (r: Result<Reading, FrameError>)
    decreases |keys|
  {
    if keys == [] then Ok(map[])
    else
      var last := keys[|keys| - 1];
      match NormalizeKeys(payload, keys[..|keys| - 1])
      case Err(e) => Err(e)
      case Ok(m) =>
        if last !in payload then Err(MissingKey(last))
        else match Normalize(payload[last])
          case None => Err(NotNumeric(last))
          case Some(n) => Ok(m[last := n])
  }

  /**
   * What the key checks compute: they pass exactly when every key is present
   * and numeric, and then the reading holds exactly those keys with their
   * normalised values; a failure names one of the faulty keys.
   */
  lemma {:induction false} NormalizeKeysMeaning(payload: map<string, Json>, keys: seq<string>)
    decreases |keys|
    ensures var r := NormalizeKeys(payload, keys);
      && (r.Ok? <==> forall k :: k in keys ==> KeyOk(payload, k))
      && (r.Ok? ==> r.value.Keys == set k | k in keys)
      && (r.Ok? ==> forall k :: k in keys ==> Normalize(payload[k]) == Some(r.value[k]))
      && (r.Err? ==> exists k :: k in keys && !KeyOk(payload, k) && r.error == KeyFault(payload, k))
  {
    if keys != [] {
      var last := keys[|keys| - 1];
      var front := keys[..|keys| - 1];
      NormalizeKeysMeaning(payload, front);
      assert keys == front + [last];
      assert last in keys;
      assert forall k :: k in keys <==> k in front || k == last;
    }
  }

  /** The value as Python's `float()` sees it; never called on a non-finite value. */
  function AsReal(v: Num): real
    requires !v.NonFinite?
  {
    match v
    case Int(i) => i as real
    case Float(x) => x
  }

  /** The inclusive range test; a non-finite value is never in range. */
  predicate InRange(v: Num, lo: real, hi: real)
  {
    !v.NonFinite? && lo <= AsReal(v) <= hi
  }

  /** `pir in (0, 1)`: numeric equality, so `0.0` and `1.0` pass as well. */
  predicate PirBinary(v: Num)
  {
    !v.NonFinite? && (AsReal(v) == 0.0 || AsReal(v) == 1.0)
  }

  predicate HasRequiredKeys(r: Reading)
  {
    forall k :: k in RequiredSensorKeys ==> k in r
  }

  predicate RawOk(r: Reading) requires HasRequiredKeys(r)
  {
    InRange(r["lm393_raw"], Lm393RawMin as real, Lm393RawMax as real)
  }

  predicate LuxOk(r: Reading) requires HasRequiredKeys(r)
  {
    InRange(r["lm393_lux"], Lm393LuxMin, Lm393LuxMax)
  }

  predicate TempOk(r: Reading) requires HasRequiredKeys(r)
  {
    InRange(r["dht11_temp_c"], Dht11TempMinC, Dht11TempMaxC)
  }

  predicate HumidityOk(r: Reading) requires HasRequiredKeys(r)
  {
    InRange(r["dht11_humidity"], Dht11HumidityMin, Dht11HumidityMax)
  }

  /** Every bound of a valid reading. */
  predicate WithinBounds(r: Reading) requires HasRequiredKeys(r)
  {
    PirBinary(r["pir"]) && RawOk(r) && LuxOk(r) && TempOk(r) && HumidityOk(r)
  }

  /** The range checks, run after all key checks, first violation wins. */
  function CheckRanges(r: Reading): Result<Reading, FrameError>
    requires HasRequiredKeys(r)
  {
    if !PirBinary(r["pir"]) then Err(PirNotBinary)
    else if !RawOk(r) then Err(RawOutOfRange)
    else if !LuxOk(r) then Err(LuxOutOfRange)
    else if !TempOk(r) then Err(TempOutOfRange)
    else if !HumidityOk(r) then Err(HumidityOutOfRange)
    else Ok(r)
  }

  /** The whole validator as a function of the decoded line. */
  function ParseFrame(decoded: Option<Json>): Result<Reading, FrameError>
  {
    match decoded
    case None => Err(InvalidJsonFrame)
    case Some(v) =>
      if !v.JObject? then Err(NotAnObject)
      else match NormalizeKeys(v.fields, RequiredSensorKeys)
        case Err(e) => Err(e)
        case Ok(r) =>
          NormalizeKeysMeaning(v.fields, RequiredSensorKeys);
          CheckRanges(r)
  }

  /** Once a prefix of the keys has failed, the whole key list fails the same way. */
  lemma {:induction false} PrefixErrorPersists(payload: map<string, Json>, keys: seq<string>, i: nat)
    requires i <= |keys|
    requires NormalizeKeys(payload, keys[..i]).Err?
    ensures NormalizeKeys(payload, keys) == NormalizeKeys(payload, keys[..i])
    decreases |keys| - i
  {
    if i < |keys| {
      assert keys[..i + 1][..i] == keys[..i];
      PrefixErrorPersists(payload, keys, i + 1);
    } else {
      assert keys[..i] == keys;
    }
  }

  /**
   * The earliest faulty key decides the error: if every key before position
   * `i` is acceptable and key `i` is not, the error names key `i`.
   */
  lemma {:induction false} FirstFaultyKeyWins(payload: map<string, Json>, keys: seq<string>, i: nat)
    requires i < |keys|
    requires forall j :: 0 <= j < i ==> KeyOk(payload, keys[j])
    requires !KeyOk(payload, keys[i])
    ensures NormalizeKeys(payload, keys) == Err(KeyFault(payload, keys[i]))
  {
    var front := keys[..i];
    assert forall k :: k in front ==> KeyOk(payload, k) by {
      forall k | k in front ensures KeyOk(payload, k) {
        var j :| 0 <= j < i && front[j] == k;
      }
    }
    NormalizeKeysMeaning(payload, front);
    assert keys[..i + 1][..i] == front;
    PrefixErrorPersists(payload, keys, i + 1);
  }

  /** A frame that fails a key check fails before any range is looked at. */
  lemma KeyErrorsPrecedeRangeErrors(payload: map<string, Json>, i: nat)
    requires i < |RequiredSensorKeys|
    requires forall j :: 0 <= j < i ==> KeyOk(payload, RequiredSensorKeys[j])
    requires !KeyOk(payload, RequiredSensorKeys[i])
    ensures ParseFrame(Some(JObject(payload))) == Err(KeyFault(payload, RequiredSensorKeys[i]))
  {
    FirstFaultyKeyWins(payload, RequiredSensorKeys, i);
  }

  /**
   * The frame the microcontroller sketch prints names its light value
   * `lm393`, not `lm393_raw`/`lm393_lux`, so whatever the readings, the
   * validator refuses it for the missing `lm393_raw`.
   */
  lemma SketchFrameRejected(pir: int, tempC: real, humidity: real, lm393: int)
    ensures ParseFrame(Some(JObject(map[
      "pir" := JNum(Int(pir)),
      "dht11_temp_c" := JNum(Float(tempC)),
      "dht11_humidity" := JNum(Float(humidity)),
      "lm393" := JNum(Int(lm393))]))) == Err(MissingKey("lm393_raw"))
    ensures Message(MissingKey("lm393_raw")) == "Missing required key: lm393_raw"
  {
    var payload := map[
      "pir" := JNum(Int(pir)),
      "dht11_temp_c" := JNum(Float(tempC)),
      "dht11_humidity" := JNum(Float(humidity)),
      "lm393" := JNum(Int(lm393))];
    assert "lm393_raw" != "lm393" && "lm393_raw" != "pir";
    assert "lm393_raw" !in payload;
    FirstFaultyKeyWins(payload, RequiredSensorKeys, 3);
  }

  /**
   * Accepting a frame: it was an object, the reading holds exactly the five
   * required keys, each value is the input value with booleans turned into
   * 0 or 1, extra input keys are dropped, and every bound holds.
   */
  lemma ParseFrameOk(decoded: Option<Json>, r: Reading)
    requires ParseFrame(decoded) == Ok(r)
    ensures decoded.Some? && decoded.value.JObject?
    ensures r.Keys == set k | k in RequiredSensorKeys
    ensures forall k :: k in RequiredSensorKeys ==>
      KeyOk(decoded.value.fields, k) && Normalize(decoded.value.fields[k]) == Some(r[k])
    ensures HasRequiredKeys(r) && WithinBounds(r)
  {
    NormalizeKeysMeaning(decoded.value.fields, RequiredSensorKeys);
  }

  /** Conversely, an object whose keys pass and whose values are in bounds is accepted. */
  lemma ParseFrameComplete(payload: map<string, Json>)
    requires forall k :: k in RequiredSensorKeys ==> KeyOk(payload, k)
    ensures var r := NormalizeKeys(payload, RequiredSensorKeys);
      r.Ok? && HasRequiredKeys(r.value) &&
      (ParseFrame(Some(JObject(payload))).Ok? <==> WithinBounds(r.value))
  {
    NormalizeKeysMeaning(payload, RequiredSensorKeys);
  }

  /**
   * The range errors in their order: each range error is reported exactly
   * when the earlier checks pass and its own fails.
   */
  lemma RangeErrorOrder(r: Reading)
    requires HasRequiredKeys(r)
    ensures CheckRanges(r) == Err(PirNotBinary) <==> !PirBinary(r["pir"])
    ensures CheckRanges(r) == Err(RawOutOfRange) <==> PirBinary(r["pir"]) && !RawOk(r)
    ensures CheckRanges(r) == Err(LuxOutOfRange) <==> PirBinary(r["pir"]) && RawOk(r) && !LuxOk(r)
    ensures CheckRanges(r) == Err(TempOutOfRange) <==>
      PirBinary(r["pir"]) && RawOk(r) && LuxOk(r) && !TempOk(r)
    ensures CheckRanges(r) == Err(HumidityOutOfRange) <==>
      PirBinary(r["pir"]) && RawOk(r) && LuxOk(r) && TempOk(r) && !HumidityOk(r)
    ensures CheckRanges(r) == Ok(r) <==> WithinBounds(r)
  {
  }

  /**
   * The loop of `parse_serial_line` that fills `normalized` key by key over
   * the given key tuple and stops at the first absent or non-numeric value.
   */
  method NormalizeKeysLoop(payload: map<string, Json>, keys: seq<string>) returns (r: Result<Reading, FrameError>)
    ensures r == NormalizeKeys(payload, keys)
  {
    var normalized: Reading := map[];
    var i := 0;
    while i < |keys|
      invariant 0 <= i <= |keys|
      invariant NormalizeKeys(payload, keys[..i]) == Ok(normalized)
    {
      var key := keys[i];
      assert keys[..i + 1][..i] == keys[..i];
      if key !in payload {
        PrefixErrorPersists(payload, keys, i + 1);
        return Err(MissingKey(key));
      }
      var value := Normalize(payload[key]);
      if value.None? {
        PrefixErrorPersists(payload, keys, i + 1);
        return Err(NotNumeric(key));
      }
      normalized := normalized[key := value.value];
      i := i + 1;
    }
    assert keys[..i] == keys;
    return Ok(normalized);
  }

  /**
   * `parse_serial_line`: decode failure, then the object test, then the key
   * loop, then the straight-line range guards of `CheckRanges`.
   */
  method ParseSerialLine(decoded: Option<Json>) returns (r: Result<Reading, FrameError>)
    ensures r == ParseFrame(decoded)
  {
    if decoded.None? {
      return Err(InvalidJsonFrame);
    }
    if !decoded.value.JObject? {
      return Err(NotAnObject);
    }
    var keys := NormalizeKeysLoop(decoded.value.fields, RequiredSensorKeys);
    if keys.Err? {
      return Err(keys.error);
    }
    var normalized := keys.value;
    NormalizeKeysMeaning(decoded.value.fields, RequiredSensorKeys);
    return CheckRanges(normalized);
  }

  /** An object holding exactly the five required keys with the given values. */
  function FiveKeyFrame(pir: Json, tempC: Json, humidity: Json, raw: Json, lux: Json): map<string, Json>
  {
    map[
      "pir" := pir,
      "dht11_temp_c" := tempC,
      "dht11_humidity" := humidity,
      "lm393_raw" := raw,
      "lm393_lux" := lux]
  }

  /**
   * The key checks over five distinct keys whose values are all numbers
   * pass, and the reading maps each key to its number.
   */
  lemma DistinctNumbersNormalize(k1: string, k2: string, k3: string, k4: string, k5: string,
                                 v1: Num, v2: Num, v3: Num, v4: Num, v5: Num)
    requires k1 != k2 && k1 != k3 && k1 != k4 && k1 != k5
    requires k2 != k3 && k2 != k4 && k2 != k5
    requires k3 != k4 && k3 != k5 && k4 != k5
    ensures NormalizeKeys(map[k1 := JNum(v1), k2 := JNum(v2), k3 := JNum(v3), k4 := JNum(v4), k5 := JNum(v5)], [k1, k2, k3, k4, k5])
      == Ok(map[k1 := v1, k2 := v2, k3 := v3, k4 := v4, k5 := v5])
  {
    var p := map[k1 := JNum(v1), k2 := JNum(v2), k3 := JNum(v3), k4 := JNum(v4), k5 := JNum(v5)];
    assert [k1][..0] == [];
    assert [k1, k2][..1] == [k1];
    assert [k1, k2, k3][..2] == [k1, k2];
    assert [k1, k2, k3, k4][..3] == [k1, k2, k3];
    assert [k1, k2, k3, k4, k5][..4] == [k1, k2, k3, k4];
    assert NormalizeKeys(p, [k1]) == Ok(map[k1 := v1]);
    assert NormalizeKeys(p, [k1, k2]) == Ok(map[k1 := v1, k2 := v2]);
    assert NormalizeKeys(p, [k1, k2, k3]) == Ok(map[k1 := v1, k2 := v2, k3 := v3]);
    assert NormalizeKeys(p, [k1, k2, k3, k4]) == Ok(map[k1 := v1, k2 := v2, k3 := v3, k4 := v4]);
  }

  /**
   * When all five values of a frame are numbers, the key checks pass and the
   * reading holds exactly those numbers under the same keys.
   */
  lemma FiveNumbersNormalize(pir: Num, tempC: Num, humidity: Num, raw: Num, lux: Num)
    ensures NormalizeKeys(FiveKeyFrame(JNum(pir), JNum(tempC), JNum(humidity), JNum(raw), JNum(lux)), RequiredSensorKeys)
      == Ok(map["pir" := pir, "dht11_temp_c" := tempC, "dht11_humidity" := humidity, "lm393_raw" := raw, "lm393_lux" := lux])
  {
    assert "lm393_raw" != "lm393_lux" by {
      assert "lm393_raw"[6] != "lm393_lux"[6];
    }
    DistinctNumbersNormalize("pir", "dht11_temp_c", "dht11_humidity", "lm393_raw", "lm393_lux", pir, tempC, humidity, raw, lux);
  }

  /** A `pir` that is neither a number nor a boolean is refused first, whatever the other values. */
  lemma NonNumericPirRejected(pir: Json, tempC: Json, humidity: Json, raw: Json, lux: Json)
    requires Normalize(pir).None?
    ensures ParseFrame(Some(JObject(FiveKeyFrame(pir, tempC, humidity, raw, lux)))) == Err(NotNumeric("pir"))
  {
    var payload := FiveKeyFrame(pir, tempC, humidity, raw, lux);
    assert payload["pir"] == pir;
    KeyErrorsPrecedeRangeErrors(payload, 0);
  }

  /**
   * For an object of five numbers, the verdict in terms of the numbers
   * themselves: the first failing bound in the order pir, lm393_raw,
   * lm393_lux, dht11_temp_c, dht11_humidity, or the reading of all five.
   */
  lemma NumericFrameVerdict(pir: Num, tempC: Num, humidity: Num, raw: Num, lux: Num)
    ensures ParseFrame(Some(JObject(FiveKeyFrame(JNum(pir), JNum(tempC), JNum(humidity), JNum(raw), JNum(lux))))) ==
      if !PirBinary(pir) then Err(PirNotBinary)
      else if !InRange(raw, Lm393RawMin as real, Lm393RawMax as real) then Err(RawOutOfRange)
      else if !InRange(lux, Lm393LuxMin, Lm393LuxMax) then Err(LuxOutOfRange)
      else if !InRange(tempC, Dht11TempMinC, Dht11TempMaxC) then Err(TempOutOfRange)
      else if !InRange(humidity, Dht11HumidityMin, Dht11HumidityMax) then Err(HumidityOutOfRange)
      else Ok(map["pir" := pir, "dht11_temp_c" := tempC, "dht11_humidity" := humidity, "lm393_raw" := raw, "lm393_lux" := lux])
  {
    var m := map["pir" := pir, "dht11_temp_c" := tempC, "dht11_humidity" := humidity, "lm393_raw" := raw, "lm393_lux" := lux];
    assert HasRequiredKeys(m);
    assert m["pir"] == pir && m["lm393_raw"] == raw && m["lm393_lux"] == lux;
    assert m["dht11_temp_c"] == tempC && m["dht11_humidity"] == humidity;
    assert ParseFrame(Some(JObject(FiveKeyFrame(JNum(pir), JNum(tempC), JNum(humidity), JNum(raw), JNum(lux))))) == CheckRanges(m) by {
      FiveNumbersNormalize(pir, tempC, humidity, raw, lux);
    }
  }

  /** `test_parse_serial_line_accepts_valid_json`: the reading is exactly the frame's five values. */
  method ScenarioValidFrame()
  {
    var r := ParseSerialLine(Some(JObject(FiveKeyFrame(JNum(Int(1)), JNum(Float(28.5)), JNum(Float(62.0)), JNum(Int(678)), JNum(Float(337.5))))));
    NumericFrameVerdict(Int(1), Float(28.5), Float(62.0), Int(678), Float(337.5));
    assert r == Ok(map["pir" := Int(1), "dht11_temp_c" := Float(28.5), "dht11_humidity" := Float(62.0),
                     "lm393_raw" := Int(678), "lm393_lux" := Float(337.5)]);
  }

  /** `test_parse_serial_line_rejects_invalid_json`: text that does not decode. */
  method ScenarioInvalidJson()
  {
    var r := ParseSerialLine(None);
    assert r == Err(InvalidJsonFrame);
  }

  /** `test_parse_serial_line_rejects_missing_keys`: `{"pir":1}` lacks the temperature first. */
  method ScenarioMissingKeys()
  {
    var r := ParseSerialLine(Some(JObject(map["pir" := JNum(Int(1))])));
    var payload := map["pir" := JNum(Int(1))];
    assert KeyOk(payload, RequiredSensorKeys[0]) && "dht11_temp_c" !in payload;
    KeyErrorsPrecedeRangeErrors(payload, 1);
    assert r == Err(MissingKey("dht11_temp_c"));
  }

  /** `test_parse_serial_line_rejects_non_numeric_values`: a string `pir` is not numeric. */
  method ScenarioNonNumericPir()
  {
    var r := ParseSerialLine(Some(JObject(FiveKeyFrame(JString("motion"), JNum(Float(28.5)), JNum(Float(62.0)), JNum(Int(600)), JNum(Float(400.0))))));
    NonNumericPirRejected(JString("motion"), JNum(Float(28.5)), JNum(Float(62.0)), JNum(Int(600)), JNum(Float(400.0)));
    assert r == Err(NotNumeric("pir"));
  }

  /** `test_parse_serial_line_rejects_non_binary_pir`: `pir` 2 is numeric but not 0 or 1. */
  method ScenarioNonBinaryPir()
  {
    var r := ParseSerialLine(Some(JObject(FiveKeyFrame(JNum(Int(2)), JNum(Float(28.5)), JNum(Float(62.0)), JNum(Int(600)), JNum(Float(400.0))))));
    NumericFrameVerdict(Int(2), Float(28.5), Float(62.0), Int(600), Float(400.0));
    assert r == Err(PirNotBinary);
  }

  /** `test_parse_serial_line_rejects_out_of_range_lm393_raw`: raw 1050 is above 1023. */
  method ScenarioRawOutOfRange()
  {
    var r := ParseSerialLine(Some(JObject(FiveKeyFrame(JNum(Int(1)), JNum(Float(28.5)), JNum(Float(62.0)), JNum(Int(1050)), JNum(Float(400.0))))));
    NumericFrameVerdict(Int(1), Float(28.5), Float(62.0), Int(1050), Float(400.0));
    assert r == Err(RawOutOfRange);
  }

  /** `test_parse_serial_line_rejects_negative_lm393_lux`: lux -1.0 is below 0. */
  method ScenarioNegativeLux()
  {
    var r := ParseSerialLine(Some(JObject(FiveKeyFrame(JNum(Int(1)), JNum(Float(28.5)), JNum(Float(62.0)), JNum(Int(600)), JNum(Float(-1.0))))));
    NumericFrameVerdict(Int(1), Float(28.5), Float(62.0), Int(600), Float(-1.0));
    assert r == Err(LuxOutOfRange);
  }

  /** `test_parse_serial_line_rejects_out_of_range_dht11_temperature`: 55.0 °C is above 50. */
  method ScenarioTemperatureOutOfRange()
  {
    var r := ParseSerialLine(Some(JObject(FiveKeyFrame(JNum(Int(1)), JNum(Float(55.0)), JNum(Float(62.0)), JNum(Int(600)), JNum(Float(400.0))))));
    NumericFrameVerdict(Int(1), Float(55.0), Float(62.0), Int(600), Float(400.0));
    assert r == Err(TempOutOfRange);
  }

  /** `test_parse_serial_line_rejects_out_of_range_dht11_humidity`: 95 % is above 90. */
  method ScenarioHumidityOutOfRange()
  {
    var r := ParseSerialLine(Some(JObject(FiveKeyFrame(JNum(Int(1)), JNum(Float(28.5)), JNum(Float(95.0)), JNum(Int(600)), JNum(Float(400.0))))));
    NumericFrameVerdict(Int(1), Float(28.5), Float(95.0), Int(600), Float(400.0));
    assert r == Err(HumidityOutOfRange);
  }

  /** The texts of `test_parse_serial_line_rejects_invalid_json` and `..._rejects_missing_keys`. */
  method ScenarioDecodeAndKeyMessages()
  {
    assert Message(InvalidJsonFrame) == "Invalid JSON frame";
    assert Message(MissingKey("dht11_temp_c")) == "Missing required key: dht11_temp_c";
  }

  /** The texts of the two `pir` tests. */
  method ScenarioPirMessages()
  {
    assert Message(NotNumeric("pir")) == "Sensor key pir must be numeric";
    assert Message(PirNotBinary) == "pir must be 0 or 1";
  }

  /** The texts of the two light-sensor range tests. */
  method ScenarioLightRangeMessages()
  {
    assert Message(RawOutOfRange) == "lm393_raw out of range [0, 1023]";
    assert Message(LuxOutOfRange) == "lm393_lux out of range [0.0, 10000.0]";
  }

  /** The texts of the two DHT11 range tests. */
  method ScenarioDhtRangeMessages()
  {
    assert Message(TempOutOfRange) == "dht11_temp_c out of range [0.0, 50.0]";
    assert Message(HumidityOutOfRange) == "dht11_humidity out of range [20.0, 90.0]";
  }
}
